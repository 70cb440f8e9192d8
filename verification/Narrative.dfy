/** The template narrative, the numbers it may mention, and the safety check that every
    narrative has to pass. */
module Narrative {
  import opened Accounts
  import opened NarrativeText
  import opened Presentation
  import CashFlow

  // ----- figures ------------------------------------------------------------------

  /** Amounts are in 1/10000 units; quantizing to cents rounds half to even. */
  function Cents(units: real): int { RoundHalfEven(units / 100.0) }

  function PctCents(p: Pct): int {
    var h: int := p.hundredths;
    if p.negative then -h else h
  }

  // ----- the numbers a narrative may mention ----------------------------------------

  function VarianceNumbers(v: Option<Variance>): set<int> {
    if v.None? then {}
    else
      {Cents(v.value.current), Cents(v.value.prior), Cents(v.value.delta)}
      + if v.value.pct.None? then {} else {PctCents(v.value.pct.value)}
  }

  function LineNumbers(ls: seq<PresentedLine>): set<int> {
    if ls == [] then {}
    else LineNumbers(ls[..|ls|-1]) + {Cents(ls[|ls|-1].amount)} + VarianceNumbers(ls[|ls|-1].variance)
  }

  function SectionNumbers(s: PresentedSection): set<int> {
    LineNumbers(s.lines) + {Cents(s.subtotal)} + VarianceNumbers(s.variance)
  }

  function PlNumbers(pl: PresentedPl): set<int> {
    SectionNumbers(pl.revenue) + SectionNumbers(pl.cogs) + SectionNumbers(pl.operatingExpenses)
    + SectionNumbers(pl.otherIncome) + SectionNumbers(pl.otherExpenses)
    + {Cents(pl.grossProfit), Cents(pl.operatingIncome), Cents(pl.netIncome)}
    + VarianceNumbers(pl.grossProfitVariance) + VarianceNumbers(pl.operatingIncomeVariance)
    + VarianceNumbers(pl.netIncomeVariance)
  }

  function BsNumbers(bs: PresentedBs): set<int> {
    BsSectionNumbers(bs)
    + {Cents(bs.totalAssets), Cents(bs.totalLiabilities), Cents(bs.retained), Cents(bs.totalEquity),
       Cents(bs.totalLiabilitiesAndEquity)}
    + VarianceNumbers(bs.totalAssetsVariance) + VarianceNumbers(bs.retainedVariance)
  }

  function ItemNumbers(items: seq<CashFlow.Item>): set<int> {
    if items == [] then {} else ItemNumbers(items[..|items|-1]) + {Cents(items[|items|-1].amount)}
  }

  function CfNumbers(cf: CashFlow.PresentedCashFlow): set<int> {
    {Cents(cf.opening as real), Cents(cf.closing as real), Cents(cf.netChange)}
    + ItemNumbers(cf.operating) + {Cents(cf.opTotal)}
    + ItemNumbers(cf.investing) + {Cents(cf.invTotal)}
    + ItemNumbers(cf.financing) + {Cents(cf.finTotal)}
  }

  datatype Reports = Reports(
    pl: PresentedPl, bs: Option<PresentedBs>, cf: Option<CashFlow.PresentedCashFlow>)

  function AllowedNumbers(st: Reports): set<int> {
    PlNumbers(st.pl) + (if st.bs.None? then {} else BsNumbers(st.bs.value))
    + (if st.cf.None? then {} else CfNumbers(st.cf.value))
  }

  method AddVariance(v: Option<Variance>, start: set<int>) returns (out: set<int>)
    ensures out == start + VarianceNumbers(v)
  {
    out := start;
    if v.Some? {
      out := out + {Cents(v.value.current)} + {Cents(v.value.prior)} + {Cents(v.value.delta)};
      if v.value.pct.Some? {
        out := out + {PctCents(v.value.pct.value)};
      }
    }
  }

  method AddSection(s: PresentedSection, start: set<int>) returns (out: set<int>)
    ensures out == start + SectionNumbers(s)
  {
    out := start;
    for i := 0 to |s.lines|
      invariant out == start + LineNumbers(s.lines[..i])
    {
      assert s.lines[..i+1][..i] == s.lines[..i];
      out := out + {Cents(s.lines[i].amount)};
      out := AddVariance(s.lines[i].variance, out);
    }
    assert s.lines[..|s.lines|] == s.lines;
    out := out + {Cents(s.subtotal)};
    out := AddVariance(s.variance, out);
  }

  method AddItems(items: seq<CashFlow.Item>, subtotal: real, start: set<int>) returns (out: set<int>)
    ensures out == start + ItemNumbers(items) + {Cents(subtotal)}
  {
    out := start;
    for i := 0 to |items|
      invariant out == start + ItemNumbers(items[..i])
    {
      assert items[..i+1][..i] == items[..i];
      out := out + {Cents(items[i].amount)};
    }
    assert items[..|items|] == items;
    out := out + {Cents(subtotal)};
  }

  method AddProfitAndLoss(pl: PresentedPl) returns (out: set<int>)
    ensures out == PlNumbers(pl)
  {
    out := AddSection(pl.revenue, {});
    out := AddSection(pl.cogs, out);
    out := AddSection(pl.operatingExpenses, out);
    out := AddSection(pl.otherIncome, out);
    out := AddSection(pl.otherExpenses, out);
    out := out + {Cents(pl.grossProfit)} + {Cents(pl.operatingIncome)} + {Cents(pl.netIncome)};
    out := AddVariance(pl.grossProfitVariance, out);
    out := AddVariance(pl.operatingIncomeVariance, out);
    out := AddVariance(pl.netIncomeVariance, out);
  }

  method AddCashFlow(cf: CashFlow.PresentedCashFlow, start: set<int>) returns (out: set<int>)
    ensures out == start + CfNumbers(cf)
  {
    out := start + {Cents(cf.opening as real)} + {Cents(cf.closing as real)} + {Cents(cf.netChange)};
    out := AddItems(cf.operating, cf.opTotal, out);
    out := AddItems(cf.investing, cf.invTotal, out);
    out := AddItems(cf.financing, cf.finTotal, out);
  }

  method BuildAllowedNumbers(st: Reports) returns (out: set<int>)
    ensures out == AllowedNumbers(st)
  {
    out := AddProfitAndLoss(st.pl);
    if st.bs.Some? {
      out := AddBalanceSheet(st.bs.value, out);
    }
    if st.cf.Some? {
      out := AddCashFlow(st.cf.value, out);
    }
  }

  function BsSectionNumbers(bs: PresentedBs): set<int> {
    SectionNumbers(bs.currentAssets) + SectionNumbers(bs.nonCurrentAssets)
    + SectionNumbers(bs.currentLiabilities) + SectionNumbers(bs.longTermLiabilities) + SectionNumbers(bs.equity)
  }

  method AddSections(bs: PresentedBs, start: set<int>) returns (out: set<int>)
    ensures out == start + BsSectionNumbers(bs)
  {
    out := AddSection(bs.currentAssets, start);
    out := AddSection(bs.nonCurrentAssets, out);
    out := AddSection(bs.currentLiabilities, out);
    out := AddSection(bs.longTermLiabilities, out);
    out := AddSection(bs.equity, out);
  }

  method AddBalanceSheet(bs: PresentedBs, start: set<int>) returns (out: set<int>)
    ensures out == start + BsNumbers(bs)
  {
    out := AddSections(bs, start);
    out := out + {Cents(bs.totalAssets), Cents(bs.totalLiabilities), Cents(bs.retained),
                  Cents(bs.totalEquity), Cents(bs.totalLiabilitiesAndEquity)};
    out := AddVariance(bs.totalAssetsVariance, out);
    out := AddVariance(bs.retainedVariance, out);
  }

  // ----- the safety check ---------------------------------------------------------------

  /** Absolute values and zero are always allowed as well. */
  function Widened(allowed: set<int>): set<int> {
    allowed + (set v | v in allowed :: Abs(v)) + {0}
  }

  function Foreign(ts: seq<Token>, allowed: set<int>): seq<Token> {
    if ts == [] then []
    else if ts[|ts|-1].cents in allowed then Foreign(ts[..|ts|-1], allowed)
    else Foreign(ts[..|ts|-1], allowed) + [ts[|ts|-1]]
  }

  datatype Report = Report(ok: bool, foreign: seq<Token>)

  predicate Safe(text: string, allowed: set<int>) {
    forall t :: t in Extracted(text) ==> t.cents in Widened(allowed)
  }

  lemma {:induction false} ForeignEmpty(ts: seq<Token>, allowed: set<int>)
    ensures Foreign(ts, allowed) == [] <==> forall t :: t in ts ==> t.cents in allowed
  {
    if ts != [] {
      ForeignEmpty(ts[..|ts|-1], allowed);
      assert forall t :: t in ts <==> t in ts[..|ts|-1] || t == ts[|ts|-1];
    }
  }

  method ForeignTokens(found: seq<Token>, allowed: set<int>) returns (foreign: seq<Token>)
    ensures foreign == Foreign(found, allowed)
  {
    foreign := [];
    for i := 0 to |found|
      invariant foreign == Foreign(found[..i], allowed)
    {
      assert found[..i+1][..i] == found[..i];
      if found[i].cents !in allowed {
        foreign := foreign + [found[i]];
      }
    }
    assert found[..|found|] == found;
  }

  method VerifyNarrativeSafety(text: string, allowed: set<int>) returns (report: Report)
    ensures report.foreign == Foreign(Extracted(text), Widened(allowed))
    ensures report.ok <==> Safe(text, allowed)
  {
    var widened := Widened(allowed);
    var found := ExtractNumbers(text);
    var foreign := ForeignTokens(found, widened);
    ForeignEmpty(found, widened);
    report := Report(|foreign| == 0, foreign);
  }

  // ----- the template ---------------------------------------------------------------------

  /** Everything the template prints that is not a figure. Dates are already text. */
  datatype Subject = Subject(
    client: string, start: string, end: string, prior: Option<(string, string)>, asOf: string,
    plAssumptions: seq<string>, cfAssumptions: seq<string>)

  /** Where the first of the largest lines is. */
  function LargestAt(pool: seq<PresentedLine>): (i: nat)
    requires pool != []
    ensures i < |pool|
    ensures forall k :: 0 <= k < |pool| ==> pool[k].amount <= pool[i].amount
    ensures forall k :: 0 <= k < i ==> pool[k].amount < pool[i].amount
  {
    var n := |pool| - 1;
    if n == 0 then 0
    else
      var i := LargestAt(pool[..n]);
      assert forall k :: 0 <= k < n ==> pool[..n][k] == pool[k];
      if pool[i].amount < pool[n].amount then n else i
  }

  function Largest(pool: seq<PresentedLine>): (r: Option<PresentedLine>)
    ensures r.Some? ==> r.value in pool
  {
    if pool == [] then None else Some(pool[LargestAt(pool)])
  }

  function LargestExpenseLine(pl: PresentedPl): Option<PresentedLine> {
    Largest(pl.operatingExpenses.lines + pl.cogs.lines + pl.otherExpenses.lines)
  }

  /** What a printed figure is. */
  datatype Caption =
    | Revenue | CostOfGoodsSold | GrossProfit | OperatingExpenses | OperatingIncome | OtherIncome | OtherExpenses
    | NetIncome | LargestExpense(code: string, name: string)
    | TotalAssets | TotalLiabilities | RetainedEarnings | TotalEquity
    | OpeningCash | ClosingCash | NetChange | FromOperating | FromInvesting | FromFinancing

  function Before(c: Caption): string {
    match c
    case Revenue => "- Revenue: **"
    case CostOfGoodsSold => "- Cost of goods sold: **"
    case GrossProfit => "- Gross profit: **"
    case OperatingExpenses => "- Operating expenses: **"
    case OperatingIncome => "- Operating income: **"
    case OtherIncome => "- Other income: **"
    case OtherExpenses => "- Other expenses: **"
    case NetIncome => "- **Net income: "
    case LargestExpense(code, name) =>
      "\nThe largest expense in the period was " + code + " \U{2014} " + name + " at "
    case TotalAssets => "- Total assets: **"
    case TotalLiabilities => "- Total liabilities: **"
    case RetainedEarnings => "- Retained earnings to date: **"
    case TotalEquity => "- Total equity: **"
    case OpeningCash => "- Opening cash: **"
    case ClosingCash => "- Closing cash: **"
    case NetChange => "- Net change in cash: **"
    case FromOperating => "- " + "Cash from Operating Activities" + ": **"
    case FromInvesting => "- " + "Cash from Investing Activities" + ": **"
    case FromFinancing => "- " + "Cash from Financing Activities" + ": **"
  }

  function After(c: Caption): string { if c.LargestExpense? then "." else "**" }

  /** A line without figures. */
  datatype Remark =
    | Title(client: string) | Period(start: string, end: string, prior: Option<(string, string)>)
    | PlHeading | BsHeading | AsOf(date: string) | BalanceCheck | CfHeading | NotesHeading | Note(text: string)

  function Wording(r: Remark): string {
    match r
    case Title(client) => "# Financial summary \U{2014} " + client
    case Period(start, end, prior) => "_" + PeriodLabel(start, end, prior) + "_\n"
    case PlHeading => "## Profit & loss"
    case BsHeading => "\n## Balance sheet"
    case AsOf(date) => "_As of " + date + "_\n"
    case BalanceCheck => "- Assets = Liabilities + Equity: **YES**"
    case CfHeading => "\n## Cash flow"
    case NotesHeading => "\n## Notes & assumptions"
    case Note(text) => "- " + text
  }

  function PeriodLabel(start: string, end: string, prior: Option<(string, string)>): string {
    "For the period " + start + " to " + end
    + if prior.None? then "" else " (compared with " + prior.value.0 + " to " + prior.value.1 + ")"
  }

  /** A line of the report: a remark, a figure, or a figure with its comparative. */
  datatype ReportLine =
    | Text(remark: Remark)
    | Figure(caption: Caption, amount: real)
    | Versus(caption: Caption, amount: real, prior: real, pct: Option<Pct>)

  function Compared(caption: Caption, amount: real, v: Option<Variance>): ReportLine {
    if v.None? then Figure(caption, amount) else Versus(caption, amount, v.value.prior, v.value.pct)
  }

  function OpeningLines(sub: Subject): seq<ReportLine> {
    [Text(Title(sub.client)), Text(Period(sub.start, sub.end, sub.prior)), Text(PlHeading)]
  }

  function CogsLines(pl: PresentedPl): seq<ReportLine> {
    if pl.cogs.lines == [] then []
    else [Figure(CostOfGoodsSold, pl.cogs.subtotal), Figure(GrossProfit, pl.grossProfit)]
  }

  function OtherLine(caption: Caption, s: PresentedSection): seq<ReportLine> {
    if s.lines == [] then [] else [Figure(caption, s.subtotal)]
  }

  function RevenueLine(pl: PresentedPl): ReportLine {
    Compared(Caption.Revenue, pl.revenue.subtotal, pl.revenue.variance)
  }

  function NetIncomeLine(pl: PresentedPl): ReportLine {
    Compared(NetIncome, pl.netIncome, pl.netIncomeVariance)
  }

  function PlLines(pl: PresentedPl): seq<ReportLine> {
    [RevenueLine(pl)]
    + CogsLines(pl)
    + [Figure(OperatingExpenses, pl.operatingExpenses.subtotal), Figure(OperatingIncome, pl.operatingIncome)]
    + OtherLine(Caption.OtherIncome, pl.otherIncome)
    + OtherLine(OtherExpenses, pl.otherExpenses)
    + [NetIncomeLine(pl)]
  }

  function LargestLines(pl: PresentedPl): seq<ReportLine> {
    var l := LargestExpenseLine(pl);
    if l.None? then [] else [Figure(LargestExpense(l.value.code, l.value.name), l.value.amount)]
  }

  function BsLines(bs: PresentedBs, asOf: string): seq<ReportLine> {
    [Text(BsHeading), Text(AsOf(asOf)),
     Figure(TotalAssets, bs.totalAssets), Figure(TotalLiabilities, bs.totalLiabilities),
     Figure(RetainedEarnings, bs.retained), Figure(TotalEquity, bs.totalEquity), Text(BalanceCheck)]
  }

  function CfLines(cf: CashFlow.PresentedCashFlow): seq<ReportLine> {
    [Text(CfHeading),
     Figure(OpeningCash, cf.opening as real), Figure(ClosingCash, cf.closing as real), Figure(NetChange, cf.netChange),
     Figure(FromOperating, cf.opTotal), Figure(FromInvesting, cf.invTotal), Figure(FromFinancing, cf.finTotal)]
  }

  function Bullets(notes: seq<string>): (r: seq<ReportLine>)
    ensures |r| == |notes| && forall i :: 0 <= i < |notes| ==> r[i] == Text(Note(notes[i]))
  {
    seq(|notes|, i requires 0 <= i < |notes| => Text(Note(notes[i])))
  }

  function BsBlock(sub: Subject, st: Reports): seq<ReportLine> {
    if st.bs.None? then [] else BsLines(st.bs.value, sub.asOf)
  }

  function CfBlock(st: Reports): seq<ReportLine> {
    if st.cf.None? then [] else CfLines(st.cf.value)
  }

  function FigureBlock(sub: Subject, st: Reports): seq<ReportLine> {
    OpeningLines(sub) + PlLines(st.pl) + LargestLines(st.pl) + BsBlock(sub, st) + CfBlock(st)
  }

  function NoteBlock(sub: Subject, st: Reports): seq<ReportLine> {
    [Text(NotesHeading)] + Bullets(sub.plAssumptions)
    + if st.cf.None? then [] else Bullets(sub.cfAssumptions)
  }

  function Template(sub: Subject, st: Reports): seq<ReportLine> {
    FigureBlock(sub, st) + NoteBlock(sub, st)
  }

  function FmtPctOf(p: Option<Pct>): string {
    if p.None? then "n/a (no prior period)" else FmtPct(p.value.negative, p.value.hundredths)
  }

  function PrintLine(l: ReportLine, currency: string): string {
    match l
    case Text(r) => Wording(r)
    case Figure(c, amount) => Before(c) + Fmt(Cents(amount), currency) + After(c)
    case Versus(c, amount, prior, pct) =>
      Before(c) + Fmt(Cents(amount), currency) + After(c)
      + (" (vs " + Fmt(Cents(prior), currency) + ", " + FmtPctOf(pct) + ")")
  }

  /** Every line followed by a newline: `"\n".join(lines) + "\n"` of a non-empty list. */
  function Printed(lines: seq<ReportLine>, currency: string): string {
    if lines == [] then "" else Printed(lines[..|lines|-1], currency) + PrintLine(lines[|lines|-1], currency) + "\n"
  }

  method ProfitAndLossLines(pl: PresentedPl) returns (lines: seq<ReportLine>)
    ensures lines == PlLines(pl)
  {
    lines := [Compared(Caption.Revenue, pl.revenue.subtotal, pl.revenue.variance)];
    if |pl.cogs.lines| > 0 {
      lines := lines + [Figure(CostOfGoodsSold, pl.cogs.subtotal)];
      lines := lines + [Figure(GrossProfit, pl.grossProfit)];
    }
    lines := lines + [Figure(OperatingExpenses, pl.operatingExpenses.subtotal)];
    lines := lines + [Figure(OperatingIncome, pl.operatingIncome)];
    if |pl.otherIncome.lines| > 0 {
      lines := lines + [Figure(Caption.OtherIncome, pl.otherIncome.subtotal)];
    }
    if |pl.otherExpenses.lines| > 0 {
      lines := lines + [Figure(OtherExpenses, pl.otherExpenses.subtotal)];
    }
    lines := lines + [Compared(NetIncome, pl.netIncome, pl.netIncomeVariance)];
  }

  method AddBullets(start: seq<ReportLine>, notes: seq<string>) returns (lines: seq<ReportLine>)
    ensures lines == start + Bullets(notes)
  {
    lines := start;
    for i := 0 to |notes|
      invariant lines == start + Bullets(notes)[..i]
    {
      lines := lines + [Text(Note(notes[i]))];
      assert Bullets(notes)[..i+1] == Bullets(notes)[..i] + [Text(Note(notes[i]))];
    }
  }

  method FigureLines(sub: Subject, st: Reports) returns (lines: seq<ReportLine>)
    ensures lines == FigureBlock(sub, st)
  {
    lines := OpeningLines(sub);
    var more := ProfitAndLossLines(st.pl);
    lines := lines + more;
    var largest := LargestExpenseLine(st.pl);
    if largest.Some? {
      lines := lines + [Figure(LargestExpense(largest.value.code, largest.value.name), largest.value.amount)];
    }
    lines := lines + BsBlock(sub, st);
    lines := lines + CfBlock(st);
  }

  method NoteLines(sub: Subject, st: Reports) returns (lines: seq<ReportLine>)
    ensures lines == NoteBlock(sub, st)
  {
    lines := [Text(NotesHeading)];
    lines := AddBullets(lines, sub.plAssumptions);
    if st.cf.Some? {
      lines := AddBullets(lines, sub.cfAssumptions);
    }
  }

  method JoinLines(lines: seq<ReportLine>, currency: string) returns (text: string)
    ensures text == Printed(lines, currency)
  {
    text := "";
    for i := 0 to |lines|
      invariant text == Printed(lines[..i], currency)
    {
      assert lines[..i+1][..i] == lines[..i];
      text := text + PrintLine(lines[i], currency) + "\n";
    }
    assert lines[..|lines|] == lines;
  }

  method TemplateNarrative(sub: Subject, st: Reports, currency: string) returns (text: string)
    ensures text == Printed(Template(sub, st), currency)
  {
    var lines := FigureLines(sub, st);
    var notes := NoteLines(sub, st);
    text := JoinLines(lines + notes, currency);
  }

  // ----- the writer and its fallback -----------------------------------------------------------

  datatype NarrativeError = SelfCheckFailed

  /** `candidate` is what the pluggable writer returned. */
  method GenerateNarrative(candidate: string, sub: Subject, st: Reports, currency: string)
    returns (r: Result<(string, Report), NarrativeError>)
    ensures r.Ok? ==> Safe(r.value.0, AllowedNumbers(st))
    ensures var allowed := AllowedNumbers(st);
            if Safe(candidate, allowed) then r.Ok? && r.value.0 == candidate && r.value.1.ok
            else if Safe(Printed(Template(sub, st), currency), allowed) then
              && r.Ok? && r.value.0 == Printed(Template(sub, st), currency)
              && !r.value.1.ok && r.value.1.foreign == Foreign(Extracted(candidate), Widened(allowed))
            else r == Err(SelfCheckFailed)
  {
    var allowed := BuildAllowedNumbers(st);
    var report := VerifyNarrativeSafety(candidate, allowed);
    if report.ok {
      return Ok((candidate, report));
    }
    var fallback := TemplateNarrative(sub, st, currency);
    var fallbackReport := VerifyNarrativeSafety(fallback, allowed);
    if !fallbackReport.ok {
      return Err(SelfCheckFailed);
    }
    return Ok((fallback, report));
  }
}
