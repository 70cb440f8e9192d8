/** Reading the template back: under each of its captions stands the figure the caption names. */
module NarrativeCaptions {
  import opened Accounts
  import opened NarrativeText
  import opened NarrativeTextProofs
  import opened NarrativeScan
  import opened Narrative
  import opened NarrativeSafety
  import opened Presentation
  import opened Ledger
  import opened LedgerRuns
  import opened Statements
  import opened PresentationProofs
  import opened Rules
  import CashFlow

  // ----- lines by their first words -------------------------------------------------------

  predicate Begins(l: ReportLine, caption: string) { caption <= PrintLine(l, "USD") }

  /** What a scan finds in the lines that begin with the caption; no figures means no such line. */
  ghost predicate Under(ls: seq<ReportLine>, caption: string, figures: Option<seq<Token>>) {
    && (figures.Some? <==> exists l :: l in ls && Begins(l, caption))
    && forall l :: l in ls && Begins(l, caption) ==>
         figures.Some? && Extracted(PrintLine(l, "USD") + "\n") == figures.value
  }

  /** Four characters tell the captions apart. */
  function Key(c: Caption): (char, char, char, char) {
    match c
    case Revenue => ('R', 'v', 'e', '*')
    case CostOfGoodsSold => ('C', 's', 'f', 'o')
    case GrossProfit => ('G', 'o', 'p', 'i')
    case OperatingExpenses => ('O', 'e', 'i', 'e')
    case OperatingIncome => ('O', 'e', 'i', 'i')
    case OtherIncome => ('O', 'h', 'i', 'm')
    case OtherExpenses => ('O', 'h', 'e', 'n')
    case NetIncome => ('*', 'N', 'i', 'm')
    case LargestExpense(_, _) => ('h', ' ', 'g', ' ')
    case TotalAssets => ('T', 't', 'a', 't')
    case TotalLiabilities => ('T', 't', 'l', 'i')
    case RetainedEarnings => ('R', 't', 'e', 'a')
    case TotalEquity => ('T', 't', 'e', 't')
    case OpeningCash => ('O', 'e', 'g', 's')
    case ClosingCash => ('C', 'o', 'g', 's')
    case NetChange => ('N', 't', 'a', ' ')
    case FromOperating => ('C', 's', 'r', 'O')
    case FromInvesting => ('C', 's', 'r', 'I')
    case FromFinancing => ('C', 's', 'r', 'F')
  }

  predicate Carries(s: string, k: (char, char, char, char)) {
    |s| > 12 && s[2] == k.0 && s[4] == k.1 && s[8] == k.2 && s[12] == k.3
  }

  lemma KeysDiffer(c: Caption, d: Caption)
    requires Key(c) == Key(d) && !c.LargestExpense?
    ensures c == d
  {
  }

  lemma ProfitKeys()
    ensures forall c: Caption :: c == Caption.Revenue || c == CostOfGoodsSold || c == GrossProfit ==>
              Carries(Before(c), Key(c))
  {
  }

  lemma OperatingKeys()
    ensures Carries(Before(OperatingExpenses), Key(OperatingExpenses))
    ensures Carries(Before(OperatingIncome), Key(OperatingIncome))
  {
  }

  lemma OtherKeys()
    ensures Carries(Before(Caption.OtherIncome), Key(Caption.OtherIncome))
    ensures Carries(Before(OtherExpenses), Key(OtherExpenses))
    ensures Carries(Before(NetIncome), Key(NetIncome))
  {
  }

  lemma TotalKeys()
    ensures Carries(Before(TotalAssets), Key(TotalAssets))
    ensures Carries(Before(TotalLiabilities), Key(TotalLiabilities))
  {
  }

  lemma EquityKeys()
    ensures Carries(Before(RetainedEarnings), Key(RetainedEarnings))
    ensures Carries(Before(TotalEquity), Key(TotalEquity))
  {
  }

  lemma CashKeys()
    ensures Carries(Before(OpeningCash), Key(OpeningCash))
    ensures Carries(Before(ClosingCash), Key(ClosingCash))
    ensures Carries(Before(NetChange), Key(NetChange))
  {
  }

  lemma SectionKeys()
    ensures Carries(Before(FromOperating), Key(FromOperating))
    ensures Carries(Before(FromInvesting), Key(FromInvesting))
    ensures Carries(Before(FromFinancing), Key(FromFinancing))
  {
  }

  lemma LargestKey(code: string, name: string)
    ensures Carries(Before(LargestExpense(code, name)), Key(LargestExpense(code, name)))
    ensures LargestOpening() <= Before(LargestExpense(code, name))
  {
    var t := code + " \U{2014} " + name + " at ";
    assert Before(LargestExpense(code, name)) == LargestOpening() + t;
  }

  function LargestOpening(): string { "\nThe largest expense in the period was " }

  lemma KeyOf(c: Caption)
    ensures Carries(Before(c), Key(c))
  {
    match c
    case LargestExpense(code, name) => LargestKey(code, name);
    case TotalAssets | TotalLiabilities => TotalKeys();
    case RetainedEarnings | TotalEquity => EquityKeys();
    case OpeningCash | ClosingCash | NetChange => CashKeys();
    case FromOperating | FromInvesting | FromFinancing => SectionKeys();
    case OperatingExpenses | OperatingIncome => OperatingKeys();
    case OtherIncome | OtherExpenses | NetIncome => OtherKeys();
    case _ => ProfitKeys();
  }

  /** Headings and dates open differently from every caption. */
  lemma RemarkKey(r: Remark)
    requires !r.Note?
    ensures |Wording(r)| > 2 && Wording(r)[2] in {'F', 'o', ' ', '#', 's', 'A'}
  {
    match r
    case Title(client) => TitleKey(client);
    case Period(start, end, prior) => PeriodKey(start, end, prior);
    case AsOf(date) => DateKey(date);
    case _ => HeadingKeys();
  }

  lemma TitleKey(client: string)
    ensures |Wording(Title(client))| > 2 && Wording(Title(client))[2] == 'F'
  {
  }

  lemma PeriodKey(start: string, end: string, prior: Option<(string, string)>)
    ensures |Wording(Remark.Period(start, end, prior))| > 2 && Wording(Remark.Period(start, end, prior))[2] == 'o'
  {
    var t := PeriodLabel(start, end, prior);
    assert t[0] == 'F' && t[1] == 'o';
  }

  lemma DateKey(date: string)
    ensures |Wording(AsOf(date))| > 2 && Wording(AsOf(date))[2] == 's'
  {
  }

  lemma HeadingKeys()
    ensures forall r: Remark :: r.PlHeading? || r.BsHeading? || r.BalanceCheck? || r.CfHeading? || r.NotesHeading? ==>
              |Wording(r)| > 2 && Wording(r)[2] in {' ', '#', 'A'}
  {
  }

  lemma CarriesOn(s: string, t: string, k: (char, char, char, char))
    requires Carries(s, k) && s <= t
    ensures Carries(t, k)
  {
  }

  lemma FigureOpens(l: ReportLine)
    requires !l.Text?
    ensures Before(l.caption) <= PrintLine(l, "USD")
  {
    var b, f, a := Before(l.caption), Fmt(Cents(l.amount), "USD"), After(l.caption);
    assert b <= b + f + a;
    if l.Versus? {
      var v := " (vs " + Fmt(Cents(l.prior), "USD") + ", " + FmtPctOf(l.pct) + ")";
      assert b <= b + f + a + v;
    }
  }

  /** A line that begins with a caption prints the figure of that caption. */
  lemma CaptionTells(l: ReportLine, c: Caption)
    requires !(l.Text? && l.remark.Note?) && !c.LargestExpense? && Begins(l, Before(c))
    ensures !l.Text? && l.caption == c
  {
    KeyOf(c);
    CarriesOn(Before(c), PrintLine(l, "USD"), Key(c));
    if l.Text? {
      RemarkKey(l.remark);
    } else {
      FigureOpens(l);
      KeyOf(l.caption);
      CarriesOn(Before(l.caption), PrintLine(l, "USD"), Key(l.caption));
      KeysDiffer(c, l.caption);
    }
  }

  lemma LargestTells(l: ReportLine)
    requires !(l.Text? && l.remark.Note?) && Begins(l, LargestOpening())
    ensures !l.Text? && l.caption.LargestExpense?
  {
    assert PrintLine(l, "USD")[2] == LargestOpening()[2] == 'h';
    if l.Text? {
      RemarkKey(l.remark);
    } else {
      FigureOpens(l);
      KeyOf(l.caption);
      CarriesOn(Before(l.caption), PrintLine(l, "USD"), Key(l.caption));
    }
  }

  // ----- scanning one line -------------------------------------------------------------------

  function ShownPct(p: Option<Pct>): seq<Token> {
    if p.None? then [] else [Token(Percent, ScannedPct(p.value.negative, p.value.hundredths))]
  }

  /** The figures of a line, percents first. */
  function Compare(amount: real, v: Option<Variance>): seq<Token> {
    if v.None? then [Token(Money, Cents(amount))]
    else ShownPct(v.value.pct) + [Token(Money, Cents(amount)), Token(Money, Cents(v.value.prior))]
  }

  lemma NoTokens()
    ensures PctTokens([]) == [] && AmountTokens([]) == []
  {
  }

  lemma FigureTokens(before: string, cents: int, after: string)
    ensures PctTokens(FigurePieces(before, cents, after)) == []
    ensures AmountTokens(FigurePieces(before, cents, after)) == [Token(Money, cents)]
  {
    var last := Words(after + "\n");
    NoTokens();
    assert [last] + [] == [last];
    TokensOf(last, []);
    TokensOf(Amount(cents), [last]);
    TokensOf(Words(before), [Amount(cents)] + [last]);
  }

  lemma ComparisonTokens(prior: real, pct: Option<Pct>)
    ensures PctTokens(Comparison(prior, pct)) == ShownPct(pct)
    ensures AmountTokens(Comparison(prior, pct)) == [Token(Money, Cents(prior))]
  {
    var last := Words(")\n");
    NoTokens();
    assert [last] + [] == [last];
    TokensOf(last, []);
    TokensOf(PctPiece(pct), [last]);
    TokensOf(Words(", "), [PctPiece(pct)] + [last]);
    TokensOf(Amount(Cents(prior)), [Words(", ")] + ([PctPiece(pct)] + [last]));
  }

  lemma VersusTokens(before: string, cents: int, after: string, prior: real, pct: Option<Pct>)
    ensures PctTokens(VersusPieces(before, cents, after, prior, pct)) == ShownPct(pct)
    ensures AmountTokens(VersusPieces(before, cents, after, prior, pct))
         == [Token(Money, cents), Token(Money, Cents(prior))]
  {
    var tail, middle := Comparison(prior, pct), Words(after + " (vs ");
    ComparisonTokens(prior, pct);
    TokensOf(middle, tail);
    TokensOf(Amount(cents), [middle] + tail);
    TokensOf(Words(before), [Amount(cents)] + ([middle] + tail));
  }

  lemma PiecesScan(ps: seq<Piece>, text: string, usd: string)
    requires WellFormed(ps) && Render(ps, usd) == text && usd == "USD"
    ensures Extracted(text) == PctTokens(ps) + AmountTokens(ps)
  {
    ScanIsExact(ps, usd);
  }

  lemma LineScans(l: ReportLine, usd: string)
    requires !l.Text? && NeutralCaption(l.caption) && usd == "USD"
    ensures Extracted(PrintLine(l, usd) + "\n") == PctTokens(PiecesOf(l)) + AmountTokens(PiecesOf(l))
  {
    CaptionNeutral(l.caption);
    LineFits(l);
    LineRendered(l, usd);
    PiecesScan(PiecesOf(l), PrintLine(l, usd) + "\n", usd);
  }

  lemma ComparedScans(c: Caption, amount: real, v: Option<Variance>)
    requires NeutralCaption(c)
    ensures Extracted(PrintLine(Compared(c, amount, v), "USD") + "\n") == Compare(amount, v)
  {
    LineScans(Compared(c, amount, v), "USD");
    if v.None? {
      FigureTokens(Before(c), Cents(amount), After(c));
    } else {
      VersusTokens(Before(c), Cents(amount), After(c), v.value.prior, v.value.pct);
    }
  }

  // ----- captions and fields ------------------------------------------------------------------

  lemma OnlyIn(sub: Subject, st: Reports, l: ReportLine)
    ensures l in FigureBlock(sub, st) <==>
              l in OpeningLines(sub) || l in PlLines(st.pl) || l in LargestLines(st.pl)
              || l in BsBlock(sub, st) || l in CfBlock(st)
  {
    var a, p, g, s, f := OpeningLines(sub), PlLines(st.pl), LargestLines(st.pl), BsBlock(sub, st), CfBlock(st);
    assert l in a + p + g + s + f <==> l in a + p + g + s || l in f;
    assert l in a + p + g + s <==> l in a + p + g || l in s;
    assert l in a + p + g <==> l in a + p || l in g;
  }

  lemma OpeningBlock(sub: Subject, l: ReportLine)
    requires l in OpeningLines(sub)
    ensures l.Text? && !l.remark.Note?
  {
  }

  lemma PlBlock(pl: PresentedPl, l: ReportLine)
    requires l in PlLines(pl)
    ensures !l.Text?
    ensures l.caption in {Caption.Revenue, CostOfGoodsSold, GrossProfit, OperatingExpenses, OperatingIncome,
                          Caption.OtherIncome, OtherExpenses, NetIncome}
  {
  }

  lemma BsLineCaptions(bs: PresentedBs, asOf: string, l: ReportLine)
    requires l in BsLines(bs, asOf)
    ensures if l.Text? then !l.remark.Note?
            else l.caption in {TotalAssets, TotalLiabilities, RetainedEarnings, TotalEquity}
  {
  }

  lemma CfLineCaptions(cf: CashFlow.PresentedCashFlow, l: ReportLine)
    requires l in CfLines(cf)
    ensures if l.Text? then !l.remark.Note?
            else l.caption in {OpeningCash, ClosingCash, NetChange, FromOperating, FromInvesting, FromFinancing}
  {
  }

  /** The captions of each block. */
  lemma BlockCaptions(sub: Subject, st: Reports, l: ReportLine)
    requires l in FigureBlock(sub, st)
    ensures l.Text? ==> !l.remark.Note?
    ensures !l.Text? ==>
            match l.caption
            case LargestExpense(_, _) => l in LargestLines(st.pl)
            case TotalAssets | TotalLiabilities | RetainedEarnings | TotalEquity =>
              st.bs.Some? && l in BsLines(st.bs.value, sub.asOf)
            case OpeningCash | ClosingCash | NetChange | FromOperating | FromInvesting | FromFinancing =>
              st.cf.Some? && l in CfLines(st.cf.value)
            case _ => l in PlLines(st.pl)
  {
    OnlyIn(sub, st, l);
    if l in OpeningLines(sub) {
      OpeningBlock(sub, l);
    } else if l in PlLines(st.pl) {
      PlBlock(st.pl, l);
    } else if l in BsBlock(sub, st) {
      BsLineCaptions(st.bs.value, sub.asOf, l);
    } else if l in CfBlock(st) {
      CfLineCaptions(st.cf.value, l);
    }
  }

  predicate Told(st: Reports, c: Caption) {
    match c
    case CostOfGoodsSold | GrossProfit => st.pl.cogs.lines != []
    case OtherIncome => st.pl.otherIncome.lines != []
    case OtherExpenses => st.pl.otherExpenses.lines != []
    case TotalAssets | TotalLiabilities | RetainedEarnings | TotalEquity => st.bs.Some?
    case OpeningCash | ClosingCash | NetChange | FromOperating | FromInvesting | FromFinancing => st.cf.Some?
    case _ => true
  }

  function PlLine(pl: PresentedPl, c: Caption): ReportLine {
    match c
    case Revenue => Compared(c, pl.revenue.subtotal, pl.revenue.variance)
    case CostOfGoodsSold => Figure(c, pl.cogs.subtotal)
    case GrossProfit => Figure(c, pl.grossProfit)
    case OperatingExpenses => Figure(c, pl.operatingExpenses.subtotal)
    case OperatingIncome => Figure(c, pl.operatingIncome)
    case OtherIncome => Figure(c, pl.otherIncome.subtotal)
    case OtherExpenses => Figure(c, pl.otherExpenses.subtotal)
    case _ => Compared(c, pl.netIncome, pl.netIncomeVariance)
  }

  function BsLine(bs: PresentedBs, c: Caption): ReportLine {
    Figure(c, match c
              case TotalAssets => bs.totalAssets
              case TotalLiabilities => bs.totalLiabilities
              case RetainedEarnings => bs.retained
              case _ => bs.totalEquity)
  }

  function CfLine(cf: CashFlow.PresentedCashFlow, c: Caption): ReportLine {
    Figure(c, match c
              case OpeningCash => cf.opening as real
              case ClosingCash => cf.closing as real
              case NetChange => cf.netChange
              case FromOperating => cf.opTotal
              case FromInvesting => cf.invTotal
              case _ => cf.finTotal)
  }

  predicate PlCaption(c: Caption) {
    c in {Caption.Revenue, CostOfGoodsSold, GrossProfit, OperatingExpenses, OperatingIncome,
          Caption.OtherIncome, OtherExpenses, NetIncome}
  }

  predicate BsCaption(c: Caption) { c in {TotalAssets, TotalLiabilities, RetainedEarnings, TotalEquity} }

  function LineUnder(st: Reports, c: Caption): ReportLine
    requires Told(st, c)
  {
    if PlCaption(c) || c.LargestExpense? then PlLine(st.pl, c)
    else if BsCaption(c) then BsLine(st.bs.value, c)
    else CfLine(st.cf.value, c)
  }

  lemma PlLineIs(st: Reports, c: Caption, l: ReportLine)
    requires PlCaption(c) && !l.Text? && l.caption == c
    ensures l in PlLines(st.pl) <==> Told(st, c) && l == PlLine(st.pl, c)
  {
  }

  lemma BsLineIs(bs: PresentedBs, asOf: string, c: Caption, l: ReportLine)
    requires BsCaption(c) && !l.Text? && l.caption == c
    ensures l in BsLines(bs, asOf) <==> l == BsLine(bs, c)
  {
  }

  lemma CfLineIs(cf: CashFlow.PresentedCashFlow, c: Caption, l: ReportLine)
    requires !PlCaption(c) && !BsCaption(c) && !c.LargestExpense? && !l.Text? && l.caption == c
    ensures l in CfLines(cf) <==> l == CfLine(cf, c)
  {
  }

  /** Each caption has its one line, or none. */
  lemma LineIs(sub: Subject, st: Reports, c: Caption, l: ReportLine)
    requires !c.LargestExpense? && !l.Text? && l.caption == c
    ensures l in FigureBlock(sub, st) <==> Told(st, c) && l == LineUnder(st, c)
  {
    OnlyIn(sub, st, l);
    if l in FigureBlock(sub, st) { BlockCaptions(sub, st, l); }
    if PlCaption(c) {
      PlLineIs(st, c, l);
    } else if BsCaption(c) {
      if st.bs.Some? { BsLineIs(st.bs.value, sub.asOf, c, l); }
    } else if st.cf.Some? {
      CfLineIs(st.cf.value, c, l);
    }
  }

  lemma CaptionReadsBack(sub: Subject, st: Reports, c: Caption, caption: string, amount: real, v: Option<Variance>)
    requires !c.LargestExpense? && caption == Before(c)
    requires Told(st, c) ==> LineUnder(st, c) == Compared(c, amount, v)
    ensures Under(FigureBlock(sub, st), caption, if Told(st, c) then Some(Compare(amount, v)) else None)
  {
    var ls, it := FigureBlock(sub, st), Compared(c, amount, v);
    LineIs(sub, st, c, it);
    FigureOpens(it);
    assert Begins(it, caption);
    ComparedScans(c, amount, v);
    forall l | l in ls && Begins(l, caption) ensures Told(st, c) && l == it {
      BlockCaptions(sub, st, l);
      CaptionTells(l, c);
      LineIs(sub, st, c, l);
    }
  }

  // ----- the captions, one by one ------------------------------------------------------------------

  lemma RevenueReadBack(sub: Subject, st: Reports)
    ensures Under(FigureBlock(sub, st), "- Revenue: **",
                  Some(Compare(st.pl.revenue.subtotal, st.pl.revenue.variance)))
  {
    CaptionReadsBack(sub, st, Caption.Revenue, "- Revenue: **", st.pl.revenue.subtotal, st.pl.revenue.variance);
  }

  lemma CogsReadBack(sub: Subject, st: Reports)
    ensures Under(FigureBlock(sub, st), "- Cost of goods sold: **",
                  if st.pl.cogs.lines != [] then Some([Token(Money, Cents(st.pl.cogs.subtotal))]) else None)
  {
    CaptionReadsBack(sub, st, CostOfGoodsSold, "- Cost of goods sold: **", st.pl.cogs.subtotal, None);
  }

  lemma GrossProfitReadBack(sub: Subject, st: Reports)
    ensures Under(FigureBlock(sub, st), "- Gross profit: **",
                  if st.pl.cogs.lines != [] then Some([Token(Money, Cents(st.pl.grossProfit))]) else None)
  {
    CaptionReadsBack(sub, st, GrossProfit, "- Gross profit: **", st.pl.grossProfit, None);
  }

  lemma OperatingExpensesReadBack(sub: Subject, st: Reports)
    ensures Under(FigureBlock(sub, st), "- Operating expenses: **",
                  Some([Token(Money, Cents(st.pl.operatingExpenses.subtotal))]))
  {
    CaptionReadsBack(sub, st, OperatingExpenses, "- Operating expenses: **", st.pl.operatingExpenses.subtotal, None);
  }

  lemma OperatingIncomeReadBack(sub: Subject, st: Reports)
    ensures Under(FigureBlock(sub, st), "- Operating income: **",
                  Some([Token(Money, Cents(st.pl.operatingIncome))]))
  {
    CaptionReadsBack(sub, st, OperatingIncome, "- Operating income: **", st.pl.operatingIncome, None);
  }

  lemma OtherIncomeReadBack(sub: Subject, st: Reports)
    ensures Under(FigureBlock(sub, st), "- Other income: **",
                  if st.pl.otherIncome.lines != [] then Some([Token(Money, Cents(st.pl.otherIncome.subtotal))]) else None)
  {
    CaptionReadsBack(sub, st, Caption.OtherIncome, "- Other income: **", st.pl.otherIncome.subtotal, None);
  }

  lemma OtherExpensesReadBack(sub: Subject, st: Reports)
    ensures Under(FigureBlock(sub, st), "- Other expenses: **",
                  if st.pl.otherExpenses.lines != [] then Some([Token(Money, Cents(st.pl.otherExpenses.subtotal))]) else None)
  {
    CaptionReadsBack(sub, st, OtherExpenses, "- Other expenses: **", st.pl.otherExpenses.subtotal, None);
  }

  lemma NetIncomeReadBack(sub: Subject, st: Reports)
    ensures Under(FigureBlock(sub, st), "- **Net income: ",
                  Some(Compare(st.pl.netIncome, st.pl.netIncomeVariance)))
  {
    CaptionReadsBack(sub, st, NetIncome, "- **Net income: ", st.pl.netIncome, st.pl.netIncomeVariance);
  }

  lemma AssetsReadBack(sub: Subject, st: Reports)
    ensures Under(FigureBlock(sub, st), "- Total assets: **",
                  if st.bs.Some? then Some([Token(Money, Cents(st.bs.value.totalAssets))]) else None)
  {
    CaptionReadsBack(sub, st, TotalAssets, "- Total assets: **", if st.bs.Some? then st.bs.value.totalAssets else 0.0, None);
  }

  lemma LiabilitiesReadBack(sub: Subject, st: Reports)
    ensures Under(FigureBlock(sub, st), "- Total liabilities: **",
                  if st.bs.Some? then Some([Token(Money, Cents(st.bs.value.totalLiabilities))]) else None)
  {
    CaptionReadsBack(sub, st, TotalLiabilities, "- Total liabilities: **", if st.bs.Some? then st.bs.value.totalLiabilities else 0.0, None);
  }

  lemma RetainedReadBack(sub: Subject, st: Reports)
    ensures Under(FigureBlock(sub, st), "- Retained earnings to date: **",
                  if st.bs.Some? then Some([Token(Money, Cents(st.bs.value.retained))]) else None)
  {
    CaptionReadsBack(sub, st, RetainedEarnings, "- Retained earnings to date: **", if st.bs.Some? then st.bs.value.retained else 0.0, None);
  }

  lemma EquityReadBack(sub: Subject, st: Reports)
    ensures Under(FigureBlock(sub, st), "- Total equity: **",
                  if st.bs.Some? then Some([Token(Money, Cents(st.bs.value.totalEquity))]) else None)
  {
    CaptionReadsBack(sub, st, TotalEquity, "- Total equity: **", if st.bs.Some? then st.bs.value.totalEquity else 0.0, None);
  }

  lemma OpeningCashReadBack(sub: Subject, st: Reports)
    ensures Under(FigureBlock(sub, st), "- Opening cash: **",
                  if st.cf.Some? then Some([Token(Money, Cents(st.cf.value.opening as real))]) else None)
  {
    CaptionReadsBack(sub, st, OpeningCash, "- Opening cash: **", if st.cf.Some? then st.cf.value.opening as real else 0.0, None);
  }

  lemma ClosingCashReadBack(sub: Subject, st: Reports)
    ensures Under(FigureBlock(sub, st), "- Closing cash: **",
                  if st.cf.Some? then Some([Token(Money, Cents(st.cf.value.closing as real))]) else None)
  {
    CaptionReadsBack(sub, st, ClosingCash, "- Closing cash: **", if st.cf.Some? then st.cf.value.closing as real else 0.0, None);
  }

  lemma NetChangeReadBack(sub: Subject, st: Reports)
    ensures Under(FigureBlock(sub, st), "- Net change in cash: **",
                  if st.cf.Some? then Some([Token(Money, Cents(st.cf.value.netChange))]) else None)
  {
    CaptionReadsBack(sub, st, NetChange, "- Net change in cash: **", if st.cf.Some? then st.cf.value.netChange else 0.0, None);
  }

  lemma OperatingCaption(caption: string)
    requires caption == "- Cash from Operating Activities: **"
    ensures caption == Before(FromOperating)
  {
  }

  lemma OperatingReadBack(sub: Subject, st: Reports)
    ensures Under(FigureBlock(sub, st), "- Cash from Operating Activities: **",
                  if st.cf.Some? then Some([Token(Money, Cents(st.cf.value.opTotal))]) else None)
  {
    OperatingCaption("- Cash from Operating Activities: **");
    CaptionReadsBack(sub, st, FromOperating, "- Cash from Operating Activities: **", if st.cf.Some? then st.cf.value.opTotal else 0.0, None);
  }

  lemma InvestingCaption(caption: string)
    requires caption == "- Cash from Investing Activities: **"
    ensures caption == Before(FromInvesting)
  {
  }

  lemma InvestingReadBack(sub: Subject, st: Reports)
    ensures Under(FigureBlock(sub, st), "- Cash from Investing Activities: **",
                  if st.cf.Some? then Some([Token(Money, Cents(st.cf.value.invTotal))]) else None)
  {
    InvestingCaption("- Cash from Investing Activities: **");
    CaptionReadsBack(sub, st, FromInvesting, "- Cash from Investing Activities: **", if st.cf.Some? then st.cf.value.invTotal else 0.0, None);
  }

  lemma FinancingCaption(caption: string)
    requires caption == "- Cash from Financing Activities: **"
    ensures caption == Before(FromFinancing)
  {
  }

  lemma FinancingReadBack(sub: Subject, st: Reports)
    ensures Under(FigureBlock(sub, st), "- Cash from Financing Activities: **",
                  if st.cf.Some? then Some([Token(Money, Cents(st.cf.value.finTotal))]) else None)
  {
    FinancingCaption("- Cash from Financing Activities: **");
    CaptionReadsBack(sub, st, FromFinancing, "- Cash from Financing Activities: **", if st.cf.Some? then st.cf.value.finTotal else 0.0, None);
  }
  lemma LargestIs(sub: Subject, st: Reports, l: ReportLine)
    requires l in FigureBlock(sub, st) && Begins(l, LargestOpening())
    ensures l in LargestLines(st.pl)
  {
    BlockCaptions(sub, st, l);
    LargestTells(l);
  }

  function ExpensePool(pl: PresentedPl): seq<PresentedLine> {
    pl.operatingExpenses.lines + pl.cogs.lines + pl.otherExpenses.lines
  }

  /** Line `i` of the pool is the first of the largest amount, and the lines that begin with `opening`, of
      which there are some, go on to name it and show its amount. */
  ghost predicate NamesLargest(ls: seq<ReportLine>, opening: string, pool: seq<PresentedLine>, i: int) {
    && 0 <= i < |pool|
    && (forall k :: 0 <= k < |pool| ==> pool[k].amount <= pool[i].amount)
    && (forall k :: 0 <= k < i ==> pool[k].amount < pool[i].amount)
    && Under(ls, opening, Some([Token(Money, Cents(pool[i].amount))]))
    && forall l :: l in ls && Begins(l, opening) ==>
         Begins(l, opening + (pool[i].code + " \U{2014} " + pool[i].name + " at "))
  }

  lemma LargestBegins(l: PresentedLine, opening: string)
    requires opening == LargestOpening()
    ensures var it := Figure(LargestExpense(l.code, l.name), l.amount);
            Begins(it, opening) && Begins(it, opening + (l.code + " \U{2014} " + l.name + " at "))
  {
    var it := Figure(LargestExpense(l.code, l.name), l.amount);
    FigureOpens(it);
    assert Before(it.caption) == opening + (l.code + " \U{2014} " + l.name + " at ");
  }

  lemma LargestAlone(sub: Subject, st: Reports, opening: string)
    requires opening == LargestOpening()
    ensures forall l :: l in FigureBlock(sub, st) && Begins(l, opening) ==> l in LargestLines(st.pl)
  {
    forall l | l in FigureBlock(sub, st) && Begins(l, opening) ensures l in LargestLines(st.pl) {
      LargestIs(sub, st, l);
    }
  }

  /** The sentence on the largest expense names the first line of the largest amount among the operating
      expenses, the cost of goods sold and the other expenses, and its figure is that amount; without
      expenses there is no such sentence. */
  lemma LargestReadsBack(sub: Subject, st: Reports, opening: string)
    requires opening == "\nThe largest expense in the period was "
    requires forall l :: l in ExpensePool(st.pl) ==> Plain(l.code) && Plain(l.name)
    ensures if ExpensePool(st.pl) == [] then Under(FigureBlock(sub, st), opening, None)
            else exists i :: NamesLargest(FigureBlock(sub, st), opening, ExpensePool(st.pl), i)
  {
    LargestAlone(sub, st, opening);
    if ExpensePool(st.pl) != [] {
      LargestNamed(sub, st, opening, LargestAt(ExpensePool(st.pl)));
    }
  }

  lemma LargestNamed(sub: Subject, st: Reports, opening: string, i: nat)
    requires ExpensePool(st.pl) != [] && i == LargestAt(ExpensePool(st.pl))
    requires forall l :: l in ExpensePool(st.pl) ==> Plain(l.code) && Plain(l.name)
    requires opening == LargestOpening()
    requires forall l :: l in FigureBlock(sub, st) && Begins(l, opening) ==> l in LargestLines(st.pl)
    ensures NamesLargest(FigureBlock(sub, st), opening, ExpensePool(st.pl), i)
  {
    var l := ExpensePool(st.pl)[i];
    var it := Figure(LargestExpense(l.code, l.name), l.amount);
    assert LargestLines(st.pl) == [it];
    OnlyIn(sub, st, it);
    LargestBegins(l, opening);
    ComparedScans(it.caption, it.amount, None);
  }

  // ----- the whole text ----------------------------------------------------------------------------------

  predicate Holds(text: string, part: string) { exists i, j :: 0 <= i <= j <= |text| && text[i..j] == part }

  lemma HoldsLater(text: string, part: string, z: string)
    requires Holds(text, part)
    ensures Holds(text + z, part)
  {
    var i, j :| 0 <= i <= j <= |text| && text[i..j] == part;
    assert (text + z)[i..j] == part;
  }

  lemma HoldsLast(text: string, z: string)
    ensures Holds(text + z, z)
  {
    assert (text + z)[|text|..|text + z|] == z;
  }

  lemma PrintedSnoc(ls: seq<ReportLine>, currency: string)
    requires ls != []
    ensures Printed(ls, currency) == Printed(ls[..|ls|-1], currency) + (PrintLine(ls[|ls|-1], currency) + "\n")
  {
  }

  lemma {:induction false} LineStands(ls: seq<ReportLine>, l: ReportLine, currency: string)
    requires l in ls
    ensures Holds(Printed(ls, currency), PrintLine(l, currency) + "\n")
  {
    var n := |ls| - 1;
    PrintedSnoc(ls, currency);
    if l == ls[n] {
      HoldsLast(Printed(ls[..n], currency), PrintLine(l, currency) + "\n");
    } else {
      LineStands(ls[..n], l, currency);
      HoldsLater(Printed(ls[..n], currency), PrintLine(l, currency) + "\n", PrintLine(ls[n], currency) + "\n");
    }
  }

  /** Every line with a figure stands in the text. */
  lemma FigureStands(sub: Subject, st: Reports, l: ReportLine, currency: string)
    requires l in FigureBlock(sub, st)
    ensures Holds(Printed(Template(sub, st), currency), PrintLine(l, currency) + "\n")
  {
    assert l in Template(sub, st);
    LineStands(Template(sub, st), l, currency);
  }

  lemma BulletOf(notes: seq<string>, note: string)
    requires note in notes
    ensures Text(Note(note)) in Bullets(notes)
  {
    var i :| 0 <= i < |notes| && notes[i] == note;
    assert Bullets(notes)[i] == Text(Note(note));
  }

  lemma NoteStands(sub: Subject, st: Reports, note: string, currency: string)
    requires Text(Note(note)) in NoteBlock(sub, st)
    ensures Holds(Printed(Template(sub, st), currency), Wording(Note(note)) + "\n")
  {
    assert Text(Note(note)) in Template(sub, st);
    LineStands(Template(sub, st), Text(Note(note)), currency);
  }

  lemma NoteListed(sub: Subject, st: Reports, note: string)
    requires note in sub.plAssumptions || (st.cf.Some? && note in sub.cfAssumptions)
    ensures Text(Note(note)) in NoteBlock(sub, st)
  {
    if note in sub.plAssumptions { BulletOf(sub.plAssumptions, note); } else { BulletOf(sub.cfAssumptions, note); }
  }

  /** Every assumption stands in the text, as a bullet. */
  lemma AssumptionStands(sub: Subject, st: Reports, note: string, currency: string)
    requires note in sub.plAssumptions || (st.cf.Some? && note in sub.cfAssumptions)
    ensures Holds(Printed(Template(sub, st), currency), "- " + note + "\n")
  {
    NoteListed(sub, st, note);
    NoteStands(sub, st, note, currency);
  }

  lemma {:induction false} PrintedPrefix(ls: seq<ReportLine>, n: nat, currency: string)
    requires n <= |ls|
    ensures Printed(ls[..n], currency) <= Printed(ls, currency)
    decreases |ls| - n
  {
    if n == |ls| {
      assert ls[..n] == ls;
    } else {
      PrintedPrefix(ls, n + 1, currency);
      PrintedSnoc(ls[..n+1], currency);
      assert ls[..n+1][..n] == ls[..n];
    }
  }

  lemma OpensWithTwo(ls: seq<ReportLine>, one: string, two: string, currency: string)
    requires |ls| >= 2 && PrintLine(ls[0], currency) == one && PrintLine(ls[1], currency) == two
    ensures one + "\n" + (two + "\n") <= Printed(ls, currency)
  {
    PrintedPrefix(ls, 2, currency);
    PrintedSnoc(ls[..2], currency);
    PrintedSnoc(ls[..1], currency);
    assert ls[..2][..1] == ls[..1] && ls[..1][..0] == [];
    assert Printed([], currency) == "" && "" + (one + "\n") == one + "\n";
  }

  lemma FirstTwo(sub: Subject, st: Reports)
    ensures |Template(sub, st)| >= 2
    ensures Template(sub, st)[0] == Text(Title(sub.client))
    ensures Template(sub, st)[1] == Text(Remark.Period(sub.start, sub.end, sub.prior))
  {
  }

  function Against(prior: Option<(string, string)>): string {
    if prior.None? then "" else " (compared with " + prior.value.0 + " to " + prior.value.1 + ")"
  }

  lemma PeriodWording(sub: Subject, l: ReportLine, currency: string)
    requires l == Text(Remark.Period(sub.start, sub.end, sub.prior))
    ensures PrintLine(l, currency) == "_" + ("For the period " + sub.start + " to " + sub.end + Against(sub.prior)) + "_\n"
  {
  }

  /** The text opens with the client and the period, and the prior period when there is one. */
  lemma TextOpens(sub: Subject, st: Reports, currency: string)
    ensures "# Financial summary \U{2014} " + sub.client + "\n"
            + ("_" + ("For the period " + sub.start + " to " + sub.end + Against(sub.prior)) + "_\n" + "\n")
            <= Printed(Template(sub, st), currency)
  {
    var ls := Template(sub, st);
    FirstTwo(sub, st);
    PeriodWording(sub, ls[1], currency);
    OpensWithTwo(ls, PrintLine(ls[0], currency), PrintLine(ls[1], currency), currency);
  }

  // ----- the printed balance sheet ----------------------------------------------------------------------

  /** All amounts of the book are whole cents. */
  predicate WholeCents(es: seq<Entry>) {
    forall k, i :: 0 <= k < |es| && 0 <= i < |es[k].lines| ==>
      es[k].lines[i].debit % 100 == 0 && es[k].lines[i].credit % 100 == 0
  }

  lemma {:induction false} WholeLines(ls: seq<Line>, ids: set<nat>, side: Side)
    requires forall i :: 0 <= i < |ls| ==> ls[i].debit % 100 == 0 && ls[i].credit % 100 == 0
    ensures LineSum(ls, ids, side) % 100 == 0
  {
    if ls != [] {
      WholeLines(ls[..|ls|-1], ids, side);
      WholeSums(LineSum(ls[..|ls|-1], ids, side), if side == Debit then ls[|ls|-1].debit else ls[|ls|-1].credit);
    }
  }

  lemma {:induction false} WholeTurnover(es: seq<Entry>, w: Window, ids: set<nat>, side: Side)
    requires WholeCents(es)
    ensures Turnover(es, w, ids, side) % 100 == 0
  {
    if es != [] {
      WholeTurnover(es[..|es|-1], w, ids, side);
      WholeLines(es[|es|-1].lines, ids, side);
      WholeSums(Turnover(es[..|es|-1], w, ids, side), LineSum(es[|es|-1].lines, ids, side));
    }
  }

  lemma WholeSums(x: int, y: int)
    requires x % 100 == 0 && y % 100 == 0
    ensures (x - y) % 100 == 0 && (y - x) % 100 == 0 && (x + y) % 100 == 0
  {
    var a, b := x / 100, y / 100;
    Hundreds(x - y, a - b);
    Hundreds(y - x, b - a);
    Hundreds(x + y, a + b);
  }

  lemma Hundreds(x: int, k: int)
    requires x == 100 * k
    ensures x % 100 == 0
  {
  }

  lemma WholeBalance(b: Book, w: Window, i: nat)
    requires WholeCents(b.entries) && i < |b.accounts|
    ensures BalanceOf(b, w, i).signed % 100 == 0
  {
    WholeTurnover(b.entries, w, {i}, Debit);
    WholeTurnover(b.entries, w, {i}, Credit);
    WholeSums(Turnover(b.entries, w, {i}, Debit), Turnover(b.entries, w, {i}, Credit));
  }

  lemma SumSnoc(rows: seq<AccountBalance>, row: AccountBalance)
    ensures SumSigned(rows + [row]) == SumSigned(rows) + row.signed
  {
    assert (rows + [row])[..|rows|] == rows;
  }

  lemma {:induction false} WholeRows(b: Book, w: Window, types: set<AccountType>, n: nat)
    requires WholeCents(b.entries) && n <= |b.accounts|
    ensures SumSigned(Rows(b, w, types, n)) % 100 == 0
  {
    if n > 0 {
      WholeRows(b, w, types, n - 1);
      WholeBalance(b, w, n - 1);
      SumSnoc(Rows(b, w, types, n - 1), BalanceOf(b, w, n - 1));
      WholeSums(SumSigned(Rows(b, w, types, n - 1)), BalanceOf(b, w, n - 1).signed);
    }
  }

  lemma CentsOfWhole(x: int)
    requires x % 100 == 0
    ensures Cents(x as real) * 100 == x
  {
    var q := x / 100;
    assert x as real / 100.0 == q as real;
  }

  lemma CentsNear(x: real)
    ensures -0.5 <= Cents(x) as real - x / 100.0 <= 0.5
  {
  }

  lemma NearlyEqual(a: int, l: int, e: int)
    requires a == l + e
    ensures -1 <= Cents(a as real) - Cents(l as real) - Cents(e as real) <= 1
    ensures a % 100 == 0 && l % 100 == 0 && e % 100 == 0 ==> Cents(a as real) == Cents(l as real) + Cents(e as real)
  {
    CentsNear(a as real);
    CentsNear(l as real);
    CentsNear(e as real);
    if a % 100 == 0 && l % 100 == 0 && e % 100 == 0 {
      CentsOfWhole(a);
      CentsOfWhole(l);
      CentsOfWhole(e);
    }
  }

  lemma WholeIncome(b: Book, w: Window)
    requires WholeCents(b.entries)
    ensures ProfitAndLossFor(b, w).netIncome % 100 == 0
  {
    var revenue, expenses := Balances(b, w, {AccountType.Revenue}), Balances(b, w, {Expense});
    WholeRows(b, w, {AccountType.Revenue}, |b.accounts|);
    WholeRows(b, w, {Expense}, |b.accounts|);
    WholeSums(SumSigned(revenue), SumSigned(expenses));
  }

  lemma WholeEquity(b: Book, w: Window)
    requires WholeCents(b.entries)
    ensures (SumSigned(Balances(b, w, {AccountType.Equity})) + ProfitAndLossFor(b, w).netIncome) % 100 == 0
  {
    WholeRows(b, w, {AccountType.Equity}, |b.accounts|);
    WholeIncome(b, w);
    WholeSums(SumSigned(Balances(b, w, {AccountType.Equity})), ProfitAndLossFor(b, w).netIncome);
  }

  lemma WholeTotals(b: Book, asOf: int)
    requires WholeCents(b.entries) && BalanceSheetAt(b, asOf).Ok?
    ensures var bs := BalanceSheetAt(b, asOf).value;
            bs.totalAssets % 100 == 0 && bs.totalLiabilities % 100 == 0 && bs.totalEquity % 100 == 0
  {
    var w := Window(None, asOf);
    WholeRows(b, w, {Asset}, |b.accounts|);
    WholeRows(b, w, {Liability}, |b.accounts|);
    WholeEquity(b, w);
  }

  lemma PrintedTotals(b: Book, asOf: int)
    requires BalanceSheetAt(b, asOf).Ok?
    ensures var bs := BalanceSheetAt(b, asOf).value;
            var gap := Cents(bs.totalAssets as real) - Cents(bs.totalLiabilities as real) - Cents(bs.totalEquity as real);
            -1 <= gap <= 1 && (WholeCents(b.entries) ==> gap == 0)
  {
    var bs := BalanceSheetAt(b, asOf).value;
    NearlyEqual(bs.totalAssets, bs.totalLiabilities, bs.totalEquity);
    if WholeCents(b.entries) { WholeTotals(b, asOf); }
  }

  /** The printed assets are the printed liabilities and equity to within a cent, and to the cent in a
      book of whole cents. */
  lemma PrintedSheetBalances(rnd: real -> real, b: Book, asOf: int, r: PresentationRules, prior: Option<BalanceSheet>,
                             sub: Subject, st: Reports)
    requires BookOk(b)
    requires BalanceSheetAt(b, asOf).Ok? ==>
               var p := PresentBalanceSheet(rnd, BalanceSheetAt(b, asOf).value, r, prior);
               p.Ok? ==> st.bs == Some(p.value)
    ensures exists assets, liabilities, equity ::
              && Under(FigureBlock(sub, st), "- Total assets: **", Some([Token(Money, assets)]))
              && Under(FigureBlock(sub, st), "- Total liabilities: **", Some([Token(Money, liabilities)]))
              && Under(FigureBlock(sub, st), "- Total equity: **", Some([Token(Money, equity)]))
              && -1 <= assets - liabilities - equity <= 1
              && (WholeCents(b.entries) ==> assets == liabilities + equity)
  {
    BsSplitKeepsTotals(rnd, b, asOf, r, prior);
    AssetsReadBack(sub, st);
    LiabilitiesReadBack(sub, st);
    EquityReadBack(sub, st);
    PrintedTotals(b, asOf);
  }
}
