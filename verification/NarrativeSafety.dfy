/** The template narrative passes its own safety check, except when a printed percent
    looks like a year. */
module NarrativeSafety {
  import opened Accounts
  import opened NarrativeText
  import opened NarrativeTextProofs
  import opened NarrativeScan
  import opened Narrative
  import opened Presentation
  import CashFlow

  // ----- report lines as pieces ---------------------------------------------------------

  function PctPiece(p: Option<Pct>): Piece {
    if p.None? then Words("n/a (no prior period)") else Percentage(p.value.negative, p.value.hundredths)
  }

  function Comparison(prior: real, pct: Option<Pct>): seq<Piece> {
    [Amount(Cents(prior))] + ([Words(", ")] + ([PctPiece(pct)] + [Words(")\n")]))
  }

  function PiecesOf(l: ReportLine): seq<Piece> {
    match l
    case Text(r) => [Words(Wording(r) + "\n")]
    case Figure(c, amount) => FigurePieces(Before(c), Cents(amount), After(c))
    case Versus(c, amount, prior, pct) => VersusPieces(Before(c), Cents(amount), After(c), prior, pct)
  }

  function FigurePieces(before: string, cents: int, after: string): seq<Piece> {
    [Words(before)] + ([Amount(cents)] + [Words(after + "\n")])
  }

  function VersusPieces(before: string, cents: int, after: string, prior: real, pct: Option<Pct>): seq<Piece> {
    [Words(before)] + ([Amount(cents)] + ([Words(after + " (vs ")] + Comparison(prior, pct)))
  }

  function AllPieces(ls: seq<ReportLine>): seq<Piece> {
    if ls == [] then [] else AllPieces(ls[..|ls|-1]) + PiecesOf(ls[|ls|-1])
  }

  lemma RenderCons(p: Piece, ps: seq<Piece>, currency: string)
    ensures Render([p] + ps, currency) == Show(p, currency) + Render(ps, currency)
  {
    assert ([p] + ps)[1..] == ps;
  }

  lemma RenderOne(p: Piece, currency: string)
    ensures Render([p], currency) == Show(p, currency)
  {
    assert [p][1..] == [];
  }

  lemma {:induction false} RenderAppend(a: seq<Piece>, b: seq<Piece>, currency: string)
    ensures Render(a + b, currency) == Render(a, currency) + Render(b, currency)
  {
    if a == [] {
      assert a + b == b;
    } else {
      assert (a + b)[1..] == a[1..] + b;
      RenderAppend(a[1..], b, currency);
    }
  }

  lemma ComparisonText(prior: real, pct: Option<Pct>, currency: string)
    ensures Render(Comparison(prior, pct), currency)
         == Fmt(Cents(prior), currency) + (", " + (FmtPctOf(pct) + ")\n"))
  {
    RenderOne(Words(")\n"), currency);
    RenderCons(PctPiece(pct), [Words(")\n")], currency);
    RenderCons(Words(", "), [PctPiece(pct)] + [Words(")\n")], currency);
    RenderCons(Amount(Cents(prior)), [Words(", ")] + ([PctPiece(pct)] + [Words(")\n")]), currency);
  }

  lemma FigureGlue(b: string, f: string, a: string)
    ensures b + (f + (a + "\n")) == b + f + a + "\n"
  {
  }

  lemma VersusGlue(b: string, f: string, a: string, g: string, p: string)
    ensures b + (f + ((a + " (vs ") + (g + (", " + (p + ")\n"))))) == b + f + a + (" (vs " + g + ", " + p + ")") + "\n"
  {
  }

  lemma FigureRendered(before: string, cents: int, after: string, currency: string)
    ensures Render(FigurePieces(before, cents, after), currency) == before + Fmt(cents, currency) + after + "\n"
  {
    RenderOne(Words(after + "\n"), currency);
    RenderCons(Amount(cents), [Words(after + "\n")], currency);
    RenderCons(Words(before), [Amount(cents)] + [Words(after + "\n")], currency);
    FigureGlue(before, Fmt(cents, currency), after);
  }

  lemma VersusRendered(before: string, cents: int, after: string, prior: real, pct: Option<Pct>, currency: string)
    ensures Render(VersusPieces(before, cents, after, prior, pct), currency)
         == before + Fmt(cents, currency) + after
            + (" (vs " + Fmt(Cents(prior), currency) + ", " + FmtPctOf(pct) + ")") + "\n"
  {
    var c, tail := Amount(cents), Comparison(prior, pct);
    ComparisonText(prior, pct, currency);
    RenderCons(Words(after + " (vs "), tail, currency);
    RenderCons(c, [Words(after + " (vs ")] + tail, currency);
    RenderCons(Words(before), [c] + ([Words(after + " (vs ")] + tail), currency);
    VersusGlue(before, Fmt(cents, currency), after, Fmt(Cents(prior), currency), FmtPctOf(pct));
  }

  lemma LineRendered(l: ReportLine, currency: string)
    ensures Render(PiecesOf(l), currency) == PrintLine(l, currency) + "\n"
  {
    match l
    case Text(r) =>
      RenderOne(Words(Wording(r) + "\n"), currency);
    case Figure(c, amount) =>
      FigureRendered(Before(c), Cents(amount), After(c), currency);
    case Versus(c, amount, prior, pct) =>
      VersusRendered(Before(c), Cents(amount), After(c), prior, pct, currency);
  }

  lemma {:induction false} AllRendered(ls: seq<ReportLine>, currency: string)
    ensures Render(AllPieces(ls), currency) == Printed(ls, currency)
  {
    if ls != [] {
      AllRendered(ls[..|ls|-1], currency);
      RenderAppend(AllPieces(ls[..|ls|-1]), PiecesOf(ls[|ls|-1]), currency);
      LineRendered(ls[|ls|-1], currency);
    }
  }

  // ----- neutral lines ---------------------------------------------------------------------

  /** Text around a figure: without marks of its own and clear of the printed one. */
  predicate NeutralAround(before: string, after: string) {
    Plain(before) && Opens(before) && Plain(after) && AfterMoney(after)
  }

  predicate NeutralLine(l: ReportLine) {
    if l.Text? then Plain(Wording(l.remark)) else NeutralAround(Before(l.caption), After(l.caption))
  }

  lemma NewlineCloses(s: string)
    ensures Opens(s + "\n") && (Plain(s) ==> Plain(s + "\n")) && (AfterMoney(s) ==> AfterMoney(s + "\n"))
  {
    var t := s + "\n";
    assert t[|t|-1] == '\n';
    assert s != "" ==> t[0] == s[0];
  }

  lemma NoPriorPlain()
    ensures Plain("n/a (no prior period)")
  {
  }

  lemma NoPriorOpens()
    ensures Opens("n/a (no prior period)")
  {
    var s := "n/a (no prior period)";
    assert |s| == 21 && s[20] == ')';
  }

  lemma PctPieceFits(pct: Option<Pct>, rest: seq<Piece>)
    requires rest != [] && rest[0].Words?
    ensures Fits(PctPiece(pct), rest)
  {
    if pct.None? {
      NoPriorPlain();
      NoPriorOpens();
    }
  }

  lemma ComparisonFits(prior: real, pct: Option<Pct>)
    ensures WellFormed(Comparison(prior, pct)) && Closed(Comparison(prior, pct))
  {
    var last := [Words(")\n")];
    assert last[1..] == [] && Fits(last[0], []) && WellFormed([]);
    assert WellFormed(last);
    PctPieceFits(pct, last);
    Chain(PctPiece(pct), last);
    Chain(Words(", "), [PctPiece(pct)] + last);
    Chain(Amount(Cents(prior)), [Words(", ")] + ([PctPiece(pct)] + last));
  }

  lemma FigureFits(before: string, cents: int, after: string)
    requires NeutralAround(before, after)
    ensures WellFormed(FigurePieces(before, cents, after)) && Closed(FigurePieces(before, cents, after))
  {
    NewlineCloses(after);
    assert [Words(after + "\n")][1..] == [];
    Chain(Amount(cents), [Words(after + "\n")]);
    Chain(Words(before), [Amount(cents)] + [Words(after + "\n")]);
  }

  lemma VersusFits(before: string, cents: int, after: string, prior: real, pct: Option<Pct>)
    requires NeutralAround(before, after)
    ensures WellFormed(VersusPieces(before, cents, after, prior, pct))
    ensures Closed(VersusPieces(before, cents, after, prior, pct))
  {
    var middle, tail := after + " (vs ", Comparison(prior, pct);
    ComparisonFits(prior, pct);
    assert middle[|middle|-1] == ' ' && (after != "" ==> middle[0] == after[0]);
    Chain(Words(middle), tail);
    Chain(Amount(cents), [Words(middle)] + tail);
    Chain(Words(before), [Amount(cents)] + ([Words(middle)] + tail));
  }

  lemma LineFits(l: ReportLine)
    requires NeutralLine(l)
    ensures WellFormed(PiecesOf(l)) && Closed(PiecesOf(l))
  {
    match l
    case Text(r) =>
      NewlineCloses(Wording(r));
      assert [Words(Wording(r) + "\n")][1..] == [];
    case Figure(c, amount) =>
      FigureFits(Before(c), Cents(amount), After(c));
    case Versus(c, amount, prior, pct) =>
      VersusFits(Before(c), Cents(amount), After(c), prior, pct);
  }

  lemma {:induction false} AllFit(ls: seq<ReportLine>)
    requires forall l :: l in ls ==> NeutralLine(l)
    ensures WellFormed(AllPieces(ls)) && Closed(AllPieces(ls))
  {
    if ls != [] {
      AllFit(ls[..|ls|-1]);
      LineFits(ls[|ls|-1]);
      WellFormedJoin(AllPieces(ls[..|ls|-1]), PiecesOf(ls[|ls|-1]));
    }
  }

  // ----- known figures -----------------------------------------------------------------------

  /** Every figure the line prints is an allowed number. */
  predicate KnownLine(l: ReportLine, allowed: set<int>) {
    match l
    case Text(_) => true
    case Figure(_, amount) => Cents(amount) in allowed
    case Versus(_, amount, prior, pct) =>
      Cents(amount) in allowed && Cents(prior) in allowed && (pct.Some? ==> PctCents(pct.value) in allowed)
  }

  /** A percent that the scanner reads as an allowed number. */
  predicate ReadsAllowed(p: Pct, allowed: set<int>) {
    YearLike(p.hundredths) ==> p.hundredths % 100 * 100 in Widened(allowed)
  }

  predicate LineReadsAllowed(l: ReportLine, allowed: set<int>) {
    l.Versus? && l.pct.Some? ==> ReadsAllowed(l.pct.value, allowed)
  }

  predicate PieceReads(p: Piece, allowed: set<int>) {
    match p
    case Words(_) => true
    case Amount(c) => c in Widened(allowed)
    case Percentage(n, h) => ScannedPct(n, h) in Widened(allowed)
  }

  predicate AllReadable(ps: seq<Piece>, allowed: set<int>) {
    forall p :: p in ps ==> PieceReads(p, allowed)
  }

  predicate AmountsReadable(ps: seq<Piece>, allowed: set<int>) {
    forall p :: p in ps && p.Amount? ==> PieceReads(p, allowed)
  }

  lemma ReadableCons(p: Piece, ps: seq<Piece>, allowed: set<int>)
    ensures AllReadable([p] + ps, allowed) <==> PieceReads(p, allowed) && AllReadable(ps, allowed)
    ensures AmountsReadable([p] + ps, allowed) <==> (p.Amount? ==> PieceReads(p, allowed)) && AmountsReadable(ps, allowed)
  {
    assert p in [p] + ps;
    assert forall q :: q in ps ==> q in [p] + ps;
  }

  lemma FigureReads(before: string, cents: int, after: string, allowed: set<int>)
    requires cents in allowed
    ensures AllReadable(FigurePieces(before, cents, after), allowed)
    ensures AmountsReadable(FigurePieces(before, cents, after), allowed)
  {
    ReadableCons(Amount(cents), [Words(after + "\n")], allowed);
    ReadableCons(Words(before), [Amount(cents)] + [Words(after + "\n")], allowed);
  }

  lemma VersusReads(before: string, cents: int, after: string, prior: real, pct: Option<Pct>, allowed: set<int>)
    requires cents in allowed && Cents(prior) in allowed && (pct.Some? ==> PctCents(pct.value) in allowed)
    ensures AllReadable(VersusPieces(before, cents, after, prior, pct), allowed)
       <==> (pct.Some? ==> ReadsAllowed(pct.value, allowed))
    ensures AmountsReadable(VersusPieces(before, cents, after, prior, pct), allowed)
  {
    var tail := [Words(after + " (vs ")] + Comparison(prior, pct);
    ComparisonReads(prior, pct, allowed);
    ReadableCons(Words(after + " (vs "), Comparison(prior, pct), allowed);
    ReadableCons(Amount(cents), tail, allowed);
    ReadableCons(Words(before), [Amount(cents)] + tail, allowed);
  }

  lemma LineReads(l: ReportLine, allowed: set<int>)
    requires KnownLine(l, allowed)
    ensures AllReadable(PiecesOf(l), allowed) <==> LineReadsAllowed(l, allowed)
    ensures AmountsReadable(PiecesOf(l), allowed)
  {
    match l
    case Text(_) =>
    case Figure(c, amount) =>
      FigureReads(Before(c), Cents(amount), After(c), allowed);
    case Versus(c, amount, prior, pct) =>
      VersusReads(Before(c), Cents(amount), After(c), prior, pct, allowed);
  }

  lemma ComparisonReads(prior: real, pct: Option<Pct>, allowed: set<int>)
    requires Cents(prior) in allowed && (pct.Some? ==> PctCents(pct.value) in allowed)
    ensures AllReadable(Comparison(prior, pct), allowed) <==> (pct.Some? ==> ReadsAllowed(pct.value, allowed))
    ensures AmountsReadable(Comparison(prior, pct), allowed)
  {
    var last := [Words(")\n")];
    ReadableCons(PctPiece(pct), last, allowed);
    ReadableCons(Words(", "), [PctPiece(pct)] + last, allowed);
    ReadableCons(Amount(Cents(prior)), [Words(", ")] + ([PctPiece(pct)] + last), allowed);
  }

  lemma {:induction false} AllRead(ls: seq<ReportLine>, allowed: set<int>)
    requires forall l :: l in ls ==> KnownLine(l, allowed)
    ensures AllReadable(AllPieces(ls), allowed) <==> forall l :: l in ls ==> LineReadsAllowed(l, allowed)
    ensures AmountsReadable(AllPieces(ls), allowed)
  {
    if ls != [] {
      var init, last := ls[..|ls|-1], ls[|ls|-1];
      AllRead(init, allowed);
      LineReads(last, allowed);
      assert forall l :: l in ls <==> l in init || l == last;
      assert forall p :: p in AllPieces(ls) <==> p in AllPieces(init) || p in PiecesOf(last);
    }
  }

  /** What a scan of the pieces finds. */
  function Tokens(ps: seq<Piece>, currency: string): seq<Token> {
    PctTokens(ps) + if currency == "USD" then AmountTokens(ps) else []
  }

  predicate TokenReads(t: Token, allowed: set<int>) { t.cents in Widened(allowed) }

  lemma {:induction false} PctTokensRead(ps: seq<Piece>, allowed: set<int>)
    ensures (forall t :: t in PctTokens(ps) ==> TokenReads(t, allowed))
       <==> (forall p :: p in ps && p.Percentage? ==> PieceReads(p, allowed))
  {
    if ps != [] {
      var p0 := ps[0];
      PctTokensRead(ps[1..], allowed);
      assert forall p :: p in ps <==> p == p0 || p in ps[1..];
      if p0.Percentage? {
        var t0 := Token(Percent, ScannedPct(p0.negative, p0.hundredths));
        assert t0 in PctTokens(ps) && (TokenReads(t0, allowed) <==> PieceReads(p0, allowed));
        assert forall t :: t in PctTokens(ps) <==> t == t0 || t in PctTokens(ps[1..]);
      }
    }
  }

  lemma {:induction false} AmountTokensRead(ps: seq<Piece>, allowed: set<int>)
    requires AmountsReadable(ps, allowed)
    ensures forall t :: t in AmountTokens(ps) ==> TokenReads(t, allowed)
  {
    if ps != [] {
      AmountTokensRead(ps[1..], allowed);
      assert ps[0] in ps;
    }
  }

  /** A neutral report over allowed figures is safe exactly when no year-like percent is misread
      as a foreign number. */
  lemma ReportSafety(ls: seq<ReportLine>, currency: string, allowed: set<int>)
    requires Plain(currency)
    requires forall l :: l in ls ==> NeutralLine(l) && KnownLine(l, allowed)
    ensures Safe(Printed(ls, currency), allowed) <==> forall l :: l in ls ==> LineReadsAllowed(l, allowed)
  {
    var ps := AllPieces(ls);
    AllRendered(ls, currency);
    AllFit(ls);
    ScanIsExact(ps, currency);
    AllRead(ls, allowed);
    PctTokensRead(ps, allowed);
    AmountTokensRead(ps, allowed);
    assert Safe(Printed(ls, currency), allowed) <==> forall t :: t in Tokens(ps, currency) ==> TokenReads(t, allowed);
    assert forall p :: p in ps && p.Words? ==> PieceReads(p, allowed);
    assert forall t :: t in PctTokens(ps) ==> t in Tokens(ps, currency);
  }

  // ----- the template ---------------------------------------------------------------------------

  predicate AllPlain(texts: seq<string>) { forall t :: t in texts ==> Plain(t) }

  /** No free text carries a dollar or percent mark: the client's name, the period labels, the
      account behind the largest expense, the assumptions. */
  predicate NeutralInputs(sub: Subject, pl: PresentedPl) {
    && NeutralSubject(sub)
    && (LargestExpenseLine(pl).Some? ==>
          Plain(LargestExpenseLine(pl).value.code) && Plain(LargestExpenseLine(pl).value.name))
  }

  predicate NeutralSubject(sub: Subject) {
    && Plain(sub.client) && Plain(sub.start) && Plain(sub.end) && Plain(sub.asOf)
    && (sub.prior.Some? ==> Plain(sub.prior.value.0) && Plain(sub.prior.value.1))
    && AllPlain(sub.plAssumptions) && AllPlain(sub.cfAssumptions)
  }

  lemma PlainJoin(a: string, b: string)
    requires Plain(a) && Plain(b)
    ensures Plain(a + b)
  {
  }

  predicate NeutralRemark(r: Remark) {
    match r
    case Title(client) => Plain(client)
    case Period(start, end, prior) =>
      Plain(start) && Plain(end) && (prior.Some? ==> Plain(prior.value.0) && Plain(prior.value.1))
    case AsOf(date) => Plain(date)
    case Note(text) => Plain(text)
    case _ => true
  }

  lemma PeriodPlain(start: string, end: string, prior: Option<(string, string)>)
    requires Plain(start) && Plain(end) && (prior.Some? ==> Plain(prior.value.0) && Plain(prior.value.1))
    ensures Plain(PeriodLabel(start, end, prior))
  {
    assert Plain("For the period ") && Plain(" to ") && Plain(" (compared with ") && Plain(")");
  }

  lemma HeadingsPlain()
    ensures Plain(Wording(PlHeading)) && Plain(Wording(BsHeading)) && Plain(Wording(CfHeading))
  {
  }

  lemma NotesPlain()
    ensures Plain(Wording(NotesHeading))
  {
  }

  lemma BalanceCheckPlain()
    ensures Plain(Wording(BalanceCheck))
  {
  }

  lemma TitlePlain(client: string)
    requires Plain(client)
    ensures Plain(Wording(Title(client)))
  {
    PlainJoin("# Financial summary \U{2014} ", client);
  }

  lemma RemarkPlain(r: Remark)
    requires NeutralRemark(r)
    ensures Plain(Wording(r))
  {
    match r
    case Title(client) =>
      TitlePlain(client);
    case Period(start, end, prior) =>
      PeriodPlain(start, end, prior);
      PlainJoin("_", PeriodLabel(start, end, prior));
      PlainJoin("_" + PeriodLabel(start, end, prior), "_\n");
    case AsOf(date) =>
      PlainJoin("_As of ", date);
      PlainJoin("_As of " + date, "_\n");
    case Note(text) =>
      PlainJoin("- ", text);
    case NotesHeading =>
      NotesPlain();
    case BalanceCheck =>
      BalanceCheckPlain();
    case _ =>
      HeadingsPlain();
  }

  predicate NeutralCaption(c: Caption) { c.LargestExpense? ==> Plain(c.code) && Plain(c.name) }

  lemma EndsLike(a: string, b: string)
    requires Opens(b)
    ensures Opens(a + b)
  {
    assert (a + b)[|a + b|-1] == b[|b|-1];
  }

  lemma LargestNeutral(code: string, name: string)
    requires Plain(code) && Plain(name)
    ensures Plain(Before(LargestExpense(code, name))) && Opens(Before(LargestExpense(code, name)))
  {
    var a, b, c := "\nThe largest expense in the period was ", " \U{2014} ", " at ";
    assert Plain(a) && Plain(b) && Plain(c);
    PlainJoin(a, code);
    PlainJoin(a + code, b);
    PlainJoin(a + code + b, name);
    PlainJoin(a + code + b + name, c);
    EndsLike(a + code + b + name, c);
  }

  predicate Label(s: string) { Plain(s) && Opens(s) }

  lemma PlLabels()
    ensures Label(Before(Caption.Revenue)) && Label(Before(CostOfGoodsSold)) && Label(Before(GrossProfit))
  {
  }

  lemma OperatingLabels()
    ensures Label(Before(OperatingExpenses)) && Label(Before(OperatingIncome))
  {
  }

  lemma OtherLabels()
    ensures Label(Before(Caption.OtherIncome)) && Label(Before(OtherExpenses)) && Label(Before(NetIncome))
  {
  }

  lemma TotalLabels()
    ensures Label(Before(TotalAssets)) && Label(Before(TotalLiabilities))
  {
  }

  lemma EquityLabels()
    ensures Label(Before(RetainedEarnings)) && Label(Before(TotalEquity))
  {
  }

  lemma CashLabels()
    ensures Label(Before(OpeningCash)) && Label(Before(ClosingCash))
  {
  }

  lemma NetChangeLabel()
    ensures Label(Before(NetChange))
  {
  }

  lemma SectionLabel(name: string)
    requires Plain(name)
    ensures Label("- " + name + ": **")
  {
    PlainJoin("- ", name);
    PlainJoin("- " + name, ": **");
    EndsLike("- " + name, ": **");
  }

  lemma FromOperatingLabel()
    ensures Label(Before(FromOperating))
  {
    SectionLabel("Cash from Operating Activities");
  }

  lemma FromInvestingLabel()
    ensures Label(Before(FromInvesting))
  {
    SectionLabel("Cash from Investing Activities");
  }

  lemma FromFinancingLabel()
    ensures Label(Before(FromFinancing))
  {
    SectionLabel("Cash from Financing Activities");
  }

  lemma AfterNeutral(c: Caption)
    ensures Plain(After(c)) && AfterMoney(After(c))
  {
  }

  lemma CaptionNeutral(c: Caption)
    requires NeutralCaption(c)
    ensures NeutralAround(Before(c), After(c))
  {
    AfterNeutral(c);
    assert Label(Before(c)) by {
      match c
      case LargestExpense(code, name) => LargestNeutral(code, name);
      case TotalAssets | TotalLiabilities => TotalLabels();
      case RetainedEarnings | TotalEquity => EquityLabels();
      case OpeningCash | ClosingCash => CashLabels();
      case NetChange => NetChangeLabel();
      case FromOperating => FromOperatingLabel();
      case FromInvesting => FromInvestingLabel();
      case FromFinancing => FromFinancingLabel();
      case OperatingExpenses | OperatingIncome => OperatingLabels();
      case OtherIncome | OtherExpenses | NetIncome => OtherLabels();
      case _ => PlLabels();
    }
  }

  // ----- every line of the template is neutral and known ---------------------------------------

  /** What is asked of a line, with the text it prints kept out of sight. */
  ghost predicate Accepts(ok: ReportLine -> bool, allowed: set<int>) {
    && (forall r: Remark {:trigger ok(Text(r))} :: NeutralRemark(r) ==> ok(Text(r)))
    && (forall c: Caption, amount: real {:trigger ok(Figure(c, amount))} ::
          NeutralCaption(c) && Cents(amount) in allowed ==> ok(Figure(c, amount)))
    && (forall c: Caption, amount: real, v: Option<Variance> {:trigger Compared(c, amount, v)} ::
          NeutralCaption(c) && Cents(amount) in allowed && VarianceNumbers(v) <= allowed ==> ok(Compared(c, amount, v)))
  }

  predicate All(ls: seq<ReportLine>, ok: ReportLine -> bool) { forall l :: l in ls ==> ok(l) }

  lemma {:induction false} LineNumbersHave(ls: seq<PresentedLine>, l: PresentedLine)
    requires l in ls
    ensures Cents(l.amount) in LineNumbers(ls)
  {
    if l != ls[|ls|-1] {
      assert l in ls[..|ls|-1];
      LineNumbersHave(ls[..|ls|-1], l);
    }
  }

  lemma RevenueAccepted(pl: PresentedPl, allowed: set<int>, ok: ReportLine -> bool)
    requires Accepts(ok, allowed) && PlNumbers(pl) <= allowed
    ensures All([RevenueLine(pl)], ok) && All([NetIncomeLine(pl)], ok)
  {
  }

  lemma MiddleAccepted(pl: PresentedPl, allowed: set<int>, ok: ReportLine -> bool)
    requires Accepts(ok, allowed) && PlNumbers(pl) <= allowed
    ensures All(CogsLines(pl), ok)
    ensures All([Figure(OperatingExpenses, pl.operatingExpenses.subtotal), Figure(OperatingIncome, pl.operatingIncome)], ok)
    ensures All(OtherLine(Caption.OtherIncome, pl.otherIncome), ok) && All(OtherLine(OtherExpenses, pl.otherExpenses), ok)
  {
  }

  lemma PlAccepted(pl: PresentedPl, allowed: set<int>, ok: ReportLine -> bool)
    requires Accepts(ok, allowed) && PlNumbers(pl) <= allowed
    ensures All(PlLines(pl), ok)
  {
    RevenueAccepted(pl, allowed, ok);
    MiddleAccepted(pl, allowed, ok);
  }

  lemma LargestAccepted(sub: Subject, pl: PresentedPl, allowed: set<int>, ok: ReportLine -> bool)
    requires NeutralInputs(sub, pl) && PlNumbers(pl) <= allowed && Accepts(ok, allowed)
    ensures All(LargestLines(pl), ok)
  {
    var largest := LargestExpenseLine(pl);
    if largest.Some? {
      var l := largest.value;
      if l in pl.operatingExpenses.lines {
        LineNumbersHave(pl.operatingExpenses.lines, l);
      } else if l in pl.cogs.lines {
        LineNumbersHave(pl.cogs.lines, l);
      } else {
        LineNumbersHave(pl.otherExpenses.lines, l);
      }
    }
  }

  lemma BsAccepted(bs: PresentedBs, asOf: string, allowed: set<int>, ok: ReportLine -> bool)
    requires BsNumbers(bs) <= allowed && Plain(asOf) && Accepts(ok, allowed)
    ensures All(BsLines(bs, asOf), ok)
  {
  }

  lemma CfAccepted(cf: CashFlow.PresentedCashFlow, allowed: set<int>, ok: ReportLine -> bool)
    requires CfNumbers(cf) <= allowed && Accepts(ok, allowed)
    ensures All(CfLines(cf), ok)
  {
  }

  lemma NotesAccepted(notes: seq<string>, allowed: set<int>, ok: ReportLine -> bool)
    requires AllPlain(notes) && Accepts(ok, allowed)
    ensures All(Bullets(notes), ok)
  {
  }

  lemma AllJoin(a: seq<ReportLine>, b: seq<ReportLine>, ok: ReportLine -> bool)
    requires All(a, ok) && All(b, ok)
    ensures All(a + b, ok)
  {
  }

  lemma OpeningAccepted(sub: Subject, allowed: set<int>, ok: ReportLine -> bool)
    requires Plain(sub.client) && Plain(sub.start) && Plain(sub.end) && Accepts(ok, allowed)
    requires sub.prior.Some? ==> Plain(sub.prior.value.0) && Plain(sub.prior.value.1)
    ensures All(OpeningLines(sub), ok)
  {
  }

  lemma FiguresAccepted(sub: Subject, st: Reports, allowed: set<int>, ok: ReportLine -> bool)
    requires NeutralInputs(sub, st.pl) && Accepts(ok, allowed) && AllowedNumbers(st) <= allowed
    ensures All(FigureBlock(sub, st), ok)
  {
    OpeningAccepted(sub, allowed, ok);
    PlAccepted(st.pl, allowed, ok);
    LargestAccepted(sub, st.pl, allowed, ok);
    if st.bs.Some? { BsAccepted(st.bs.value, sub.asOf, allowed, ok); }
    if st.cf.Some? { CfAccepted(st.cf.value, allowed, ok); }
    var a, p, l := OpeningLines(sub), PlLines(st.pl), LargestLines(st.pl);
    AllJoin(a, p, ok);
    AllJoin(a + p, l, ok);
    AllJoin(a + p + l, BsBlock(sub, st), ok);
    AllJoin(a + p + l + BsBlock(sub, st), CfBlock(st), ok);
  }

  lemma TemplateAccepted(sub: Subject, st: Reports, allowed: set<int>, ok: ReportLine -> bool)
    requires NeutralInputs(sub, st.pl) && Accepts(ok, allowed) && AllowedNumbers(st) <= allowed
    ensures All(Template(sub, st), ok)
  {
    FiguresAccepted(sub, st, allowed, ok);
    NotesAccepted(sub.plAssumptions, allowed, ok);
    NotesAccepted(sub.cfAssumptions, allowed, ok);
    assert All(NoteBlock(sub, st), ok);
  }

  function Reportable(allowed: set<int>): ReportLine -> bool { l => NeutralLine(l) && KnownLine(l, allowed) }

  lemma ReportableAccepts(allowed: set<int>)
    ensures Accepts(Reportable(allowed), allowed)
  {
    var ok := Reportable(allowed);
    forall r: Remark | NeutralRemark(r) ensures ok(Text(r)) {
      RemarkPlain(r);
    }
    forall c: Caption, amount: real | NeutralCaption(c) && Cents(amount) in allowed ensures ok(Figure(c, amount)) {
      CaptionNeutral(c);
    }
    forall c: Caption, amount: real, v: Option<Variance>
      | NeutralCaption(c) && Cents(amount) in allowed && VarianceNumbers(v) <= allowed
      ensures ok(Compared(c, amount, v))
    {
      CaptionNeutral(c);
      if v.Some? {
        assert Cents(v.value.prior) in VarianceNumbers(v);
        assert v.value.pct.Some? ==> PctCents(v.value.pct.value) in VarianceNumbers(v);
      }
    }
  }

  // ----- the guarantee ------------------------------------------------------------------------------

  predicate VarianceReads(v: Option<Variance>, allowed: set<int>) {
    v.Some? && v.value.pct.Some? ==> ReadsAllowed(v.value.pct.value, allowed)
  }

  /** The two percents that the template prints scan as allowed numbers. */
  predicate PrintedPctsRead(st: Reports) {
    VarianceReads(st.pl.revenue.variance, AllowedNumbers(st)) && VarianceReads(st.pl.netIncomeVariance, AllowedNumbers(st))
  }

  lemma TemplatePercents(sub: Subject, st: Reports, allowed: set<int>)
    ensures (forall l :: l in Template(sub, st) ==> LineReadsAllowed(l, allowed))
       <==> VarianceReads(st.pl.revenue.variance, allowed) && VarianceReads(st.pl.netIncomeVariance, allowed)
  {
    assert PlLines(st.pl)[0] == RevenueLine(st.pl);
    assert PlLines(st.pl)[|PlLines(st.pl)| - 1] == NetIncomeLine(st.pl);
    assert RevenueLine(st.pl) in Template(sub, st) && NetIncomeLine(st.pl) in Template(sub, st);
    forall l | l in Template(sub, st) && l.Versus? ensures l == RevenueLine(st.pl) || l == NetIncomeLine(st.pl) {
      OnlyTwoCompared(sub, st, l);
    }
  }

  predicate NoVersus(ls: seq<ReportLine>) { forall l :: l in ls ==> !l.Versus? }

  lemma OthersNotCompared(sub: Subject, st: Reports)
    ensures NoVersus(OpeningLines(sub)) && NoVersus(LargestLines(st.pl))
    ensures NoVersus(BsBlock(sub, st)) && NoVersus(CfBlock(st)) && NoVersus(NoteBlock(sub, st))
  {
  }

  lemma TwoOfPlCompared(pl: PresentedPl, l: ReportLine)
    requires l in PlLines(pl) && l.Versus?
    ensures l == RevenueLine(pl) || l == NetIncomeLine(pl)
  {
  }

  lemma OnlyTwoCompared(sub: Subject, st: Reports, l: ReportLine)
    requires l in Template(sub, st) && l.Versus?
    ensures l == RevenueLine(st.pl) || l == NetIncomeLine(st.pl)
  {
    OthersNotCompared(sub, st);
    assert l in PlLines(st.pl);
    TwoOfPlCompared(st.pl, l);
  }

  /** The template passes its own check exactly when neither printed percent is a year-like one
      whose two decimals, read as whole percents, are not an allowed number. */
  lemma TemplateSafeExactly(sub: Subject, st: Reports, currency: string)
    requires NeutralInputs(sub, st.pl) && Plain(currency)
    ensures Safe(Printed(Template(sub, st), currency), AllowedNumbers(st)) <==> PrintedPctsRead(st)
  {
    var allowed := AllowedNumbers(st);
    ReportableAccepts(allowed);
    TemplateAccepted(sub, st, allowed, Reportable(allowed));
    ReportSafety(Template(sub, st), currency, allowed);
    TemplatePercents(sub, st, allowed);
  }

  /** A misread comparative of net income is enough to fail. */
  lemma MisreadPercentFails(sub: Subject, st: Reports, currency: string)
    requires NeutralInputs(sub, st.pl) && Plain(currency)
    requires !VarianceReads(st.pl.netIncomeVariance, AllowedNumbers(st))
    ensures !Safe(Printed(Template(sub, st), currency), AllowedNumbers(st))
  {
    TemplateSafeExactly(sub, st, currency);
  }

  predicate YearLikePct(v: Option<Variance>) {
    v.Some? && v.value.pct.Some? && YearLike(v.value.pct.value.hundredths)
  }

  /** The promise of the template: without a percent from 1900 to 2099 it always passes, so the
      self-check failure cannot be raised, whatever the pluggable writer returned. */
  lemma TemplateAlwaysSafe(sub: Subject, st: Reports, currency: string)
    requires NeutralInputs(sub, st.pl) && Plain(currency)
    requires !YearLikePct(st.pl.revenue.variance) && !YearLikePct(st.pl.netIncomeVariance)
    ensures Safe(Printed(Template(sub, st), currency), AllowedNumbers(st))
  {
    TemplateSafeExactly(sub, st, currency);
  }
}
