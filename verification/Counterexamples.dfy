/** Reachable states on which the code does not do what its documentation says, all over one small book. */
module Counterexamples {
  import opened Accounts
  import opened Ledger
  import opened LedgerRuns
  import opened Statements
  import opened Rules
  import opened Presentation
  import opened ExampleBook
  import opened Rollup
  import TaxWorksheet
  import TaxWorksheetProofs
  import Narrative
  import NarrativeText
  import NarrativeSafety
  import Promotion
  import PromotionProofs

  // ----- the figures of the book -------------------------------------------------------------

  function SideAt(i: nat, side: Side, amount: int): int {
    if (i == 0 && side == Debit) || (i == 3 && side == Credit) then amount else 0
  }

  lemma SaleLines(p: nat, date: int, amount: int, i: nat, side: Side)
    ensures LineSum(Sale(p, date, amount).lines, {i}, side) == SideAt(i, side, amount)
  {
    var ls := Sale(p, date, amount).lines;
    assert ls[..1] == [ls[0]] && [ls[0]][..0] == [];
    assert LineSum([ls[0]], {i}, side) == if i == 0 then Amount(ls[0], side) else 0;
  }

  /** What the two sales put into a window. */
  function Sold(w: Window): int {
    (if Within(10, w) then 1_000_000 else 0) + if Within(40, w) then 21_005_000 else 0
  }

  lemma BookTurnover(c: Codes, w: Window, i: nat, side: Side)
    ensures Turnover(TheBook(c).entries, w, {i}, side) == SideAt(i, side, Sold(w))
  {
    var es := TheBook(c).entries;
    assert es[..1] == [es[0]] && [es[0]][..0] == [];
    SaleLines(0, 10, 1_000_000, i, side);
    SaleLines(1, 40, 21_005_000, i, side);
    assert Turnover([es[0]], w, {i}, side) == if Within(10, w) then SideAt(i, side, 1_000_000) else 0;
  }

  lemma BookAllTurnover(c: Codes, i: nat, side: Side)
    ensures TaxWorksheet.AllTurnover(TheBook(c).entries, {i}, side) == SideAt(i, side, 22_005_000)
  {
    var es := TheBook(c).entries;
    assert es[..1] == [es[0]] && [es[0]][..0] == [];
    SaleLines(0, 10, 1_000_000, i, side);
    SaleLines(1, 40, 21_005_000, i, side);
    assert TaxWorksheet.AllTurnover([es[0]], {i}, side) == SideAt(i, side, 1_000_000);
  }

  function SalesRow(c: Codes, x: int): AccountBalance { AccountBalance(3, c.sales, "", Revenue, 0, x, x) }

  lemma {:induction false} NoRows(b: Book, w: Window, t: AccountType, n: nat)
    requires n <= |b.accounts| && forall i :: 0 <= i < n ==> b.accounts[i].accountType != t
    ensures Rows(b, w, {t}, n) == []
  {
    if n > 0 { NoRows(b, w, t, n - 1); }
  }

  lemma OneRow(b: Book, w: Window, n: nat)
    requires n + 1 == |b.accounts| && b.accounts[n].accountType == Revenue
    requires forall i :: 0 <= i < n ==> b.accounts[i].accountType == Asset
    ensures ProfitAndLossFor(b, w)
         == ProfitAndLoss([BalanceOf(b, w, n)], [], BalanceOf(b, w, n).signed, 0, BalanceOf(b, w, n).signed)
  {
    NoRows(b, w, Revenue, n);
    NoRows(b, w, Expense, n + 1);
    assert Rows(b, w, {Revenue}, n + 1) == [BalanceOf(b, w, n)];
    assert [BalanceOf(b, w, n)][..0] == [];
    assert SumSigned([BalanceOf(b, w, n)]) == SumSigned([BalanceOf(b, w, n)][..0]) + BalanceOf(b, w, n).signed;
  }

  lemma BookPl(c: Codes, w: Window)
    ensures ProfitAndLossFor(TheBook(c), w) == ProfitAndLoss([SalesRow(c, Sold(w))], [], Sold(w), 0, Sold(w))
  {
    BookTurnover(c, w, 3, Debit);
    BookTurnover(c, w, 3, Credit);
    OneRow(TheBook(c), w, 3);
  }

  // ----- the worksheet against the period ------------------------------------------------------

  const SALES_TO_LINE_1A := [TaxWorksheet.Mapping(3, 0, TaxWorksheet.Positive)]
  const ONE_LINE_FORM := [TaxWorksheet.FormLine(0, TaxWorksheet.Code(1, "a"), TaxWorksheet.Income)]

  lemma {:induction false} NothingUnmapped(b: Book, ms: seq<TaxWorksheet.Mapping>, n: nat)
    requires n <= |b.accounts|
    requires forall i: nat :: i < n ==> !TaxWorksheet.InScope(b, i) || TaxWorksheet.Mapped(ms, i)
    ensures TaxWorksheet.Unmapped(b, ms, n) == []
  {
    if n > 0 { NothingUnmapped(b, ms, n - 1); }
  }

  lemma BookActivity(c: Codes)
    ensures TaxWorksheet.Unmapped(TheBook(c), SALES_TO_LINE_1A, 4) == []
    ensures TaxWorksheet.Activity(TheBook(c), 3) == 22_005_000
  {
    var ms := SALES_TO_LINE_1A;
    BookAllTurnover(c, 3, Debit);
    BookAllTurnover(c, 3, Credit);
    assert ms[0].account == 3 && TaxWorksheet.Mapped(ms, 3);
    NothingUnmapped(TheBook(c), ms, 4);
  }

  /** The worksheet of the second period also takes the sale of the first one: taxable income is
      2,200.50 where the period earned 2,100.50. */
  lemma WorksheetMissesNetIncome(c: Codes)
    requires SoundCodes(c)
    ensures Run(Operations(c)) == TheBook(c)
    ensures var b, ms, form := TheBook(c), SALES_TO_LINE_1A, ONE_LINE_FORM;
            && TaxWorksheet.Unmapped(b, ms, |b.accounts|) == []
            && TaxWorksheet.WorksheetOf(TaxWorksheet.RowsOf(ms, TaxWorksheet.Brings(b), form)).taxable == 22_005_000
            && ProfitAndLossFor(b, Window(Some(FEBRUARY.start), FEBRUARY.end)).netIncome == 21_005_000
  {
    var b, ms, form := TheBook(c), SALES_TO_LINE_1A, ONE_LINE_FORM;
    BookIsReachable(c);
    BookActivity(c);
    BookPl(c, Window(Some(FEBRUARY.start), FEBRUARY.end));
    assert form[0].id == 0 && TaxWorksheetProofs.OnForm(form, 0, TaxWorksheet.Income);
    TaxWorksheetProofs.TaxableIsRevenueMinusExpenses(b, ms, form);
    TypeActivity(c);
  }

  lemma {:induction false} NoActivity(b: Book, t: AccountType, n: nat)
    requires n <= |b.accounts| && forall i :: 0 <= i < n ==> b.accounts[i].accountType != t
    ensures TaxWorksheetProofs.ActivityOf(b, t, n) == 0
  {
    if n > 0 { NoActivity(b, t, n - 1); }
  }

  lemma TypeActivity(c: Codes)
    ensures TaxWorksheetProofs.ActivityOf(TheBook(c), Revenue, 4) == 22_005_000
    ensures TaxWorksheetProofs.ActivityOf(TheBook(c), Expense, 4) == 0
  {
    BookActivity(c);
    NoActivity(TheBook(c), Revenue, 3);
    NoActivity(TheBook(c), Expense, 4);
  }

  // ----- a percent that looks like a year -------------------------------------------------------

  /** Decimal division and multiplication do not round numbers this short. */
  ghost predicate KeepsShort(rnd: real -> real) { rnd(20.005) == 20.005 && rnd(2000.5) == 2000.5 }

  const KNOWN: set<int> := {210050, 10000, 200050, 0}

  function Growth(rnd: real -> real): Variance { VarianceOf(rnd, 21_005_000.0, 1_000_000.0) }

  lemma GrowthPct(rnd: real -> real)
    requires KeepsShort(rnd)
    ensures Growth(rnd).pct == Some(Pct(false, 200050)) && Growth(rnd).delta == 20_005_000.0
  {
    assert 20_005_000.0 / 1_000_000.0 == 20.005;
    assert rnd(rnd(20.005) * 100.0) * 100.0 == 200050.0;
  }

  lemma GrowthNumbers(rnd: real -> real)
    requires KeepsShort(rnd)
    ensures Narrative.VarianceNumbers(Some(Growth(rnd))) <= KNOWN
    ensures Narrative.VarianceNumbers(Some(VarianceOf(rnd, 0.0, 0.0))) <= KNOWN
    ensures Narrative.Cents(21_005_000.0) == 210050 && Narrative.Cents(0.0) == 0
  {
    GrowthPct(rnd);
    assert Narrative.Cents(1_000_000.0) == 10000 && Narrative.Cents(20_005_000.0) == 200050;
  }

  lemma KeepOne(row: AccountBalance, p: string -> bool)
    ensures Keep([row], p) == if p(row.code) then [row] else []
  {
    assert [row][..0] == [];
    assert Keep([row][..0], p) == [];
  }

  /** The sales of the second period against the first one. */
  function SalesSection(rnd: real -> real, c: Codes, shown: bool): PresentedSection {
    SectionOf(rnd, if shown then [SalesRow(c, 21_005_000)] else [], Some(map[c.sales := 1_000_000]))
  }

  lemma SectionFigures(rnd: real -> real, c: Codes, shown: bool)
    requires KeepsShort(rnd)
    ensures Narrative.SectionNumbers(SalesSection(rnd, c, shown)) <= KNOWN
  {
    var m := map[c.sales := 1_000_000];
    GrowthNumbers(rnd);
    if shown {
      var row := SalesRow(c, 21_005_000);
      assert [row][..0] == [];
      assert SumSigned([row]) == SumSigned([row][..0]) + 21_005_000;
      assert SumPrior([row], m) == SumPrior([row][..0], m) + 1_000_000;
      var lines := LinesOf(rnd, [row], Some(m));
      assert lines[..0] == [] && Narrative.LineNumbers(lines[..0]) == {};
    }
  }

  function TwoPeriods(rnd: real -> real, c: Codes, r: PresentationRules): PresentedPl {
    var b := TheBook(c);
    PresentProfitAndLoss(rnd, ProfitAndLossFor(b, Window(Some(FEBRUARY.start), FEBRUARY.end)), r,
                         Some(ProfitAndLossFor(b, Window(Some(JANUARY.start), JANUARY.end))))
  }

  lemma TwoPeriodsPl(c: Codes)
    ensures ProfitAndLossFor(TheBook(c), Window(Some(FEBRUARY.start), FEBRUARY.end))
         == ProfitAndLoss([SalesRow(c, 21_005_000)], [], 21_005_000, 0, 21_005_000)
    ensures ProfitAndLossFor(TheBook(c), Window(Some(JANUARY.start), JANUARY.end))
         == ProfitAndLoss([SalesRow(c, 1_000_000)], [], 1_000_000, 0, 1_000_000)
  {
    BookPl(c, Window(Some(FEBRUARY.start), FEBRUARY.end));
    BookPl(c, Window(Some(JANUARY.start), JANUARY.end));
  }

  /** Under any rules the sales are revenue or other income, and nothing else has a line. */
  lemma SplitOfSales(c: Codes, x: int, r: PresentationRules)
    ensures var s := SplitOf(ProfitAndLoss([SalesRow(c, x)], [], x, 0, x), r);
            var other := IsOtherIncome(c.sales, r);
            && s.revenue == (if other then [] else [SalesRow(c, x)])
            && s.otherIncome == (if other then [SalesRow(c, x)] else [])
            && s.cogs == [] && s.operating == [] && s.otherExpense == []
            && Headlines(s) == if other then (0, 0, x) else (x, x, x)
  {
    KeepOne(SalesRow(c, x), OtherIncome(r));
    KeepOne(SalesRow(c, x), NotOtherIncome(r));
    assert [SalesRow(c, x)][..0] == [];
    assert SumSigned([SalesRow(c, x)]) == SumSigned([SalesRow(c, x)][..0]) + x;
  }

  lemma PriorByCode(c: Codes)
    ensures ByCode([SalesRow(c, 1_000_000)] + []) == map[c.sales := 1_000_000]
  {
    assert [SalesRow(c, 1_000_000)] + [] == [SalesRow(c, 1_000_000)];
    assert [SalesRow(c, 1_000_000)][..0] == [];
    assert ByCode([SalesRow(c, 1_000_000)][..0]) == map[];
  }

  lemma TwoPeriodsSections(rnd: real -> real, c: Codes, r: PresentationRules)
    ensures var p, other := TwoPeriods(rnd, c, r), IsOtherIncome(c.sales, r);
            && p.revenue == SalesSection(rnd, c, !other) && p.otherIncome == SalesSection(rnd, c, other)
            && p.cogs == p.operatingExpenses == p.otherExpenses == SalesSection(rnd, c, false)
  {
    TwoPeriodsPl(c);
    SplitOfSales(c, 21_005_000, r);
    PriorByCode(c);
  }

  lemma TwoPeriodsNetIncome(rnd: real -> real, c: Codes, r: PresentationRules)
    ensures TwoPeriods(rnd, c, r).netIncome == 21_005_000.0
    ensures TwoPeriods(rnd, c, r).netIncomeVariance == Some(Growth(rnd))
  {
    TwoPeriodsPl(c);
    SplitOfSales(c, 21_005_000, r);
    SplitOfSales(c, 1_000_000, r);
  }

  lemma TwoPeriodsOperating(rnd: real -> real, c: Codes, r: PresentationRules)
    ensures var p, other := TwoPeriods(rnd, c, r), IsOtherIncome(c.sales, r);
            && p.grossProfit == p.operatingIncome == (if other then 0.0 else 21_005_000.0)
            && p.grossProfitVariance == p.operatingIncomeVariance
               == Some(if other then VarianceOf(rnd, 0.0, 0.0) else Growth(rnd))
  {
    TwoPeriodsPl(c);
    SplitOfSales(c, 21_005_000, r);
    SplitOfSales(c, 1_000_000, r);
  }

  lemma PlFigures(rnd: real -> real, c: Codes, r: PresentationRules)
    requires KeepsShort(rnd)
    ensures Narrative.PlNumbers(TwoPeriods(rnd, c, r)) <= KNOWN
  {
    var p := TwoPeriods(rnd, c, r);
    TwoPeriodsSections(rnd, c, r);
    TwoPeriodsNetIncome(rnd, c, r);
    TwoPeriodsOperating(rnd, c, r);
    SectionFigures(rnd, c, true);
    SectionFigures(rnd, c, false);
    GrowthNumbers(rnd);
    FiguresWithin(p);
  }

  lemma FiguresWithin(p: PresentedPl)
    requires Narrative.SectionNumbers(p.revenue) <= KNOWN && Narrative.SectionNumbers(p.cogs) <= KNOWN
    requires Narrative.SectionNumbers(p.operatingExpenses) <= KNOWN && Narrative.SectionNumbers(p.otherIncome) <= KNOWN
    requires Narrative.SectionNumbers(p.otherExpenses) <= KNOWN
    requires Narrative.Cents(p.grossProfit) in KNOWN && Narrative.Cents(p.operatingIncome) in KNOWN
    requires Narrative.Cents(p.netIncome) in KNOWN
    requires Narrative.VarianceNumbers(p.grossProfitVariance) <= KNOWN
    requires Narrative.VarianceNumbers(p.operatingIncomeVariance) <= KNOWN
    requires Narrative.VarianceNumbers(p.netIncomeVariance) <= KNOWN
    ensures Narrative.PlNumbers(p) <= KNOWN
  {
  }

  lemma NoExpenseLine(rnd: real -> real, c: Codes, r: PresentationRules)
    ensures Narrative.LargestExpenseLine(TwoPeriods(rnd, c, r)) == None
  {
    TwoPeriodsSections(rnd, c, r);
  }

  lemma FiftyIsForeign(allowed: set<int>)
    requires allowed <= KNOWN
    ensures 5000 !in Narrative.Widened(allowed)
  {
  }

  /** Growth of 2000.50% among such figures is misread. */
  lemma GrowthIsMisread(v: Option<Variance>, allowed: set<int>)
    requires allowed <= KNOWN && v.Some? && v.value.pct == Some(Pct(false, 200050))
    ensures !NarrativeSafety.VarianceReads(v, allowed)
  {
    FiftyIsForeign(allowed);
  }

  /** The narrative of the second period, compared with the first one, prints +2000.50%. The check reads
      it as 50.00, which is not an allowed number, whatever the prefix rules. */
  lemma YearLikePercentCanFail(rnd: real -> real, c: Codes, r: PresentationRules, sub: Narrative.Subject, currency: string)
    requires SoundCodes(c) && KeepsShort(rnd) && NarrativeText.Plain(currency)
    requires NarrativeSafety.NeutralSubject(sub)
    ensures Run(Operations(c)) == TheBook(c)
    ensures var st := Narrative.Reports(TwoPeriods(rnd, c, r), None, None);
            !Narrative.Safe(Narrative.Printed(Narrative.Template(sub, st), currency), Narrative.AllowedNumbers(st))
  {
    var st := Narrative.Reports(TwoPeriods(rnd, c, r), None, None);
    BookIsReachable(c);
    TwoPeriodsNetIncome(rnd, c, r);
    PlFigures(rnd, c, r);
    GrowthPct(rnd);
    GrowthIsMisread(st.pl.netIncomeVariance, Narrative.AllowedNumbers(st));
    NoExpenseLine(rnd, c, r);
    NarrativeSafety.MisreadPercentFails(sub, st, currency);
  }

  // ----- a statement that fails as a whole -------------------------------------------------------

  function LedgerOps(ops: seq<Op>): seq<PromotionProofs.Request> {
    if ops == [] then [] else LedgerOps(ops[..|ops|-1]) + [PromotionProofs.LedgerOp(ops[|ops|-1])]
  }

  lemma OneMoreRequest(qs: seq<PromotionProofs.Request>, q: PromotionProofs.Request)
    ensures PromotionProofs.RunDesk(qs + [q]) == PromotionProofs.Serve(PromotionProofs.RunDesk(qs), q)
  {
    assert (qs + [q])[..|qs|] == qs;
  }

  lemma {:induction false} LedgerAlone(ops: seq<Op>)
    ensures PromotionProofs.RunDesk(LedgerOps(ops)) == Promotion.Desk(Run(ops), [])
  {
    if ops != [] {
      LedgerAlone(ops[..|ops|-1]);
      OneMoreRequest(LedgerOps(ops[..|ops|-1]), PromotionProofs.LedgerOp(ops[|ops|-1]));
    }
  }

  /** A deposit coded to sales and a payment coded to the header account. */
  function TwoRows(c: Codes): seq<Promotion.Txn> {
    [Promotion.Txn(c.sales, Some(1.0), Promotion.Deposit, Some(40), false),
     Promotion.Txn(c.header, Some(1.0), Promotion.Payment, Some(41), false)]
  }

  function Submitted(c: Codes): seq<PromotionProofs.Request> {
    LedgerOps(Operations(c)) + [PromotionProofs.Submit(true, TwoRows(c))]
  }

  lemma SubmittedDesk(c: Codes)
    requires SoundCodes(c)
    ensures PromotionProofs.RunDesk(Submitted(c)) == Promotion.Desk(TheBook(c),
      [Promotion.Draft.Draft(Promotion.Pending, true, TwoRows(c), None, [], [])])
  {
    BookIsReachable(c);
    LedgerAlone(Operations(c));
    OneMoreRequest(LedgerOps(Operations(c)), PromotionProofs.Submit(true, TwoRows(c)));
  }

  /** Codes without blanks around them. */
  predicate Stripped(c: Codes) { Promotion.Strip(c.sales) == c.sales && Promotion.Strip(c.header) == c.header }

  lemma ActiveCodes(c: Codes)
    requires SoundCodes(c)
    ensures Promotion.ActiveByCode(Chart(c), 4) == map[c.cash := 0, c.header := 1, c.below := 2, c.sales := 3]
  {
    assert Promotion.ActiveByCode(Chart(c), 1) == map[c.cash := 0];
    assert Promotion.ActiveByCode(Chart(c), 2) == map[c.cash := 0, c.header := 1];
    assert Promotion.ActiveByCode(Chart(c), 3) == map[c.cash := 0, c.header := 1, c.below := 2];
  }

  function TheJob(c: Codes): Promotion.Job {
    Promotion.Job(1, 0, map[c.cash := 0, c.header := 1, c.below := 2, c.sales := 3], map[], TwoRows(c))
  }

  lemma TwoDecisions(c: Codes)
    requires SoundCodes(c) && Stripped(c)
    ensures Promotion.DecisionOf(TheBook(c), TheJob(c), 0) == Promotion.Ready(0, 3, 1.0, 40)
    ensures Promotion.DecisionOf(TheBook(c), TheJob(c), 1) == Promotion.Ready(1, 0, 1.0, 41)
  {
  }

  lemma FirstRowPosts(c: Codes)
    requires SoundCodes(c) && Stripped(c)
    ensures Promotion.PostRows(TheBook(c), TheJob(c), 1).1 == None
  {
    TwoDecisions(c);
    PromotionProofs.RowOutcome(TheBook(c), 1, 40, 0, 3, 1.0);
    assert Promotion.PostRows(TheBook(c), TheJob(c), 0) == (Promotion.Tally(TheBook(c), [], []), None);
  }

  lemma SecondRowRefused(b: Book, d: nat, x: real)
    requires OpenFor(b, 1, 41) && !Postable(b, d) && x > 0.0
    ensures PostSpec(b, 1, 41, TwoLines(d, 0, x)) == (b, Err(InvalidAccount))
  {
    TwoInputTotals(d, 0, x);
    assert TwoLines(d, 0, x)[0].account == d;
  }

  lemma BothRows(c: Codes)
    requires SoundCodes(c) && Stripped(c)
    ensures Promotion.PostRows(TheBook(c), TheJob(c), 2).1 == Some(InvalidAccount)
  {
    var t := Promotion.PostRows(TheBook(c), TheJob(c), 1).0;
    FirstRowPosts(c);
    TwoDecisions(c);
    SecondRowRefused(t.book, 1, 1.0);
  }

  /** On a reachable desk one row coded to a header account fails the whole statement, although the row
      before it would have been posted. */
  lemma OneHeaderRowFailsStatement(c: Codes)
    requires SoundCodes(c) && Stripped(c)
    ensures var d := PromotionProofs.RunDesk(Submitted(c));
            && Promotion.StatementSpec(d, true, 0, 1, c.cash, map[])
               == (d, Err(Promotion.LedgerRefused(InvalidAccount)))
            && Promotion.PostRows(d.book, TheJob(c), 1).1 == None
  {
    SubmittedDesk(c);
    ActiveCodes(c);
    FirstRowPosts(c);
    BothRows(c);
  }
}
