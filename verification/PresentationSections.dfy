/** Which rows each presented section holds, by their codes, and what its figures are. */
module PresentationSections {
  import opened Accounts
  import opened Statements
  import opened Rules
  import opened Presentation

  function LineTotal(ls: seq<PresentedLine>): real {
    if ls == [] then 0.0 else LineTotal(ls[..|ls|-1]) + ls[|ls|-1].amount
  }

  /** The lines are the rows at the positions `at`, which are in order and those of the wanted codes. */
  ghost predicate Shows(ls: seq<PresentedLine>, rows: seq<AccountBalance>, wanted: string -> bool, at: seq<int>) {
    && |at| == |ls|
    && (forall m :: 0 <= m < |at| ==> 0 <= at[m] < |rows|)
    && (forall l, m :: 0 <= l < m < |at| ==> at[l] < at[m])
    && (forall k :: 0 <= k < |rows| ==> (wanted(rows[k].code) <==> k in at))
    && forall m :: 0 <= m < |at| ==>
         ls[m].code == rows[at[m]].code && ls[m].name == rows[at[m]].name && ls[m].amount == rows[at[m]].signed as real
  }

  /** The section holds exactly the rows of the wanted codes, in order, and their total. */
  ghost predicate Holds(s: PresentedSection, rows: seq<AccountBalance>, wanted: string -> bool) {
    && (exists at :: Shows(s.lines, rows, wanted, at))
    && s.subtotal == LineTotal(s.lines)
  }

  lemma Extends(ls: seq<PresentedLine>, rows: seq<AccountBalance>, wanted: string -> bool, at: seq<int>,
                row: AccountBalance, l: PresentedLine)
    requires Shows(ls, rows, wanted, at)
    requires l.code == row.code && l.name == row.name && l.amount == row.signed as real
    ensures wanted(row.code) ==> Shows(ls + [l], rows + [row], wanted, at + [|rows|])
    ensures !wanted(row.code) ==> Shows(ls, rows + [row], wanted, at)
  {
    var now, n := rows + [row], |rows|;
    forall k | 0 <= k <= n
      ensures wanted(row.code) ==> (wanted(now[k].code) <==> k in at + [n])
      ensures !wanted(row.code) ==> (wanted(now[k].code) <==> k in at)
    {
      if k < n { assert now[k] == rows[k]; }
      assert n !in at;
    }
  }

  lemma LinesSnoc(rnd: real -> real, rows: seq<AccountBalance>, row: AccountBalance, prior: Option<map<string, int>>)
    ensures LinesOf(rnd, rows + [row], prior) == LinesOf(rnd, rows, prior) + [LineOf(rnd, row, prior)]
    ensures SumSigned(rows + [row]) == SumSigned(rows) + row.signed
    ensures LineTotal(LinesOf(rnd, rows + [row], prior)) == LineTotal(LinesOf(rnd, rows, prior)) + row.signed as real
  {
    var ls := LinesOf(rnd, rows, prior);
    assert (rows + [row])[..|rows|] == rows;
    assert LinesOf(rnd, rows + [row], prior) == ls + [LineOf(rnd, row, prior)];
    assert (ls + [LineOf(rnd, row, prior)])[..|ls|] == ls;
  }

  lemma KeptRow(rnd: real -> real, rows: seq<AccountBalance>, row: AccountBalance, p: string -> bool,
                prior: Option<map<string, int>>, was: seq<AccountBalance>, at: seq<int>)
    requires Shows(LinesOf(rnd, was, prior), rows, p, at)
    ensures p(row.code) ==> Shows(LinesOf(rnd, was + [row], prior), rows + [row], p, at + [|rows|])
    ensures !p(row.code) ==> Shows(LinesOf(rnd, was, prior), rows + [row], p, at)
  {
    Extends(LinesOf(rnd, was, prior), rows, p, at, row, LineOf(rnd, row, prior));
    LinesSnoc(rnd, was, row, prior);
  }

  lemma {:induction false} KeptRows(rnd: real -> real, rows: seq<AccountBalance>, p: string -> bool,
                                    prior: Option<map<string, int>>) returns (at: seq<int>)
    ensures Shows(LinesOf(rnd, Keep(rows, p), prior), rows, p, at)
  {
    if rows == [] {
      at := [];
    } else {
      var n := |rows| - 1;
      at := KeptRows(rnd, rows[..n], p, prior);
      KeptRow(rnd, rows[..n], rows[n], p, prior, Keep(rows[..n], p), at);
      assert rows[..n] + [rows[n]] == rows;
      if p(rows[n].code) { at := at + [n]; }
    }
  }

  lemma {:induction false} LineTotals(rnd: real -> real, rows: seq<AccountBalance>, prior: Option<map<string, int>>)
    ensures SumSigned(rows) as real == LineTotal(LinesOf(rnd, rows, prior))
  {
    if rows != [] {
      var n := |rows| - 1;
      LineTotals(rnd, rows[..n], prior);
      LinesSnoc(rnd, rows[..n], rows[n], prior);
      assert rows[..n] + [rows[n]] == rows;
    }
  }

  /** Wanting the same codes is holding the same rows. */
  lemma SectionHolds(rnd: real -> real, rows: seq<AccountBalance>, p: string -> bool, q: string -> bool,
                     prior: Option<map<string, int>>)
    requires forall c :: p(c) <==> q(c)
    ensures Holds(SectionOf(rnd, Keep(rows, p), prior), rows, q)
  {
    var at := KeptRows(rnd, rows, p, prior);
    LineTotals(rnd, Keep(rows, p), prior);
    assert Shows(LinesOf(rnd, Keep(rows, p), prior), rows, q, at);
  }

  lemma {:induction false} KeepAll(rows: seq<AccountBalance>, p: string -> bool)
    requires forall c :: p(c)
    ensures Keep(rows, p) == rows
  {
    if rows != [] { KeepAll(rows[..|rows|-1], p); }
  }

  lemma RevenueSections(rnd: real -> real, pl: ProfitAndLoss, r: PresentationRules, prior: Option<ProfitAndLoss>)
    ensures var x := PresentProfitAndLoss(rnd, pl, r, prior);
            && Holds(x.revenue, pl.revenue, c => !AtMost(r.otherIncomeMin, c))
            && Holds(x.otherIncome, pl.revenue, c => AtMost(r.otherIncomeMin, c))
  {
    var m := if prior.Some? then Some(ByCode(prior.value.revenue + prior.value.expenses)) else None;
    SectionHolds(rnd, pl.revenue, NotOtherIncome(r), c => !AtMost(r.otherIncomeMin, c), m);
    SectionHolds(rnd, pl.revenue, OtherIncome(r), c => AtMost(r.otherIncomeMin, c), m);
  }

  lemma ExpenseSections(rnd: real -> real, pl: ProfitAndLoss, r: PresentationRules, prior: Option<ProfitAndLoss>)
    ensures var x := PresentProfitAndLoss(rnd, pl, r, prior);
            && Holds(x.cogs, pl.expenses, c => AtMost(r.cogsLow, c) && AtMost(c, r.cogsHigh))
            && Holds(x.otherExpenses, pl.expenses,
                     c => AtMost(r.otherExpenseMin, c) && !(AtMost(r.cogsLow, c) && AtMost(c, r.cogsHigh)))
            && Holds(x.operatingExpenses, pl.expenses,
                     c => !AtMost(r.otherExpenseMin, c) && !(AtMost(r.cogsLow, c) && AtMost(c, r.cogsHigh)))
  {
    var m := if prior.Some? then Some(ByCode(prior.value.revenue + prior.value.expenses)) else None;
    SectionHolds(rnd, pl.expenses, Cogs(r), c => AtMost(r.cogsLow, c) && AtMost(c, r.cogsHigh), m);
    SectionHolds(rnd, pl.expenses, OtherExpense(r),
                 c => AtMost(r.otherExpenseMin, c) && !(AtMost(r.cogsLow, c) && AtMost(c, r.cogsHigh)), m);
    SectionHolds(rnd, pl.expenses, OperatingExpense(r),
                 c => !AtMost(r.otherExpenseMin, c) && !(AtMost(r.cogsLow, c) && AtMost(c, r.cogsHigh)), m);
  }

  /** The five sections by their codes, and the headlines from the printed subtotals. */
  lemma PlSections(rnd: real -> real, pl: ProfitAndLoss, r: PresentationRules, prior: Option<ProfitAndLoss>)
    ensures var x := PresentProfitAndLoss(rnd, pl, r, prior);
            && Holds(x.revenue, pl.revenue, c => !AtMost(r.otherIncomeMin, c))
            && Holds(x.otherIncome, pl.revenue, c => AtMost(r.otherIncomeMin, c))
            && Holds(x.cogs, pl.expenses, c => AtMost(r.cogsLow, c) && AtMost(c, r.cogsHigh))
            && Holds(x.otherExpenses, pl.expenses,
                     c => AtMost(r.otherExpenseMin, c) && !(AtMost(r.cogsLow, c) && AtMost(c, r.cogsHigh)))
            && Holds(x.operatingExpenses, pl.expenses,
                     c => !AtMost(r.otherExpenseMin, c) && !(AtMost(r.cogsLow, c) && AtMost(c, r.cogsHigh)))
            && x.grossProfit == LineTotal(x.revenue.lines) - LineTotal(x.cogs.lines)
            && x.operatingIncome == x.grossProfit - LineTotal(x.operatingExpenses.lines)
            && x.netIncome == x.operatingIncome + LineTotal(x.otherIncome.lines) - LineTotal(x.otherExpenses.lines)
  {
    RevenueSections(rnd, pl, r, prior);
    ExpenseSections(rnd, pl, r, prior);
  }

  lemma AssetSections(rnd: real -> real, bs: BalanceSheet, r: PresentationRules, prior: Option<BalanceSheet>)
    requires PresentBalanceSheet(rnd, bs, r, prior).Ok?
    ensures var x := PresentBalanceSheet(rnd, bs, r, prior).value;
            && Holds(x.nonCurrentAssets, bs.assets,
                     c => !AtMost(c, r.currentAssetMax) && AtMost(r.longTermAssetMin, c))
            && Holds(x.currentAssets, bs.assets, c => AtMost(c, r.currentAssetMax) || !AtMost(r.longTermAssetMin, c))
  {
    var m :=
      if prior.Some? then Some(ByCode(prior.value.assets + prior.value.liabilities + prior.value.equity)) else None;
    SectionHolds(rnd, bs.assets, NonCurrentAsset(r),
                 c => !AtMost(c, r.currentAssetMax) && AtMost(r.longTermAssetMin, c), m);
    SectionHolds(rnd, bs.assets, CurrentAsset(r),
                 c => AtMost(c, r.currentAssetMax) || !AtMost(r.longTermAssetMin, c), m);
  }

  lemma LiabilitySections(rnd: real -> real, bs: BalanceSheet, r: PresentationRules, prior: Option<BalanceSheet>)
    requires PresentBalanceSheet(rnd, bs, r, prior).Ok?
    ensures var x := PresentBalanceSheet(rnd, bs, r, prior).value;
            && Holds(x.longTermLiabilities, bs.liabilities,
                     c => !AtMost(c, r.currentLiabilityMax) && AtMost(r.longTermLiabilityMin, c))
            && Holds(x.currentLiabilities, bs.liabilities,
                     c => AtMost(c, r.currentLiabilityMax) || !AtMost(r.longTermLiabilityMin, c))
            && Holds(x.equity, bs.equity, c => true)
  {
    var m :=
      if prior.Some? then Some(ByCode(prior.value.assets + prior.value.liabilities + prior.value.equity)) else None;
    SectionHolds(rnd, bs.liabilities, LongTermLiability(r),
                 c => !AtMost(c, r.currentLiabilityMax) && AtMost(r.longTermLiabilityMin, c), m);
    SectionHolds(rnd, bs.liabilities, CurrentLiability(r),
                 c => AtMost(c, r.currentLiabilityMax) || !AtMost(r.longTermLiabilityMin, c), m);
    KeepAll(bs.equity, c => true);
    SectionHolds(rnd, bs.equity, c => true, c => true, m);
  }

  /** The five sections of the balance sheet by their codes, and the totals from the printed lines. */
  lemma BsSections(rnd: real -> real, bs: BalanceSheet, r: PresentationRules, prior: Option<BalanceSheet>)
    requires PresentBalanceSheet(rnd, bs, r, prior).Ok?
    ensures var x := PresentBalanceSheet(rnd, bs, r, prior).value;
            && Holds(x.nonCurrentAssets, bs.assets,
                     c => !AtMost(c, r.currentAssetMax) && AtMost(r.longTermAssetMin, c))
            && Holds(x.currentAssets, bs.assets, c => AtMost(c, r.currentAssetMax) || !AtMost(r.longTermAssetMin, c))
            && Holds(x.longTermLiabilities, bs.liabilities,
                     c => !AtMost(c, r.currentLiabilityMax) && AtMost(r.longTermLiabilityMin, c))
            && Holds(x.currentLiabilities, bs.liabilities,
                     c => AtMost(c, r.currentLiabilityMax) || !AtMost(r.longTermLiabilityMin, c))
            && Holds(x.equity, bs.equity, c => true)
            && x.totalAssets == LineTotal(x.currentAssets.lines) + LineTotal(x.nonCurrentAssets.lines)
            && x.totalLiabilities == LineTotal(x.currentLiabilities.lines) + LineTotal(x.longTermLiabilities.lines)
            && x.retained == bs.retained as real && x.totalEquity == LineTotal(x.equity.lines) + x.retained
            && x.totalLiabilitiesAndEquity == x.totalLiabilities + x.totalEquity == x.totalAssets
  {
    AssetSections(rnd, bs, r, prior);
    LiabilitySections(rnd, bs, r, prior);
  }

  // ----- comparatives ---------------------------------------------------------------------

  /** The last prior row of a code, or zero. */
  ghost predicate LastSigned(rows: seq<AccountBalance>, code: string, amount: int) {
    if forall k :: 0 <= k < |rows| ==> rows[k].code != code then amount == 0
    else
      exists k ::
        && 0 <= k < |rows| && rows[k].code == code && rows[k].signed == amount
        && forall m :: k < m < |rows| ==> rows[m].code != code
  }

  lemma {:induction false} PriorIsLast(rows: seq<AccountBalance>, code: string)
    ensures LastSigned(rows, code, PriorOf(ByCode(rows), code))
  {
    if rows != [] {
      var n := |rows| - 1;
      PriorIsLast(rows[..n], code);
      assert forall k :: 0 <= k < n ==> rows[..n][k] == rows[k];
      if rows[n].code == code {
        assert rows[n].signed == PriorOf(ByCode(rows), code);
      }
    }
  }

  function PriorOfLine(l: PresentedLine): real { if l.variance.Some? then l.variance.value.prior else 0.0 }

  function PriorTotal(ls: seq<PresentedLine>): real {
    if ls == [] then 0.0 else PriorTotal(ls[..|ls|-1]) + PriorOfLine(ls[|ls|-1])
  }

  ghost predicate LinePrior(l: PresentedLine, rows: seq<AccountBalance>) {
    && l.variance.Some? && l.variance.value.current == l.amount
    && exists n: int :: l.variance.value.prior == n as real && LastSigned(rows, l.code, n)
  }

  /** Each line stands against the prior amount of its code, the subtotal against the sum of these. */
  ghost predicate Against(s: PresentedSection, rows: seq<AccountBalance>) {
    && (forall l :: l in s.lines ==> LinePrior(l, rows))
    && s.variance.Some? && s.variance.value.current == s.subtotal && s.variance.value.prior == PriorTotal(s.lines)
  }

  lemma LinePriors(rnd: real -> real, rows: seq<AccountBalance>, prior: seq<AccountBalance>)
    ensures forall l :: l in LinesOf(rnd, rows, Some(ByCode(prior))) ==> LinePrior(l, prior)
  {
    var ls := LinesOf(rnd, rows, Some(ByCode(prior)));
    forall i | 0 <= i < |ls| ensures LinePrior(ls[i], prior) {
      PriorIsLast(prior, rows[i].code);
      assert LastSigned(prior, ls[i].code, PriorOf(ByCode(prior), rows[i].code));
    }
  }

  lemma {:induction false} PriorTotals(rnd: real -> real, rows: seq<AccountBalance>, m: map<string, int>)
    ensures PriorTotal(LinesOf(rnd, rows, Some(m))) == SumPrior(rows, m) as real
  {
    if rows != [] {
      var n := |rows| - 1;
      PriorTotals(rnd, rows[..n], m);
      assert LinesOf(rnd, rows, Some(m))[..n] == LinesOf(rnd, rows[..n], Some(m));
    }
  }

  lemma SectionAgainst(rnd: real -> real, rows: seq<AccountBalance>, prior: seq<AccountBalance>)
    ensures Against(SectionOf(rnd, rows, Some(ByCode(prior))), prior)
  {
    LinePriors(rnd, rows, prior);
    PriorTotals(rnd, rows, ByCode(prior));
  }

  /** The comparative column of both statements: by code, from any account of the prior statement. */
  lemma PlAgainst(rnd: real -> real, pl: ProfitAndLoss, r: PresentationRules, prior: ProfitAndLoss)
    ensures var x, rows := PresentProfitAndLoss(rnd, pl, r, Some(prior)), prior.revenue + prior.expenses;
            Against(x.revenue, rows) && Against(x.cogs, rows) && Against(x.operatingExpenses, rows)
            && Against(x.otherIncome, rows) && Against(x.otherExpenses, rows)
  {
    var s, rows := SplitOf(pl, r), prior.revenue + prior.expenses;
    SectionAgainst(rnd, s.revenue, rows);
    SectionAgainst(rnd, s.cogs, rows);
    SectionAgainst(rnd, s.operating, rows);
    SectionAgainst(rnd, s.otherIncome, rows);
    SectionAgainst(rnd, s.otherExpense, rows);
  }

  lemma BsAgainst(rnd: real -> real, bs: BalanceSheet, r: PresentationRules, prior: BalanceSheet)
    requires PresentBalanceSheet(rnd, bs, r, Some(prior)).Ok?
    ensures var x := PresentBalanceSheet(rnd, bs, r, Some(prior)).value;
            var rows := prior.assets + prior.liabilities + prior.equity;
            && Against(x.currentAssets, rows) && Against(x.nonCurrentAssets, rows)
            && Against(x.currentLiabilities, rows) && Against(x.longTermLiabilities, rows) && Against(x.equity, rows)
            && x.totalAssetsVariance.Some? && x.totalAssetsVariance.value.prior == prior.totalAssets as real
            && x.retainedVariance.Some? && x.retainedVariance.value.prior == prior.retained as real
  {
    var rows := prior.assets + prior.liabilities + prior.equity;
    SectionAgainst(rnd, Keep(bs.assets, CurrentAsset(r)), rows);
    SectionAgainst(rnd, Keep(bs.assets, NonCurrentAsset(r)), rows);
    SectionAgainst(rnd, Keep(bs.liabilities, CurrentLiability(r)), rows);
    SectionAgainst(rnd, Keep(bs.liabilities, LongTermLiability(r)), rows);
    SectionAgainst(rnd, bs.equity, rows);
  }

  /** The change against the prior amount, and the percent of it when there is one: negative when amount
      and change go different ways, and in exact arithmetic the nearest hundredth. */
  lemma VarianceFields(rnd: real -> real, current: real, prior: real)
    ensures var v := VarianceOf(rnd, current, prior);
            && v.current == current && v.prior == prior && v.delta == current - prior
            && (v.pct.None? <==> prior == 0.0)
            && (prior > 0.0 ==> (v.pct.value.negative <==> current < prior))
            && (prior < 0.0 ==> (v.pct.value.negative <==> current >= prior))
  {
  }

  lemma ExactPercent(current: real, prior: real)
    requires prior != 0.0
    ensures var h := VarianceOf(x => x, current, prior).pct.value.hundredths as real;
            var exact := (current - prior) / prior * 10000.0;
            h - 0.5 <= (if exact < 0.0 then -exact else exact) <= h + 0.5
  {
    var exact := (current - prior) / prior * 10000.0;
    assert (current - prior) / prior * 100.0 * 100.0 == exact;
    var n := RoundHalfEven(exact);
    assert -0.5 <= exact - n as real <= 0.5;
  }
}
