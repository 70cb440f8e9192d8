/** Re-presentation loses nothing, whatever the rules. */
module PresentationProofs {
  import opened Accounts
  import opened Ledger
  import opened LedgerRuns
  import opened Statements
  import opened StatementProofs
  import opened Rules
  import opened Presentation

  lemma {:induction false} KeepSplits(rows: seq<AccountBalance>, p: string -> bool, q: string -> bool)
    requires forall c :: p(c) <==> !q(c)
    ensures SumSigned(Keep(rows, p)) + SumSigned(Keep(rows, q)) == SumSigned(rows)
  {
    if rows != [] {
      var n := |rows| - 1;
      KeepSplits(rows[..n], p, q);
      KeepLast(rows, p);
      KeepLast(rows, q);
      assert p(rows[n].code) <==> !q(rows[n].code);
    }
  }

  lemma KeepLast(rows: seq<AccountBalance>, p: string -> bool)
    requires rows != []
    ensures SumSigned(Keep(rows, p)) ==
              SumSigned(Keep(rows[..|rows|-1], p)) + if p(rows[|rows|-1].code) then rows[|rows|-1].signed else 0
  {
    var n := |rows| - 1;
    var k := Keep(rows[..n], p);
    assert (k + [rows[n]])[..|k|] == k;
  }

  lemma {:induction false} KeepThree(rows: seq<AccountBalance>, p: string -> bool, q: string -> bool, s: string -> bool)
    requires forall c :: (if p(c) then 1 else 0) + (if q(c) then 1 else 0) + (if s(c) then 1 else 0) == 1
    ensures SumSigned(Keep(rows, p)) + SumSigned(Keep(rows, q)) + SumSigned(Keep(rows, s)) == SumSigned(rows)
  {
    if rows != [] {
      var n := |rows| - 1;
      KeepThree(rows[..n], p, q, s);
      KeepLast(rows, p);
      KeepLast(rows, q);
      KeepLast(rows, s);
      assert (if p(rows[n].code) then 1 else 0) + (if q(rows[n].code) then 1 else 0)
             + (if s(rows[n].code) then 1 else 0) == 1;
    }
  }

  /** The five-way split gives the engine's net income, whatever the rules. */
  lemma PlSplitKeepsNetIncome(rnd: real -> real, b: Book, w: Window, r: PresentationRules, prior: Option<ProfitAndLoss>)
    ensures PresentProfitAndLoss(rnd, ProfitAndLossFor(b, w), r, prior).netIncome
            == ProfitAndLossFor(b, w).netIncome as real
  {
    SplitKeepsNetIncome(ProfitAndLossFor(b, w), r);
  }

  lemma SplitKeepsNetIncome(pl: ProfitAndLoss, r: PresentationRules)
    ensures Headlines(SplitOf(pl, r)).2 == SumSigned(pl.revenue) - SumSigned(pl.expenses)
  {
    KeepSplits(pl.revenue, NotOtherIncome(r), OtherIncome(r));
    KeepThree(pl.expenses, Cogs(r), OperatingExpense(r), OtherExpense(r));
  }

  /** The balance-sheet split gives the engine's totals and never raises on a sound book. */
  lemma BsSplitKeepsTotals(rnd: real -> real, b: Book, asOf: int, r: PresentationRules, prior: Option<BalanceSheet>)
    requires BookOk(b)
    ensures BalanceSheetAt(b, asOf).Ok?
    ensures var bs := BalanceSheetAt(b, asOf).value;
            var p := PresentBalanceSheet(rnd, bs, r, prior);
            && p.Ok?
            && p.value.totalAssets == bs.totalAssets as real
            && p.value.totalLiabilities == bs.totalLiabilities as real
            && p.value.totalEquity == bs.totalEquity as real
            && p.value.totalAssets == p.value.totalLiabilitiesAndEquity
  {
    BalanceSheetNeverRaises(b, asOf);
    var bs := BalanceSheetAt(b, asOf).value;
    KeepSplits(bs.assets, CurrentAsset(r), NonCurrentAsset(r));
    KeepSplits(bs.liabilities, CurrentLiability(r), LongTermLiability(r));
  }

  // ----- priors ------------------------------------------------------------------

  /** Both periods list the same accounts in the same order, as they do for one client. */
  ghost predicate SameAccounts(xs: seq<AccountBalance>, ys: seq<AccountBalance>) {
    |xs| == |ys| && forall i :: 0 <= i < |xs| ==> xs[i].code == ys[i].code
  }

  ghost predicate DistinctRows(xs: seq<AccountBalance>) {
    forall i, j :: 0 <= i < j < |xs| ==> xs[i].code != xs[j].code
  }

  lemma {:induction false} ByCodeFinds(rows: seq<AccountBalance>, i: nat)
    requires DistinctRows(rows) && i < |rows|
    ensures rows[i].code in ByCode(rows) && ByCode(rows)[rows[i].code] == rows[i].signed
  {
    var n := |rows| - 1;
    if i < n {
      ByCodeFinds(rows[..n], i);
    }
  }

  /** Priors looked up by code for the kept rows add up to the kept prior rows. */
  lemma {:induction false} PriorsOfKept(xs: seq<AccountBalance>, ys: seq<AccountBalance>, m: map<string, int>,
                                        p: string -> bool)
    requires SameAccounts(xs, ys)
    requires forall i :: 0 <= i < |ys| ==> ys[i].code in m && m[ys[i].code] == ys[i].signed
    ensures SumPrior(Keep(xs, p), m) == SumSigned(Keep(ys, p))
  {
    if xs != [] {
      var n := |xs| - 1;
      PriorsOfKept(xs[..n], ys[..n], m, p);
      KeepLast(ys, p);
      var k := Keep(xs[..n], p);
      assert (k + [xs[n]])[..|k|] == k;
      assert xs[n].code == ys[n].code;
    }
  }

  function PriorSubtotal(s: PresentedSection): real { if s.variance.Some? then s.variance.value.prior else 0.0 }

  /** Section priors recombine to the headline prior gross profit, operating income and net income. */
  lemma SectionPriorsRecombine(rnd: real -> real, pl: ProfitAndLoss, prior: ProfitAndLoss, r: PresentationRules)
    requires SameAccounts(pl.revenue, prior.revenue) && SameAccounts(pl.expenses, prior.expenses)
    requires DistinctRows(prior.revenue + prior.expenses)
    ensures var p := PresentProfitAndLoss(rnd, pl, r, Some(prior));
            && p.revenue.variance.Some? && p.cogs.variance.Some? && p.operatingExpenses.variance.Some?
            && p.otherIncome.variance.Some? && p.otherExpenses.variance.Some?
            && p.grossProfitVariance.Some? && p.operatingIncomeVariance.Some? && p.netIncomeVariance.Some?
            && p.grossProfitVariance.value.prior == PriorSubtotal(p.revenue) - PriorSubtotal(p.cogs)
            && p.operatingIncomeVariance.value.prior ==
               p.grossProfitVariance.value.prior - PriorSubtotal(p.operatingExpenses)
            && p.netIncomeVariance.value.prior ==
               p.operatingIncomeVariance.value.prior + PriorSubtotal(p.otherIncome) - PriorSubtotal(p.otherExpenses)
            && p.netIncomeVariance.value.prior == (SumSigned(prior.revenue) - SumSigned(prior.expenses)) as real
  {
    var m := ByCode(prior.revenue + prior.expenses);
    var all := prior.revenue + prior.expenses;
    forall i | 0 <= i < |prior.revenue|
      ensures prior.revenue[i].code in m && m[prior.revenue[i].code] == prior.revenue[i].signed
    {
      ByCodeFinds(all, i);
    }
    forall i | 0 <= i < |prior.expenses|
      ensures prior.expenses[i].code in m && m[prior.expenses[i].code] == prior.expenses[i].signed
    {
      assert all[|prior.revenue| + i] == prior.expenses[i];
      ByCodeFinds(all, |prior.revenue| + i);
    }
    PriorsOfKept(pl.revenue, prior.revenue, m, NotOtherIncome(r));
    PriorsOfKept(pl.revenue, prior.revenue, m, OtherIncome(r));
    PriorsOfKept(pl.expenses, prior.expenses, m, Cogs(r));
    PriorsOfKept(pl.expenses, prior.expenses, m, OperatingExpense(r));
    PriorsOfKept(pl.expenses, prior.expenses, m, OtherExpense(r));
    SplitKeepsNetIncome(prior, r);
  }

  /** The accounts a statement lists depend on the chart alone, never on the period. */
  lemma {:induction false} RowsByChart(b: Book, w: Window, w0: Window, types: set<AccountType>, n: nat)
    requires n <= |b.accounts|
    ensures SameAccounts(Rows(b, w, types, n), Rows(b, w0, types, n))
  {
    if n > 0 { RowsByChart(b, w, w0, types, n - 1); }
  }

  lemma {:induction false} RowAccounts(b: Book, w: Window, types: set<AccountType>, n: nat, k: nat)
    requires n <= |b.accounts| && k < |Rows(b, w, types, n)|
    ensures Rows(b, w, types, n)[k].account < n
    ensures Rows(b, w, types, n)[k] == BalanceOf(b, w, Rows(b, w, types, n)[k].account)
    ensures Rows(b, w, types, n)[k].accountType in types
  {
    if k < |Rows(b, w, types, n - 1)| { RowAccounts(b, w, types, n - 1, k); }
  }

  lemma {:induction false} RowsDistinct(b: Book, w: Window, types: set<AccountType>, n: nat, i: nat, j: nat)
    requires n <= |b.accounts| && DistinctCodes(b.accounts) && i < j < |Rows(b, w, types, n)|
    ensures Rows(b, w, types, n)[i].code != Rows(b, w, types, n)[j].code
  {
    if j < |Rows(b, w, types, n - 1)| {
      RowsDistinct(b, w, types, n - 1, i, j);
    } else {
      RowAccounts(b, w, types, n - 1, i);
    }
  }

  lemma PlRowsDistinct(b: Book, w: Window)
    requires DistinctCodes(b.accounts)
    ensures DistinctRows(Balances(b, w, {Revenue}) + Balances(b, w, {Expense}))
  {
    var n := |b.accounts|;
    var xs, ys := Rows(b, w, {Revenue}, n), Rows(b, w, {Expense}, n);
    var all := xs + ys;
    forall i, j | 0 <= i < j < |all| ensures all[i].code != all[j].code {
      if j < |xs| {
        RowsDistinct(b, w, {Revenue}, n, i, j);
      } else if |xs| <= i {
        RowsDistinct(b, w, {Expense}, n, i - |xs|, j - |xs|);
      } else {
        RowAccounts(b, w, {Revenue}, n, i);
        RowAccounts(b, w, {Expense}, n, j - |xs|);
        assert all[i].account != all[j].account;
      }
    }
  }

  /** So for any two periods of one book the comparative columns always recombine. */
  lemma ComparativesRecombine(rnd: real -> real, b: Book, w: Window, w0: Window, r: PresentationRules)
    requires BookOk(b)
    ensures var p := PresentProfitAndLoss(rnd, ProfitAndLossFor(b, w), r, Some(ProfitAndLossFor(b, w0)));
            && p.revenue.variance.Some? && p.cogs.variance.Some? && p.operatingExpenses.variance.Some?
            && p.otherIncome.variance.Some? && p.otherExpenses.variance.Some? && p.netIncomeVariance.Some?
            && p.revenue.variance.value.prior - p.cogs.variance.value.prior - p.operatingExpenses.variance.value.prior
               + p.otherIncome.variance.value.prior - p.otherExpenses.variance.value.prior
               == p.netIncomeVariance.value.prior == ProfitAndLossFor(b, w0).netIncome as real
  {
    RowsByChart(b, w, w0, {Revenue}, |b.accounts|);
    RowsByChart(b, w, w0, {Expense}, |b.accounts|);
    PlRowsDistinct(b, w0);
    SectionPriorsRecombine(rnd, ProfitAndLossFor(b, w), ProfitAndLossFor(b, w0), r);
  }
}
