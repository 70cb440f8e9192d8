/** What the figures of the statements are, told on debits, credits and account types. */
module StatementFacts {
  import opened Accounts
  import opened Ledger
  import opened Statements
  import opened StatementProofs
  import opened Presentation
  import opened Rules
  import CashFlow

  // ----- rows -----------------------------------------------------------------------------

  /** Every row is the balance of an account of a wanted type: debits less credits for assets and expenses,
      credits less debits for the others. */
  lemma {:induction false} RowFields(b: Book, w: Window, types: set<AccountType>, n: nat, k: nat)
    requires n <= |b.accounts| && k < |Rows(b, w, types, n)|
    ensures var row := Rows(b, w, types, n)[k];
            && row.account < n && row.code == b.accounts[row.account].code && row.name == b.accounts[row.account].name
            && row.accountType == b.accounts[row.account].accountType && row.accountType in types
            && row.debit == Turnover(b.entries, w, {row.account}, Debit)
            && row.credit == Turnover(b.entries, w, {row.account}, Credit)
            && row.signed == if row.accountType in {Asset, Expense} then row.debit - row.credit
                             else row.credit - row.debit
  {
    if k < |Rows(b, w, types, n - 1)| { RowFields(b, w, types, n - 1, k); }
  }

  /** Every account of a wanted type has a row. */
  lemma {:induction false} RowExists(b: Book, w: Window, types: set<AccountType>, n: nat, i: nat)
    requires i < n <= |b.accounts| && b.accounts[i].accountType in types
    ensures exists k :: 0 <= k < |Rows(b, w, types, n)| && Rows(b, w, types, n)[k].account == i
  {
    var rows, before := Rows(b, w, types, n), Rows(b, w, types, n - 1);
    if i < n - 1 {
      RowExists(b, w, types, n - 1, i);
      var k :| 0 <= k < |before| && before[k].account == i;
      assert rows[k] == before[k];
    } else {
      assert rows[|before|].account == i;
    }
  }

  // ----- totals ---------------------------------------------------------------------------

  function OfType(accounts: seq<Account>, t: AccountType, n: nat): set<nat>
    requires n <= |accounts|
  {
    set i: nat | i < n && accounts[i].accountType == t
  }

  lemma {:induction false} TypedSum(b: Book, w: Window, t: AccountType, n: nat)
    requires n <= |b.accounts|
    ensures SumSigned(Rows(b, w, {t}, n))
         == if t in {Asset, Expense} then Net(b.entries, w, OfType(b.accounts, t, n))
            else -Net(b.entries, w, OfType(b.accounts, t, n))
  {
    if n == 0 {
      assert OfType(b.accounts, t, 0) == {};
      TurnoverEmpty(b.entries, w, Debit);
      TurnoverEmpty(b.entries, w, Credit);
    } else {
      TypedSum(b, w, t, n - 1);
      TypedTotalStep(b, w, t, n - 1);
      var was, now := OfType(b.accounts, t, n - 1), OfType(b.accounts, t, n);
      if b.accounts[n-1].accountType == t {
        assert now == was + {n - 1};
        TurnoverUnion(b.entries, w, was, {n - 1}, Debit);
        TurnoverUnion(b.entries, w, was, {n - 1}, Credit);
      } else {
        assert now == was;
      }
    }
  }

  function AllOf(b: Book, t: AccountType): set<nat> { OfType(b.accounts, t, |b.accounts|) }

  /** Income is what was credited to revenue accounts in the period, net, less what was debited to expenses. */
  lemma ProfitAndLossFields(b: Book, w: Window)
    ensures var pl := ProfitAndLossFor(b, w);
            && pl.totalRevenue == Turnover(b.entries, w, AllOf(b, Revenue), Credit)
                                  - Turnover(b.entries, w, AllOf(b, Revenue), Debit)
            && pl.totalExpenses == Turnover(b.entries, w, AllOf(b, Expense), Debit)
                                   - Turnover(b.entries, w, AllOf(b, Expense), Credit)
            && pl.netIncome == pl.totalRevenue - pl.totalExpenses
  {
    TypedSum(b, w, Revenue, |b.accounts|);
    TypedSum(b, w, Expense, |b.accounts|);
  }

  /** The sheet counts everything up to its date: debits for assets, credits for liabilities and equity, and
      the income so far is retained. */
  lemma BalanceSheetFields(b: Book, asOf: int)
    requires BalanceSheetAt(b, asOf).Ok?
    ensures var bs, w := BalanceSheetAt(b, asOf).value, Window(None, asOf);
            && bs.totalAssets == Turnover(b.entries, w, AllOf(b, Asset), Debit)
                                 - Turnover(b.entries, w, AllOf(b, Asset), Credit)
            && bs.totalLiabilities == Turnover(b.entries, w, AllOf(b, Liability), Credit)
                                      - Turnover(b.entries, w, AllOf(b, Liability), Debit)
            && bs.totalEquity == Turnover(b.entries, w, AllOf(b, Equity), Credit)
                                 - Turnover(b.entries, w, AllOf(b, Equity), Debit) + bs.retained
            && bs.retained == ProfitAndLossFor(b, w).netIncome
  {
    var w := Window(None, asOf);
    TypedSum(b, w, Asset, |b.accounts|);
    TypedSum(b, w, Liability, |b.accounts|);
    TypedSum(b, w, Equity, |b.accounts|);
  }

  // ----- cash -------------------------------------------------------------------------------

  /** Cash is the asset accounts among the given codes; without any the statement is refused. Opening is what
      they hold before the first day, closing at the end of the last. */
  lemma CashFlowFields(b: Book, start: int, end: int, codes: set<string>)
    ensures var r := CashFlowFor(b, start, end, codes);
            var cash := set i: nat | i < |b.accounts| && b.accounts[i].accountType == Asset && b.accounts[i].code in codes;
            && (r == Err(NoCashAccounts) <==> cash == {})
            && (r.Ok? ==>
                  && r.value.opening == Net(b.entries, Window(None, start - 1), cash)
                  && r.value.closing == Net(b.entries, Window(None, end), cash)
                  && r.value.inflows == Turnover(b.entries, Window(Some(start), end), cash, Debit)
                  && r.value.outflows == Turnover(b.entries, Window(Some(start), end), cash, Credit)
                  && r.value.netChange == r.value.inflows - r.value.outflows == r.value.closing - r.value.opening)
  {
    var cash := set i: nat | i < |b.accounts| && b.accounts[i].accountType == Asset && b.accounts[i].code in codes;
    assert CashIds(b, codes) == cash;
  }

  /** Some counted entry of the window has a line on one of the accounts. */
  ghost predicate Moved(b: Book, w: Window, ids: set<nat>) {
    exists k, i :: 0 <= k < |b.entries| && 0 <= i < |b.entries[k].lines|
                   && Counts(b.entries[k], w) && b.entries[k].lines[i].account in ids
  }

  lemma MovedIsTouched(b: Book, w: Window, ids: set<nat>)
    ensures Moved(b, w, ids) <==>
              exists k :: 0 <= k < |b.entries| && Counts(b.entries[k], w) && CashFlow.Touches(b.entries[k].lines, ids)
  {
    if Moved(b, w, ids) {
      var k, i :| 0 <= k < |b.entries| && 0 <= i < |b.entries[k].lines|
                  && Counts(b.entries[k], w) && b.entries[k].lines[i].account in ids;
      assert CashFlow.Touches(b.entries[k].lines, ids);
    }
  }

  /** The classified statement repeats opening and closing cash, and is refused exactly when the sum of its
      sections misses their difference by more than a ten-thousandth. */
  lemma PresentedChecks(rnd: real -> real, r: PresentationRules, b: Book, start: int, end: int, codes: set<string>)
    requires CashFlow.EntriesKnown(b.accounts, b.entries)
    ensures var raw, p := CashFlowFor(b, start, end, codes), CashFlow.Presented(rnd, r, b, start, end, codes);
            var w, ids := Window(Some(start), end), CashIds(b, codes);
            var bk := CashFlow.Classified(rnd, r, b.accounts, b.entries, w, ids);
            var moved := Moved(b, w, ids);
            && (raw.Err? ==> p == Err(raw.error))
            && (raw.Ok? && !moved ==> p.Ok? && p.value.operating == p.value.investing == p.value.financing == []
                                      && p.value.netChange == 0.0)
            && (raw.Ok? && moved ==>
                  var gap := rnd(CashFlow.NetChange(rnd, bk) - (raw.value.closing - raw.value.opening) as real);
                  && (p == Err(AssertionFailed) <==> gap < -1.0 || gap > 1.0)
                  && (p.Ok? ==> p.value.ties && p.value.netChange == rnd(rnd(p.value.opTotal + p.value.invTotal)
                                                                         + p.value.finTotal)))
            && (p.Ok? ==> p.value.opening == raw.value.opening && p.value.closing == raw.value.closing)
  {
    MovedIsTouched(b, Window(Some(start), end), CashIds(b, codes));
  }

  // ----- rounding ------------------------------------------------------------------------------

  /** The nearest integer, and of two the even one. */
  lemma NearestEven(x: real, n: int)
    ensures RoundHalfEven(x) == n <==>
              -0.5 <= x - n as real <= 0.5 && (x - n as real == 0.5 || x - n as real == -0.5 ==> n % 2 == 0)
  {
    var m := RoundHalfEven(x);
    assert -0.5 <= x - m as real <= 0.5;
    if -0.5 <= x - n as real <= 0.5 && n != m {
      assert n == m + 1 || n == m - 1;
    }
  }
}
