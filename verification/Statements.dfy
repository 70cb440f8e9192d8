/** Trial balance, profit and loss, balance sheet and change in cash, all computed
    by grouped sums over the posted lines of a book. */
module Statements {
  import opened Accounts
  import opened Ledger

  /** An inclusive date range; no start means from inception. */
  datatype Window = Window(start: Option<int>, end: int)

  predicate Within(date: int, w: Window) {
    (w.start.Some? ==> w.start.value <= date) && date <= w.end
  }

  predicate Counts(e: Entry, w: Window) {
    e.status == Posted && Within(e.date, w)
  }

  // ----- sums over lines and entries --------------------------------------

  /** One side of the lines posted to the accounts in `ids`. */
  function LineSum(ls: seq<Line>, ids: set<nat>, side: Side): int {
    if ls == [] then 0
    else
      var l := ls[|ls|-1];
      LineSum(ls[..|ls|-1], ids, side) + if l.account in ids then Amount(l, side) else 0
  }

  /** The same over every counted entry. */
  function Turnover(es: seq<Entry>, w: Window, ids: set<nat>, side: Side): int {
    if es == [] then 0
    else
      var e := es[|es|-1];
      Turnover(es[..|es|-1], w, ids, side) + if Counts(e, w) then LineSum(e.lines, ids, side) else 0
  }

  function LineNet(ls: seq<Line>, ids: set<nat>): int {
    LineSum(ls, ids, Debit) - LineSum(ls, ids, Credit)
  }

  function Net(es: seq<Entry>, w: Window, ids: set<nat>): int {
    Turnover(es, w, ids, Debit) - Turnover(es, w, ids, Credit)
  }

  // ----- balances ----------------------------------------------------------

  datatype AccountBalance = AccountBalance(
    account: nat, code: string, name: string, accountType: AccountType, debit: int, credit: int, signed: int)

  function BalanceOf(b: Book, w: Window, i: nat): AccountBalance
    requires i < |b.accounts|
  {
    var a := b.accounts[i];
    var d, c := Turnover(b.entries, w, {i}, Debit), Turnover(b.entries, w, {i}, Credit);
    AccountBalance(i, a.code, a.name, a.accountType, d, c, Signed(a.accountType, d, c))
  }

  /** A row for each of the first `n` accounts of a wanted type. */
  function Rows(b: Book, w: Window, types: set<AccountType>, n: nat): seq<AccountBalance>
    requires n <= |b.accounts|
  {
    if n == 0 then []
    else if b.accounts[n-1].accountType in types then Rows(b, w, types, n - 1) + [BalanceOf(b, w, n - 1)]
    else Rows(b, w, types, n - 1)
  }

  function Balances(b: Book, w: Window, types: set<AccountType>): seq<AccountBalance> {
    Rows(b, w, types, |b.accounts|)
  }

  function SumDebit(rows: seq<AccountBalance>): int {
    if rows == [] then 0 else SumDebit(rows[..|rows|-1]) + rows[|rows|-1].debit
  }

  function SumCredit(rows: seq<AccountBalance>): int {
    if rows == [] then 0 else SumCredit(rows[..|rows|-1]) + rows[|rows|-1].credit
  }

  function SumSigned(rows: seq<AccountBalance>): int {
    if rows == [] then 0 else SumSigned(rows[..|rows|-1]) + rows[|rows|-1].signed
  }

  method BalancesFor(b: Book, w: Window, types: set<AccountType>) returns (out: seq<AccountBalance>)
    ensures out == Balances(b, w, types)
  {
    var totals := GroupedTotals(b, w);
    out := [];
    for i := 0 to |b.accounts|
      invariant out == Rows(b, w, types, i)
    {
      var a := b.accounts[i];
      if a.accountType !in types {
        continue;
      }
      var (d, c) := GroupOf(totals, i);
      GroupedTurnover(b.entries, w, i);
      out := out + [AccountBalance(i, a.code, a.name, a.accountType, d, c, Signed(a.accountType, d, c))];
    }
  }

  function GroupOf(m: map<nat, (int, int)>, i: nat): (int, int) {
    if i in m then m[i] else (0, 0)
  }

  function AddLine(m: map<nat, (int, int)>, l: Line): map<nat, (int, int)> {
    var g := GroupOf(m, l.account);
    m[l.account := (g.0 + l.debit, g.1 + l.credit)]
  }

  function AddLines(m: map<nat, (int, int)>, ls: seq<Line>): map<nat, (int, int)> {
    if ls == [] then m else AddLine(AddLines(m, ls[..|ls|-1]), ls[|ls|-1])
  }

  function Grouped(es: seq<Entry>, w: Window): map<nat, (int, int)> {
    if es == [] then map[]
    else
      var m := Grouped(es[..|es|-1], w);
      if Counts(es[|es|-1], w) then AddLines(m, es[|es|-1].lines) else m
  }

  lemma {:induction false} AddLinesGroup(m: map<nat, (int, int)>, ls: seq<Line>, i: nat)
    ensures GroupOf(AddLines(m, ls), i) ==
              (GroupOf(m, i).0 + LineSum(ls, {i}, Debit), GroupOf(m, i).1 + LineSum(ls, {i}, Credit))
  {
    if ls != [] { AddLinesGroup(m, ls[..|ls|-1], i); }
  }

  /** Grouping in one pass gives each account its turnover. */
  lemma {:induction false} GroupedTurnover(es: seq<Entry>, w: Window, i: nat)
    ensures GroupOf(Grouped(es, w), i) == (Turnover(es, w, {i}, Debit), Turnover(es, w, {i}, Credit))
  {
    if es != [] {
      GroupedTurnover(es[..|es|-1], w, i);
      AddLinesGroup(Grouped(es[..|es|-1], w), es[|es|-1].lines, i);
    }
  }

  /** The `GROUP BY account_id` query: an account without counted lines has no group. */
  method GroupedTotals(b: Book, w: Window) returns (m: map<nat, (int, int)>)
    ensures m == Grouped(b.entries, w)
  {
    m := map[];
    for k := 0 to |b.entries|
      invariant m == Grouped(b.entries[..k], w)
    {
      var e := b.entries[k];
      ghost var m0 := m;
      if Counts(e, w) {
        for j := 0 to |e.lines|
          invariant m == AddLines(m0, e.lines[..j])
        {
          assert e.lines[..j+1][..j] == e.lines[..j];
          m := AddLine(m, e.lines[j]);
        }
        assert e.lines[..|e.lines|] == e.lines;
      }
      assert b.entries[..k+1][..k] == b.entries[..k];
    }
    assert b.entries[..|b.entries|] == b.entries;
  }

  // ----- the statements ------------------------------------------------------

  const ALL_TYPES: set<AccountType> := {Asset, Liability, Equity, Revenue, Expense}

  datatype TrialBalance = TrialBalance(rows: seq<AccountBalance>, totalDebits: int, totalCredits: int, balances: bool)

  datatype ProfitAndLoss = ProfitAndLoss(
    revenue: seq<AccountBalance>, expenses: seq<AccountBalance>,
    totalRevenue: int, totalExpenses: int, netIncome: int)

  datatype BalanceSheet = BalanceSheet(
    assets: seq<AccountBalance>, liabilities: seq<AccountBalance>, equity: seq<AccountBalance>,
    totalAssets: int, totalLiabilities: int, totalEquity: int, retained: int)

  datatype CashFlow = CashFlow(opening: int, closing: int, netChange: int, inflows: int, outflows: int)

  datatype StatementError = AssertionFailed | NoCashAccounts

  function TrialBalanceAt(b: Book, asOf: int): TrialBalance {
    var rows := Balances(b, Window(None, asOf), ALL_TYPES);
    TrialBalance(rows, SumDebit(rows), SumCredit(rows), SumDebit(rows) == SumCredit(rows))
  }

  function ProfitAndLossFor(b: Book, w: Window): ProfitAndLoss {
    var rev, exp := Balances(b, w, {Revenue}), Balances(b, w, {Expense});
    ProfitAndLoss(rev, exp, SumSigned(rev), SumSigned(exp), SumSigned(rev) - SumSigned(exp))
  }

  function BalanceSheetAt(b: Book, asOf: int): Result<BalanceSheet, StatementError> {
    var w := Window(None, asOf);
    var assets, liabs, equity := Balances(b, w, {Asset}), Balances(b, w, {Liability}), Balances(b, w, {Equity});
    var retained := SumSigned(Balances(b, w, {Revenue})) - SumSigned(Balances(b, w, {Expense}));
    var totalA, totalL, totalE := SumSigned(assets), SumSigned(liabs), SumSigned(equity) + retained;
    if totalA != totalL + totalE then Err(AssertionFailed)
    else Ok(BalanceSheet(assets, liabs, equity, totalA, totalL, totalE, retained))
  }

  function CashIds(b: Book, codes: set<string>): set<nat> {
    set i: nat | i < |b.accounts| && b.accounts[i].code in codes && b.accounts[i].accountType == Asset
  }

  function CashFlowFor(b: Book, start: int, end: int, codes: set<string>): Result<CashFlow, StatementError> {
    var ids := CashIds(b, codes);
    if ids == {} then Err(NoCashAccounts)
    else
      var opening := Net(b.entries, Window(None, start - 1), ids);
      var closing := Net(b.entries, Window(None, end), ids);
      var w := Window(Some(start), end);
      var inflows, outflows := Turnover(b.entries, w, ids, Debit), Turnover(b.entries, w, ids, Credit);
      if closing - opening != inflows - outflows then Err(AssertionFailed)
      else Ok(CashFlow(opening, closing, inflows - outflows, inflows, outflows))
  }
}
