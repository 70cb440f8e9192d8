/** The reports agree with the cumulative balances that the statements compute. */
module ReportProofs {
  import opened Accounts
  import opened Ledger
  import opened Statements
  import opened StatementProofs
  import opened Reports
  import opened Sums

  // ----- rows against turnover ------------------------------------------------------------------

  /** Signed amount of the rows of one account up to a day. */
  function Through(t: AccountType, i: nat, day: int): Row -> int {
    (r: Row) => if r.account == i && r.date <= day then SignedRow(t, r) else 0
  }

  lemma LineRowsStep(ls: seq<Line>, ids: set<nat>, date: int, f: Row -> int)
    requires ls != []
    ensures var l := ls[|ls|-1];
            SumOver(LineRows(ls, ids, date), f)
            == SumOver(LineRows(ls[..|ls|-1], ids, date), f)
               + if l.account in ids then f(Row(l.account, date, l.debit, l.credit)) else 0
  {
    var init, l := ls[..|ls|-1], ls[|ls|-1];
    if l.account in ids {
      SumAppend(LineRows(init, ids, date), [Row(l.account, date, l.debit, l.credit)], f);
      SumOne(Row(l.account, date, l.debit, l.credit), f);
    } else {
      assert LineRows(init, ids, date) + [] == LineRows(init, ids, date);
    }
  }

  lemma {:induction false} LineRowsTotal(ls: seq<Line>, ids: set<nat>, date: int, t: AccountType, i: nat, day: int)
    requires i in ids
    ensures SumOver(LineRows(ls, ids, date), Through(t, i, day))
         == if date <= day then Signed(t, LineSum(ls, {i}, Debit), LineSum(ls, {i}, Credit)) else 0
  {
    if ls != [] {
      LineRowsTotal(ls[..|ls|-1], ids, date, t, i, day);
      LineRowsStep(ls, ids, date, Through(t, i, day));
    }
  }

  function Cut(w: Window, day: int): Window { Window(w.start, if day < w.end then day else w.end) }

  lemma {:induction false} MatchingTotal(es: seq<Entry>, w: Window, ids: set<nat>, t: AccountType, i: nat, day: int)
    requires i in ids
    ensures SumOver(Matching(es, w, ids), Through(t, i, day))
         == Signed(t, Turnover(es, Cut(w, day), {i}, Debit), Turnover(es, Cut(w, day), {i}, Credit))
  {
    if es != [] {
      var init, e := es[..|es|-1], es[|es|-1];
      MatchingTotal(init, w, ids, t, i, day);
      if Counts(e, w) {
        SumAppend(Matching(init, w, ids), LineRows(e.lines, ids, e.date), Through(t, i, day));
        LineRowsTotal(e.lines, ids, e.date, t, i, day);
      } else {
        assert Matching(init, w, ids) + [] == Matching(init, w, ids);
      }
    }
  }

  lemma {:induction false} MatchingAccounts(es: seq<Entry>, w: Window, ids: set<nat>)
    ensures forall r :: r in Matching(es, w, ids) ==> r.account in ids && Within(r.date, w)
  {
    if es != [] {
      MatchingAccounts(es[..|es|-1], w, ids);
      LineRowAccounts(es[|es|-1].lines, ids, es[|es|-1].date);
    }
  }

  lemma {:induction false} LineRowAccounts(ls: seq<Line>, ids: set<nat>, date: int)
    ensures forall r :: r in LineRows(ls, ids, date) ==> r.account in ids && r.date == date
  {
    if ls != [] { LineRowAccounts(ls[..|ls|-1], ids, date); }
  }

  lemma ResultRows(rows: seq<Row>, b: Book, w: Window, ids: set<nat>)
    requires IsResult(rows, b, w, ids)
    ensures forall k :: 0 <= k < |rows| ==> rows[k].account in ids && Within(rows[k].date, w)
  {
    MatchingAccounts(b.entries, w, ids);
    forall k | 0 <= k < |rows| ensures rows[k].account in ids && Within(rows[k].date, w) {
      assert rows[k] in multiset(rows);
      assert rows[k] in Matching(b.entries, w, ids);
    }
  }

  // ----- general ledger ----------------------------------------------------------------------------

  lemma {:induction false} RunningIsTotal(rows: seq<Row>, t: AccountType, i: nat, day: int)
    requires forall k :: 0 <= k < |rows| ==> rows[k].account == i && rows[k].date <= day
    ensures RunningSum(rows, t) == SumOver(rows, Through(t, i, day))
  {
    if rows != [] { RunningIsTotal(rows[..|rows|-1], t, i, day); }
  }

  lemma {:induction false} LaterRowsCountNothing(rows: seq<Row>, t: AccountType, i: nat, day: int)
    requires forall k :: 0 <= k < |rows| ==> rows[k].date > day
    ensures SumOver(rows, Through(t, i, day)) == 0
  {
    if rows != [] { LaterRowsCountNothing(rows[..|rows|-1], t, i, day); }
  }

  /** In date order, the sum of the rows up to the end of a day is the turnover to that day. */
  lemma RunningThroughDay(b: Book, i: nat, w: Window, rows: seq<Row>, k: nat, day: int, t: AccountType)
    requires IsResult(rows, b, w, {i}) && k <= |rows|
    requires forall j :: 0 <= j < k ==> rows[j].date <= day
    requires forall j :: k <= j < |rows| ==> rows[j].date > day
    ensures RunningSum(rows[..k], t)
         == Signed(t, Turnover(b.entries, Cut(w, day), {i}, Debit), Turnover(b.entries, Cut(w, day), {i}, Credit))
  {
    ResultRows(rows, b, w, {i});
    RunningIsTotal(rows[..k], t, i, day);
    LaterRowsCountNothing(rows[k..], t, i, day);
    SumAppend(rows[..k], rows[k..], Through(t, i, day));
    assert rows[..k] + rows[k..] == rows;
    OrderIrrelevant(rows, Matching(b.entries, w, {i}), Through(t, i, day));
    MatchingTotal(b.entries, w, {i}, t, i, day);
  }

  lemma OpeningPlusPeriod(b: Book, i: nat, start: int, end: int, day: int)
    requires i < |b.accounts| && start - 1 <= day <= end
    ensures var t, c := b.accounts[i].accountType, Cut(Window(Some(start), end), day);
            BalanceThrough(b, i, start - 1)
            + Signed(t, Turnover(b.entries, c, {i}, Debit), Turnover(b.entries, c, {i}, Credit))
            == BalanceThrough(b, i, day)
  {
    WindowSplit(b.entries, start, day, {i}, Debit);
    WindowSplit(b.entries, start, day, {i}, Credit);
  }

  /** The signed amount posted to an account on the days of a window. */
  function PostedIn(b: Book, t: AccountType, i: nat, w: Window): int {
    Signed(t, Turnover(b.entries, w, {i}, Debit), Turnover(b.entries, w, {i}, Credit))
  }

  /** Opening is what was posted before the first day, closing what was posted up to the last day; for a period
      that ends before it starts it stays at the opening one. */
  lemma ClosingIsCumulative(b: Book, i: nat, start: int, end: int, rows: seq<Row>)
    requires i < |b.accounts| && IsResult(rows, b, Window(Some(start), end), {i})
    ensures var g, t := LedgerOf(b, i, start, rows), b.accounts[i].accountType;
            && g.account == i && g.opening == PostedIn(b, t, i, Window(None, start - 1))
            && g.closing == PostedIn(b, t, i, Window(None, if start - 1 <= end then end else start - 1))
  {
    var w := Window(Some(start), end);
    ResultRows(rows, b, w, {i});
    RunningThroughDay(b, i, w, rows, |rows|, end, b.accounts[i].accountType);
    assert rows[..|rows|] == rows && Cut(w, end) == w;
    if start - 1 <= end {
      OpeningPlusPeriod(b, i, start, end, end);
    } else {
      EmptyWindow(b.entries, start, end, {i}, Debit);
      EmptyWindow(b.entries, start, end, {i}, Credit);
    }
  }

  lemma {:induction false} RunningAt(rows: seq<Row>, t: AccountType, opening: int, k: nat)
    requires k < |rows|
    ensures WithRunning(rows, t, opening)[k] == (rows[k], opening + RunningSum(rows[..k+1], t))
  {
    var n := |rows| - 1;
    if k < n {
      RunningAt(rows[..n], t, opening, k);
      assert rows[..n][..k+1] == rows[..k+1];
    } else {
      assert rows[..k+1] == rows;
    }
  }

  /** The running balance on the last line of each day is what was posted up to that day. */
  lemma RunningIsCumulative(b: Book, i: nat, start: int, end: int, rows: seq<Row>, k: nat)
    requires i < |b.accounts| && IsResult(rows, b, Window(Some(start), end), {i}) && ByDate(rows)
    requires k < |rows| && (k + 1 < |rows| ==> rows[k].date < rows[k+1].date)
    ensures LedgerOf(b, i, start, rows).rows[k]
         == (rows[k], PostedIn(b, b.accounts[i].accountType, i, Window(None, rows[k].date)))
  {
    var t, w, day := b.accounts[i].accountType, Window(Some(start), end), rows[k].date;
    ResultRows(rows, b, w, {i});
    RunningAt(rows, t, BalanceThrough(b, i, start - 1), k);
    RunningThroughDay(b, i, w, rows, k + 1, day, t);
    OpeningPlusPeriod(b, i, start, end, day);
  }

  // ----- aging ------------------------------------------------------------------------------------------

  lemma SumFour(xs: seq<int>)
    requires |xs| == 4
    ensures Sum(xs) == xs[0] + xs[1] + xs[2] + xs[3]
  {
    assert xs[..3][..2] == xs[..2] && xs[..2][..1] == xs[..1] && xs[..1][..0] == [];
    assert Sum(xs[..1]) == xs[0] by { assert Sum(xs[..1][..0]) == 0; }
    assert Sum(xs[..2]) == xs[0] + xs[1];
    assert Sum(xs[..3]) == xs[0] + xs[1] + xs[2];
  }

  /** Every line of an account falls into exactly one bucket. */
  lemma {:induction false} BucketsAddUp(rows: seq<Row>, t: AccountType, asOf: int, i: nat)
    requires forall k :: 0 <= k < |rows| ==> rows[k].date <= asOf
    ensures BucketSum(rows, t, asOf, i, 0) + BucketSum(rows, t, asOf, i, 1) + BucketSum(rows, t, asOf, i, 2)
            + BucketSum(rows, t, asOf, i, 3) == SumOver(rows, Through(t, i, asOf))
  {
    if rows != [] { BucketsAddUp(rows[..|rows|-1], t, asOf, i); }
  }

  /** The buckets of an account sum to its balance as of the date. */
  lemma AccountAgesToBalance(b: Book, asOf: int, ids: set<nat>, rows: seq<Row>, t: AccountType, i: nat)
    requires IsResult(rows, b, Window(None, asOf), ids) && i in ids && i < |b.accounts| && b.accounts[i].accountType == t
    ensures RowOf(rows, t, asOf, i).total == BalanceThrough(b, i, asOf) == PostedIn(b, t, i, Window(None, asOf))
  {
    ResultRows(rows, b, Window(None, asOf), ids);
    BucketsAddUp(rows, t, asOf, i);
    SumFour(AccountBuckets(rows, t, asOf, i));
    OrderIrrelevant(rows, Matching(b.entries, Window(None, asOf), ids), Through(t, i, asOf));
    MatchingTotal(b.entries, Window(None, asOf), ids, t, i, asOf);
  }

  function AsSet(ids: seq<nat>): set<nat> { set i | i in ids }

  function BalancesOf(b: Book, ids: seq<nat>, asOf: int): int {
    if ids == [] then 0
    else
      BalancesOf(b, ids[..|ids|-1], asOf)
      + if ids[|ids|-1] < |b.accounts| then BalanceThrough(b, ids[|ids|-1], asOf) else 0
  }

  function RowTotals(rows: seq<AgingRow>): int {
    if rows == [] then 0 else RowTotals(rows[..|rows|-1]) + rows[|rows|-1].total
  }

  /** One more account adds its total, whether or not it gets a row. */
  lemma RowsStep(rows: seq<Row>, t: AccountType, asOf: int, ids: seq<nat>)
    requires ids != []
    ensures var i := ids[|ids|-1];
            RowTotals(RowsOf(rows, t, asOf, ids)) == RowTotals(RowsOf(rows, t, asOf, ids[..|ids|-1]))
                                                   + RowOf(rows, t, asOf, i).total
  {
    var r, init := RowOf(rows, t, asOf, ids[|ids|-1]), RowsOf(rows, t, asOf, ids[..|ids|-1]);
    if AllZero(r.buckets) {
      SumFour(r.buckets);
      assert init + [] == init;
    } else {
      assert (init + [r])[..|init|] == init;
    }
  }

  lemma {:induction false} BucketTotalsAddUp(rows: seq<Row>, t: AccountType, asOf: int, ids: seq<nat>)
    ensures BucketTotal(rows, t, asOf, ids, 0) + BucketTotal(rows, t, asOf, ids, 1) + BucketTotal(rows, t, asOf, ids, 2)
            + BucketTotal(rows, t, asOf, ids, 3) == RowTotals(RowsOf(rows, t, asOf, ids))
  {
    if ids != [] {
      BucketTotalsAddUp(rows, t, asOf, ids[..|ids|-1]);
      SumFour(AccountBuckets(rows, t, asOf, ids[|ids|-1]));
      RowsStep(rows, t, asOf, ids);
    }
  }

  /** The listed accounts exist and are of the kind of the report. */
  ghost predicate Eligible(b: Book, ids: set<nat>, t: AccountType, list: seq<nat>) {
    forall k :: 0 <= k < |list| ==> list[k] in ids && list[k] < |b.accounts| && b.accounts[list[k]].accountType == t
  }

  lemma {:induction false} RowTotalsAreBalances(b: Book, asOf: int, ids: set<nat>, rows: seq<Row>, t: AccountType,
                                                list: seq<nat>)
    requires IsResult(rows, b, Window(None, asOf), ids) && Eligible(b, ids, t, list)
    ensures RowTotals(RowsOf(rows, t, asOf, list)) == BalancesOf(b, list, asOf)
  {
    if list != [] {
      RowTotalsAreBalances(b, asOf, ids, rows, t, list[..|list|-1]);
      AccountAgesToBalance(b, asOf, ids, rows, t, list[|list|-1]);
      RowsStep(rows, t, asOf, list);
    }
  }

  /** Down the columns and along the rows the aging report comes to the same grand total: the
      balances of the listed accounts as of the date, left-out accounts included. */
  lemma AgingTies(b: Book, asOf: int, codes: set<string>, required: AccountType, rows: seq<Row>)
    requires var ids := Named(b.accounts, codes, |b.accounts|);
             && IsResult(rows, b, Window(None, asOf), AsSet(ids))
             && forall k :: 0 <= k < |ids| ==> b.accounts[ids[k]].accountType == required
    ensures var ids := Named(b.accounts, codes, |b.accounts|);
            var report := ReportOf(rows, required, asOf, ids);
            report.grandTotal == RowTotals(report.rows) == BalancesOf(b, ids, asOf)
  {
    var ids := Named(b.accounts, codes, |b.accounts|);
    SumFour(BucketTotals(rows, required, asOf, ids));
    BucketTotalsAddUp(rows, required, asOf, ids);
    RowTotalsAreBalances(b, asOf, AsSet(ids), rows, required, ids);
  }

  // ----- what a bucket holds ---------------------------------------------------------------------------

  /** Rows aged 0 to 30, 31 to 60, 61 to 90 and from 91 days on. */
  lemma {:induction false} BucketsByDay(rows: seq<Row>, t: AccountType, asOf: int, i: nat)
    requires forall k :: 0 <= k < |rows| ==> rows[k].date <= asOf
    ensures BucketSum(rows, t, asOf, i, 0)
         == SumOver(rows, Through(t, i, asOf)) - SumOver(rows, Through(t, i, asOf - 31))
    ensures BucketSum(rows, t, asOf, i, 1)
         == SumOver(rows, Through(t, i, asOf - 31)) - SumOver(rows, Through(t, i, asOf - 61))
    ensures BucketSum(rows, t, asOf, i, 2)
         == SumOver(rows, Through(t, i, asOf - 61)) - SumOver(rows, Through(t, i, asOf - 91))
    ensures BucketSum(rows, t, asOf, i, 3) == SumOver(rows, Through(t, i, asOf - 91))
  {
    if rows != [] { BucketsByDay(rows[..|rows|-1], t, asOf, i); }
  }

  lemma ThroughIsPosted(b: Book, asOf: int, ids: set<nat>, rows: seq<Row>, t: AccountType, i: nat, day: int)
    requires IsResult(rows, b, Window(None, asOf), ids) && i in ids && day <= asOf
    ensures SumOver(rows, Through(t, i, day)) == PostedIn(b, t, i, Window(None, day))
  {
    OrderIrrelevant(rows, Matching(b.entries, Window(None, asOf), ids), Through(t, i, day));
    MatchingTotal(b.entries, Window(None, asOf), ids, t, i, day);
    assert Cut(Window(None, asOf), day) == Window(None, day);
  }

  lemma PostedBetween(b: Book, t: AccountType, i: nat, first: int, last: int)
    requires first <= last
    ensures PostedIn(b, t, i, Window(Some(first), last))
         == PostedIn(b, t, i, Window(None, last)) - PostedIn(b, t, i, Window(None, first - 1))
  {
    WindowSplit(b.entries, first, last, {i}, Debit);
    WindowSplit(b.entries, first, last, {i}, Credit);
  }

  /** For any order of the fetched lines the four buckets of an account hold what was posted to it 0 to 30,
      31 to 60 and 61 to 90 days before the date, and earlier. */
  lemma BucketsAreWindows(b: Book, asOf: int, ids: set<nat>, rows: seq<Row>, t: AccountType, i: nat)
    requires IsResult(rows, b, Window(None, asOf), ids) && i in ids
    ensures AccountBuckets(rows, t, asOf, i) ==
              [PostedIn(b, t, i, Window(Some(asOf - 30), asOf)),
               PostedIn(b, t, i, Window(Some(asOf - 60), asOf - 31)),
               PostedIn(b, t, i, Window(Some(asOf - 90), asOf - 61)),
               PostedIn(b, t, i, Window(None, asOf - 91))]
  {
    ResultRows(rows, b, Window(None, asOf), ids);
    BucketsByDay(rows, t, asOf, i);
    ThroughIsPosted(b, asOf, ids, rows, t, i, asOf);
    ThroughIsPosted(b, asOf, ids, rows, t, i, asOf - 31);
    ThroughIsPosted(b, asOf, ids, rows, t, i, asOf - 61);
    ThroughIsPosted(b, asOf, ids, rows, t, i, asOf - 91);
    PostedBetween(b, t, i, asOf - 30, asOf);
    PostedBetween(b, t, i, asOf - 60, asOf - 31);
    PostedBetween(b, t, i, asOf - 90, asOf - 61);
  }

  /** An age is counted in whole days, and a line of the future counts as new. */
  lemma AgeIsDays(asOf: int, date: int)
    ensures date <= asOf ==> Age(asOf, date) == asOf - date
    ensures date > asOf ==> Age(asOf, date) == 0
  {
  }

  /** The report names exactly the accounts with one of the codes. */
  lemma {:induction false} NamedExactly(accounts: seq<Account>, codes: set<string>, n: nat, i: nat)
    requires n <= |accounts|
    ensures i in Named(accounts, codes, n) <==> i < n && accounts[i].code in codes
  {
    if n > 0 { NamedExactly(accounts, codes, n - 1, i); }
  }

  /** A named account has a row, with its buckets and their sum, exactly when some bucket is not zero. */
  lemma {:induction false} RowsExactly(rows: seq<Row>, t: AccountType, asOf: int, ids: seq<nat>, r: AgingRow)
    ensures r in RowsOf(rows, t, asOf, ids) <==>
              && r.account in ids && r.buckets == AccountBuckets(rows, t, asOf, r.account)
              && r.total == r.buckets[0] + r.buckets[1] + r.buckets[2] + r.buckets[3]
              && (r.buckets[0] != 0 || r.buckets[1] != 0 || r.buckets[2] != 0 || r.buckets[3] != 0)
  {
    if ids != [] {
      var init, last := ids[..|ids|-1], RowOf(rows, t, asOf, ids[|ids|-1]);
      RowsExactly(rows, t, asOf, init, r);
      SumFour(last.buckets);
      assert forall x :: x in ids <==> x in init || x == ids[|ids|-1];
    }
  }
}
