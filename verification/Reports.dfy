/** The general ledger of an account, and the aging of receivables and payables. */
module Reports {
  import opened Accounts
  import opened Ledger
  import opened Statements

  /** A posted line as a report query returns it. */
  datatype Row = Row(account: nat, date: int, debit: int, credit: int)

  // ----- the query ------------------------------------------------------------------------

  function LineRows(ls: seq<Line>, ids: set<nat>, date: int): seq<Row> {
    if ls == [] then []
    else
      var l := ls[|ls|-1];
      LineRows(ls[..|ls|-1], ids, date) + if l.account in ids then [Row(l.account, date, l.debit, l.credit)] else []
  }

  /** The lines of counted entries on the given accounts. */
  function Matching(es: seq<Entry>, w: Window, ids: set<nat>): seq<Row> {
    if es == [] then []
    else
      var e := es[|es|-1];
      Matching(es[..|es|-1], w, ids) + if Counts(e, w) then LineRows(e.lines, ids, e.date) else []
  }

  /** A result of the query: the matching lines in some order. */
  ghost predicate IsResult(rows: seq<Row>, b: Book, w: Window, ids: set<nat>) {
    multiset(rows) == multiset(Matching(b.entries, w, ids))
  }

  ghost predicate ByDate(rows: seq<Row>) { forall i, j :: 0 <= i < j < |rows| ==> rows[i].date <= rows[j].date }

  function SignedRow(t: AccountType, r: Row): int { Signed(t, r.debit, r.credit) }

  // ----- general ledger ---------------------------------------------------------------------

  datatype GeneralLedger = GeneralLedger(account: nat, opening: int, closing: int, rows: seq<(Row, int)>)

  datatype ReportError = AccountNotFound | NoCodes | WrongType

  /** The cumulative signed balance of an account at the end of a day. */
  function BalanceThrough(b: Book, i: nat, day: int): int
    requires i < |b.accounts|
  {
    BalanceOf(b, Window(None, day), i).signed
  }

  function RunningSum(rows: seq<Row>, t: AccountType): int {
    if rows == [] then 0 else RunningSum(rows[..|rows|-1], t) + SignedRow(t, rows[|rows|-1])
  }

  /** Each line with the balance after it. */
  function WithRunning(rows: seq<Row>, t: AccountType, opening: int): (r: seq<(Row, int)>)
    ensures |r| == |rows|
  {
    if rows == [] then []
    else WithRunning(rows[..|rows|-1], t, opening) + [(rows[|rows|-1], opening + RunningSum(rows, t))]
  }

  /** The ledger of account `i` over the fetched lines of a period that begins on `start`. */
  function LedgerOf(b: Book, i: nat, start: int, fetched: seq<Row>): GeneralLedger
    requires i < |b.accounts|
  {
    var opening, t := BalanceThrough(b, i, start - 1), b.accounts[i].accountType;
    GeneralLedger(i, opening, opening + RunningSum(fetched, t), WithRunning(fetched, t, opening))
  }

  /** `fetched` is what the query returns, in date order. */
  method GeneralLedgerFor(b: Book, i: nat, start: int, end: int, fetched: seq<Row>)
    returns (r: Result<GeneralLedger, ReportError>)
    ensures r == if i >= |b.accounts| then Err(AccountNotFound) else Ok(LedgerOf(b, i, start, fetched))
  {
    if i >= |b.accounts| {
      return Err(AccountNotFound);
    }
    var t := b.accounts[i].accountType;
    var opening := BalanceThrough(b, i, start - 1);
    var running := opening;
    var rows: seq<(Row, int)> := [];
    for k := 0 to |fetched|
      invariant running == opening + RunningSum(fetched[..k], t)
      invariant rows == WithRunning(fetched[..k], t, opening)
    {
      assert fetched[..k+1][..k] == fetched[..k];
      running := running + SignedRow(t, fetched[k]);
      rows := rows + [(fetched[k], running)];
    }
    assert fetched[..|fetched|] == fetched;
    return Ok(GeneralLedger(i, opening, running, rows));
  }

  // ----- aging ----------------------------------------------------------------------------------

  /** The least and greatest age in days of each bucket. */
  const BUCKETS: seq<(int, Option<int>)> := [(0, Some(30)), (31, Some(60)), (61, Some(90)), (91, None)]

  predicate InBucket(days: int, k: nat)
    requires k < |BUCKETS|
  {
    BUCKETS[k].0 <= days && (BUCKETS[k].1.None? || days <= BUCKETS[k].1.value)
  }

  method BucketFor(days: int) returns (k: nat)
    ensures k < |BUCKETS|
    ensures days >= 0 ==> InBucket(days, k) && forall l: nat :: l < |BUCKETS| && InBucket(days, l) ==> l == k
    ensures days < 0 ==> k == 0
  {
    for i := 0 to |BUCKETS|
      invariant forall l: nat :: l < i ==> !InBucket(days, l)
    {
      if InBucket(days, i) {
        return i;
      }
    }
    assert !InBucket(days, BucketOf(days));
    return 0;
  }

  function BucketOf(days: int): (k: nat)
    ensures k < |BUCKETS|
  {
    if days <= 30 then 0 else if days <= 60 then 1 else if days <= 90 then 2 else 3
  }

  function Age(asOf: int, date: int): int { if asOf < date then 0 else asOf - date }

  /** Signed sum of the lines of one account in one bucket. */
  function BucketSum(rows: seq<Row>, t: AccountType, asOf: int, i: nat, k: nat): int {
    if rows == [] then 0
    else
      var r := rows[|rows|-1];
      BucketSum(rows[..|rows|-1], t, asOf, i, k)
      + if r.account == i && BucketOf(Age(asOf, r.date)) == k then SignedRow(t, r) else 0
  }

  function AccountBuckets(rows: seq<Row>, t: AccountType, asOf: int, i: nat): (r: seq<int>)
    ensures |r| == |BUCKETS| && forall k :: 0 <= k < |BUCKETS| ==> r[k] == BucketSum(rows, t, asOf, i, k)
  {
    seq(|BUCKETS|, k requires 0 <= k < |BUCKETS| => BucketSum(rows, t, asOf, i, k))
  }

  function Sum(xs: seq<int>): int { if xs == [] then 0 else Sum(xs[..|xs|-1]) + xs[|xs|-1] }

  datatype AgingRow = AgingRow(account: nat, total: int, buckets: seq<int>)

  datatype AgingReport = AgingReport(rows: seq<AgingRow>, totals: seq<int>, grandTotal: int)

  function RowOf(rows: seq<Row>, t: AccountType, asOf: int, i: nat): AgingRow {
    AgingRow(i, Sum(AccountBuckets(rows, t, asOf, i)), AccountBuckets(rows, t, asOf, i))
  }

  predicate AllZero(xs: seq<int>) { forall k :: 0 <= k < |xs| ==> xs[k] == 0 }

  /** Accounts that are zero in every bucket get no row. */
  function RowsOf(rows: seq<Row>, t: AccountType, asOf: int, ids: seq<nat>): seq<AgingRow> {
    if ids == [] then []
    else
      var r := RowOf(rows, t, asOf, ids[|ids|-1]);
      RowsOf(rows, t, asOf, ids[..|ids|-1]) + if AllZero(r.buckets) then [] else [r]
  }

  /** One bucket over all the accounts. */
  function BucketTotal(rows: seq<Row>, t: AccountType, asOf: int, ids: seq<nat>, k: nat): int {
    if ids == [] then 0
    else BucketTotal(rows, t, asOf, ids[..|ids|-1], k) + BucketSum(rows, t, asOf, ids[|ids|-1], k)
  }

  function BucketTotals(rows: seq<Row>, t: AccountType, asOf: int, ids: seq<nat>): (r: seq<int>)
    ensures |r| == |BUCKETS| && forall k :: 0 <= k < |BUCKETS| ==> r[k] == BucketTotal(rows, t, asOf, ids, k)
  {
    seq(|BUCKETS|, k requires 0 <= k < |BUCKETS| => BucketTotal(rows, t, asOf, ids, k))
  }

  function ReportOf(rows: seq<Row>, t: AccountType, asOf: int, ids: seq<nat>): AgingReport {
    AgingReport(RowsOf(rows, t, asOf, ids), BucketTotals(rows, t, asOf, ids), Sum(BucketTotals(rows, t, asOf, ids)))
  }

  /** The accounts named by code among the first `n`. */
  function Named(accounts: seq<Account>, codes: set<string>, n: nat): (r: seq<nat>)
    requires n <= |accounts|
    ensures forall k :: 0 <= k < |r| ==> r[k] < n && accounts[r[k]].code in codes
  {
    if n == 0 then []
    else Named(accounts, codes, n - 1) + if accounts[n-1].code in codes then [n - 1] else []
  }

  /** The fold over the fetched lines: one dictionary of buckets an account. */
  method FillBuckets(fetched: seq<Row>, t: AccountType, asOf: int, ids: seq<nat>) returns (m: map<nat, seq<int>>)
    requires forall i :: 0 <= i < |fetched| ==> fetched[i].account in ids
    ensures m.Keys == (set i | i in ids) && forall i :: i in ids ==> m[i] == AccountBuckets(fetched, t, asOf, i)
  {
    m := map i | i in ids :: [0, 0, 0, 0];
    for n := 0 to |fetched|
      invariant m.Keys == (set i | i in ids)
      invariant forall i :: i in ids ==> m[i] == AccountBuckets(fetched[..n], t, asOf, i)
    {
      var r := fetched[n];
      assert fetched[..n+1][..n] == fetched[..n];
      var k := BucketFor(Age(asOf, r.date));
      assert k == BucketOf(Age(asOf, r.date));
      m := m[r.account := m[r.account][k := m[r.account][k] + SignedRow(t, r)]];
    }
    assert fetched[..|fetched|] == fetched;
  }

  method Aging(b: Book, asOf: int, codes: set<string>, required: AccountType, fetched: seq<Row>)
    returns (r: Result<AgingReport, ReportError>)
    requires forall i :: 0 <= i < |fetched| ==> fetched[i].account in Named(b.accounts, codes, |b.accounts|)
    ensures var ids := Named(b.accounts, codes, |b.accounts|);
            r == if codes == {} then Err(NoCodes)
                 else if ids == [] then Err(AccountNotFound)
                 else if exists i :: 0 <= i < |ids| && b.accounts[ids[i]].accountType != required then Err(WrongType)
                 else Ok(ReportOf(fetched, required, asOf, ids))
  {
    if codes == {} {
      return Err(NoCodes);
    }
    var ids := Named(b.accounts, codes, |b.accounts|);
    if |ids| == 0 {
      return Err(AccountNotFound);
    }
    for i := 0 to |ids|
      invariant forall k :: 0 <= k < i ==> b.accounts[ids[k]].accountType == required
    {
      if b.accounts[ids[i]].accountType != required {
        return Err(WrongType);
      }
    }
    var m := FillBuckets(fetched, required, asOf, ids);
    var rows: seq<AgingRow> := [];
    for i := 0 to |ids|
      invariant rows == RowsOf(fetched, required, asOf, ids[..i])
    {
      assert ids[..i+1][..i] == ids[..i];
      var buckets := m[ids[i]];
      if !AllZero(buckets) {
        rows := rows + [AgingRow(ids[i], Sum(buckets), buckets)];
      }
    }
    assert ids[..|ids|] == ids;
    var totals := AddUp(m, fetched, required, asOf, ids);
    return Ok(AgingReport(rows, totals, Sum(totals)));
  }

  method AddUp(m: map<nat, seq<int>>, fetched: seq<Row>, t: AccountType, asOf: int, ids: seq<nat>)
    returns (totals: seq<int>)
    requires forall i :: i in ids ==> i in m && m[i] == AccountBuckets(fetched, t, asOf, i)
    ensures totals == BucketTotals(fetched, t, asOf, ids)
  {
    totals := [];
    for k := 0 to |BUCKETS|
      invariant totals == BucketTotals(fetched, t, asOf, ids)[..k]
    {
      var sum := 0;
      for i := 0 to |ids|
        invariant sum == BucketTotal(fetched, t, asOf, ids[..i], k)
      {
        assert ids[..i+1][..i] == ids[..i];
        sum := sum + m[ids[i]][k];
      }
      assert ids[..|ids|] == ids;
      totals := totals + [sum];
    }
  }
}
