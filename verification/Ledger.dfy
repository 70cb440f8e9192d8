/** Posting and reversing journal entries. Stored money is an integer count of
    1/10000 units (a `Numeric(20,4)` column); submitted money is a real. */
module Ledger {
  import opened Accounts

  datatype Side = Debit | Credit

  datatype Line = Line(account: nat, debit: int, credit: int)

  datatype LineInput = LineInput(account: nat, debit: real, credit: real)

  datatype EntryStatus = Draft | Posted | Reversed

  datatype Entry = Entry(period: nat, date: int, lines: seq<Line>, status: EntryStatus)

  datatype Period = Period(start: int, end: int, isLocked: bool)

  datatype Book = Book(accounts: seq<Account>, periods: seq<Period>, entries: seq<Entry>)

  datatype Error =
    | Unbalanced
    | CrossTenant
    | PeriodLocked
    | InvalidAccount
    | CheckViolation
    | NumericOverflow

  // ----- money ------------------------------------------------------------

  const SCALE: real := 10000.0
  const COLUMN_LIMIT: int := 100_000_000_000_000_000_000

  /** What a `Numeric(20,4)` column keeps of a non-negative amount: half a unit rounds up. */
  function Store(x: real): int {
    (x * SCALE + 0.5).Floor
  }

  predicate FourDecimals(x: real) {
    (x * SCALE).Floor as real == x * SCALE
  }

  function Stored(l: LineInput): Line {
    Line(l.account, Store(l.debit), Store(l.credit))
  }

  function StoredLines(ls: seq<LineInput>): (r: seq<Line>)
    ensures |r| == |ls| && forall i :: 0 <= i < |ls| ==> r[i] == Stored(ls[i])
  {
    seq(|ls|, i requires 0 <= i < |ls| => Stored(ls[i]))
  }

  function Amount(l: Line, side: Side): int {
    if side == Debit then l.debit else l.credit
  }

  /** Sum of one side of a list of lines. */
  function Total(ls: seq<Line>, side: Side): int {
    if ls == [] then 0 else Total(ls[..|ls|-1], side) + Amount(ls[|ls|-1], side)
  }

  function InputTotal(ls: seq<LineInput>, side: Side): real {
    if ls == [] then 0.0
    else InputTotal(ls[..|ls|-1], side) + if side == Debit then ls[|ls|-1].debit else ls[|ls|-1].credit
  }

  // ----- specification of post and reverse --------------------------------

  predicate OneSidedInput(l: LineInput) {
    l.debit >= 0.0 && l.credit >= 0.0 && (l.debit > 0.0) != (l.credit > 0.0)
  }

  /** The table's CHECK constraints. */
  predicate OneSided(l: Line) {
    l.debit >= 0 && l.credit >= 0 && (l.debit == 0) != (l.credit == 0)
  }

  predicate FitsColumn(l: Line) {
    l.debit < COLUMN_LIMIT && l.credit < COLUMN_LIMIT
  }

  predicate ValidInput(ls: seq<LineInput>) {
    && |ls| >= 2
    && (forall i :: 0 <= i < |ls| ==> OneSidedInput(ls[i]))
    && InputTotal(ls, Debit) == InputTotal(ls, Credit)
    && InputTotal(ls, Debit) != 0.0
  }

  predicate OpenFor(b: Book, period: nat, date: int) {
    && period < |b.periods|
    && !b.periods[period].isLocked
    && b.periods[period].start <= date <= b.periods[period].end
  }

  predicate Postable(b: Book, account: nat) {
    account < |b.accounts| && b.accounts[account].isActive && b.accounts[account].isLeaf
  }

  /** The re-aggregation after the flush. */
  predicate FlushCheck(ls: seq<Line>, expected: real) {
    Total(ls, Debit) == Total(ls, Credit) && Total(ls, Debit) as real == expected * SCALE
  }

  /** The session after `post`, and what it returns or raises. On the last three
      errors rows have already been written. */
  function PostSpec(b: Book, period: nat, date: int, ls: seq<LineInput>): (r: (Book, Result<nat, Error>))
    ensures b.entries <= r.0.entries && r.0.accounts == b.accounts && r.0.periods == b.periods
  {
    if !ValidInput(ls) then (b, Err(Unbalanced))
    else if period >= |b.periods| then (b, Err(CrossTenant))
    else if !OpenFor(b, period, date) then (b, Err(PeriodLocked))
    else if exists i :: 0 <= i < |ls| && !Postable(b, ls[i].account) then (b, Err(InvalidAccount))
    else
      var stored := StoredLines(ls);
      var id := |b.entries|;
      var header := b.(entries := b.entries + [Entry(period, date, [], Posted)]);
      if exists i :: 0 <= i < |ls| && !FitsColumn(stored[i]) then (header, Err(NumericOverflow))
      else if exists i :: 0 <= i < |ls| && !OneSided(stored[i]) then (header, Err(CheckViolation))
      else
        var written := b.(entries := b.entries + [Entry(period, date, stored, Posted)]);
        if FlushCheck(stored, InputTotal(ls, Debit)) then (written, Ok(id))
        else (written, Err(Unbalanced))
  }

  function Mirror(l: Line): LineInput {
    LineInput(l.account, l.credit as real / SCALE, l.debit as real / SCALE)
  }

  function MirrorLines(ls: seq<Line>): (r: seq<LineInput>)
    ensures |r| == |ls| && forall i :: 0 <= i < |ls| ==> r[i] == Mirror(ls[i])
  {
    seq(|ls|, i requires 0 <= i < |ls| => Mirror(ls[i]))
  }

  function ReverseSpec(b: Book, id: nat): (Book, Result<nat, Error>) {
    if id >= |b.entries| then (b, Err(CrossTenant))
    else
      var original := b.entries[id];
      if original.status != Posted then (b, Err(Unbalanced))
      else
        var (b1, r) := PostSpec(b, original.period, original.date, MirrorLines(original.lines));
        if r.Err? then (b1, r)
        else (b1.(entries := b1.entries[id := b1.entries[id].(status := Reversed)]), r)
  }

  /** `tenant_session`: the work is kept on a clean exit and undone on a raise. */
  function Commit(before: Book, after: (Book, Result<nat, Error>)): Book {
    if after.1.Ok? then after.0 else before
  }

  // ----- the service ------------------------------------------------------

  class LedgerService {
    var accounts: seq<Account>
    var periods: seq<Period>
    var entries: seq<Entry>

    function Contents(): Book
      reads this
    {
      Book(accounts, periods, entries)
    }

    constructor ()
      ensures Contents() == Book([], [], [])
    {
      accounts, periods, entries := [], [], [];
    }

    static method ValidateLines(ls: seq<LineInput>) returns (r: Result<real, Error>)
      ensures r == if ValidInput(ls) then Ok(InputTotal(ls, Debit)) else Err(Unbalanced)
    {
      if |ls| < 2 {
        return Err(Unbalanced);
      }
      var debits, credits := 0.0, 0.0;
      for i := 0 to |ls|
        invariant forall k :: 0 <= k < i ==> OneSidedInput(ls[k])
        invariant debits == InputTotal(ls[..i], Debit)
        invariant credits == InputTotal(ls[..i], Credit)
      {
        var l := ls[i];
        if l.debit < 0.0 || l.credit < 0.0 {
          return Err(Unbalanced);
        }
        if (l.debit > 0.0) == (l.credit > 0.0) {
          return Err(Unbalanced);
        }
        debits, credits := debits + l.debit, credits + l.credit;
        assert ls[..i+1][..i] == ls[..i];
      }
      assert ls[..|ls|] == ls;
      if debits != credits || debits == 0.0 {
        return Err(Unbalanced);
      }
      return Ok(debits);
    }

    method Post(period: nat, date: int, ls: seq<LineInput>) returns (r: Result<nat, Error>)
      modifies this
      ensures (Contents(), r) == PostSpec(old(Contents()), period, date, ls)
    {
      var v := ValidateLines(ls);
      if v.Err? {
        return Err(v.error);
      }
      if period >= |periods| {
        return Err(CrossTenant);
      }
      var p := periods[period];
      if p.isLocked || !(p.start <= date <= p.end) {
        return Err(PeriodLocked);
      }
      for i := 0 to |ls|
        invariant forall k :: 0 <= k < i ==> Postable(Contents(), ls[k].account)
      {
        var a := ls[i].account;
        if a >= |accounts| || !accounts[a].isActive || !accounts[a].isLeaf {
          assert !Postable(Contents(), ls[i].account);
          return Err(InvalidAccount);
        }
      }
      r := WriteEntry(period, date, ls, v.value);
    }

    /** Header, lines, flush, and the re-aggregation from the stored rows. */
    method WriteEntry(period: nat, date: int, ls: seq<LineInput>, expected: real) returns (r: Result<nat, Error>)
      modifies `entries
      ensures var stored := StoredLines(ls);
              if exists i :: 0 <= i < |ls| && !FitsColumn(stored[i]) then
                r == Err(NumericOverflow) && entries == old(entries) + [Entry(period, date, [], Posted)]
              else if exists i :: 0 <= i < |ls| && !OneSided(stored[i]) then
                r == Err(CheckViolation) && entries == old(entries) + [Entry(period, date, [], Posted)]
              else
                && entries == old(entries) + [Entry(period, date, stored, Posted)]
                && r == if FlushCheck(stored, expected) then Ok(|old(entries)|) else Err(Unbalanced)
    {
      var id := |entries|;
      entries := entries + [Entry(period, date, [], Posted)];
      var rows: seq<Line> := [];
      var dbDebits, dbCredits := 0, 0;
      var overflow, broken := false, false;
      for i := 0 to |ls|
        invariant rows == StoredLines(ls)[..i]
        invariant dbDebits == Total(rows, Debit) && dbCredits == Total(rows, Credit)
        invariant overflow <==> exists k :: 0 <= k < i && !FitsColumn(StoredLines(ls)[k])
        invariant broken <==> exists k :: 0 <= k < i && !OneSided(StoredLines(ls)[k])
      {
        var row := Stored(ls[i]);
        assert row == StoredLines(ls)[i];
        overflow, broken := overflow || !FitsColumn(row), broken || !OneSided(row);
        assert (rows + [row])[..|rows|] == rows;
        rows := rows + [row];
        dbDebits, dbCredits := dbDebits + row.debit, dbCredits + row.credit;
      }
      assert StoredLines(ls)[..|ls|] == StoredLines(ls);
      if overflow {
        return Err(NumericOverflow);
      }
      if broken {
        return Err(CheckViolation);
      }
      entries := entries[id := entries[id].(lines := rows)];
      if dbDebits != dbCredits || dbDebits as real != expected * SCALE {
        return Err(Unbalanced);
      }
      return Ok(id);
    }

    method Reverse(id: nat) returns (r: Result<nat, Error>)
      modifies this
      ensures (Contents(), r) == ReverseSpec(old(Contents()), id)
    {
      if id >= |entries| {
        return Err(CrossTenant);
      }
      var original := entries[id];
      if original.status != Posted {
        return Err(Unbalanced);
      }
      r := Post(original.period, original.date, MirrorLines(original.lines));
      if r.Err? {
        return;
      }
      entries := entries[id := entries[id].(status := Reversed)];
    }

    /** One request that posts, inside its own transaction. */
    method PostInTransaction(period: nat, date: int, ls: seq<LineInput>) returns (r: Result<nat, Error>)
      modifies this
      ensures var (b, res) := PostSpec(old(Contents()), period, date, ls);
              r == res && Contents() == Commit(old(Contents()), (b, res))
    {
      var a, p, e := accounts, periods, entries;
      r := Post(period, date, ls);
      if r.Err? {
        accounts, periods, entries := a, p, e;
      }
    }

    method ReverseInTransaction(id: nat) returns (r: Result<nat, Error>)
      modifies this
      ensures var (b, res) := ReverseSpec(old(Contents()), id);
              r == res && Contents() == Commit(old(Contents()), (b, res))
    {
      var a, p, e := accounts, periods, entries;
      r := Reverse(id);
      if r.Err? {
        accounts, periods, entries := a, p, e;
      }
    }
  }
}
