/** What every committed operation keeps, and what posting and reversing do to a book. */
module LedgerRuns {
  import opened Accounts
  import opened Ledger

  // ----- the reachable books ----------------------------------------------

  datatype Op =
    | AddAccounts(rows: seq<Account>)
    | CreatePeriod(start: int, end: int)
    | SetLock(period: nat, locked: bool)
    | PostOp(period: nat, date: int, lines: seq<LineInput>)
    | ReverseOp(id: nat)

  /** One committed request; a refused one leaves the book as it was. */
  function Apply(b: Book, op: Op): Book {
    match op
    case AddAccounts(rows) =>
      if DistinctCodes(b.accounts + rows) then b.(accounts := b.accounts + rows) else b
    case CreatePeriod(start, end) =>
      if NewPeriod(b, start, end) then b.(periods := b.periods + [Period(start, end, false)]) else b
    case SetLock(p, locked) =>
      if p < |b.periods| then b.(periods := b.periods[p := b.periods[p].(isLocked := locked)]) else b
    case PostOp(p, date, ls) => Commit(b, PostSpec(b, p, date, ls))
    case ReverseOp(id) => Commit(b, ReverseSpec(b, id))
  }

  /** A period may not be inverted, and its dates are a unique key. */
  predicate NewPeriod(b: Book, start: int, end: int) {
    start <= end && forall p :: 0 <= p < |b.periods| ==> !(b.periods[p].start == start && b.periods[p].end == end)
  }

  function Run(ops: seq<Op>): Book {
    if ops == [] then Book([], [], []) else Apply(Run(ops[..|ops|-1]), ops[|ops|-1])
  }

  ghost predicate EntryOk(b: Book, e: Entry) {
    && e.status != Draft
    && e.period < |b.periods|
    && b.periods[e.period].start <= e.date <= b.periods[e.period].end
    && |e.lines| >= 2
    && (forall i :: 0 <= i < |e.lines| ==>
      OneSided(e.lines[i]) && FitsColumn(e.lines[i]) && Postable(b, e.lines[i].account))
    && Total(e.lines, Debit) == Total(e.lines, Credit) > 0
  }

  ghost predicate BookOk(b: Book) {
    && DistinctCodes(b.accounts)
    && (forall p :: 0 <= p < |b.periods| ==> b.periods[p].start <= b.periods[p].end)
    && forall k :: 0 <= k < |b.entries| ==> EntryOk(b, b.entries[k])
  }

  /** Every reachable book is balanced entry by entry and posts to leaves only. */
  lemma {:induction false} RunOk(ops: seq<Op>)
    ensures BookOk(Run(ops))
  {
    if ops != [] {
      var b, op := Run(ops[..|ops|-1]), ops[|ops|-1];
      RunOk(ops[..|ops|-1]);
      match op
      case AddAccounts(rows) =>
        forall k | 0 <= k < |b.entries| ensures EntryOk(Run(ops), b.entries[k]) {
          assert EntryOk(b, b.entries[k]);
        }
      case CreatePeriod(_, _) =>
        forall k | 0 <= k < |b.entries| ensures EntryOk(Run(ops), b.entries[k]) {
          assert EntryOk(b, b.entries[k]);
        }
      case SetLock(_, _) =>
        forall k | 0 <= k < |b.entries| ensures EntryOk(Run(ops), b.entries[k]) {
          assert EntryOk(b, b.entries[k]);
        }
      case PostOp(p, date, ls) => PostOk(b, p, date, ls);
      case ReverseOp(id) => ReverseOk(b, id);
    }
  }

  lemma PostOk(b: Book, p: nat, date: int, ls: seq<LineInput>)
    requires BookOk(b)
    ensures BookOk(Commit(b, PostSpec(b, p, date, ls)))
  {
    var (b1, r) := PostSpec(b, p, date, ls);
    if r.Ok? {
      forall k | 0 <= k < |b1.entries| ensures EntryOk(b1, b1.entries[k]) {
        if k < |b.entries| {
          assert EntryOk(b, b.entries[k]);
        } else {
          InputTotalSign(ls, Debit);
        }
      }
    }
  }

  lemma ReverseOk(b: Book, id: nat)
    requires BookOk(b)
    ensures BookOk(Commit(b, ReverseSpec(b, id)))
  {
    var (b2, r) := ReverseSpec(b, id);
    if r.Ok? {
      var e := b.entries[id];
      PostOk(b, e.period, e.date, MirrorLines(e.lines));
      var b1 := PostSpec(b, e.period, e.date, MirrorLines(e.lines)).0;
      forall k | 0 <= k < |b2.entries| ensures EntryOk(b2, b2.entries[k]) {
        assert EntryOk(b1, b1.entries[k]);
      }
    }
  }

  lemma {:induction false} InputTotalSign(ls: seq<LineInput>, side: Side)
    requires forall i :: 0 <= i < |ls| ==> OneSidedInput(ls[i])
    ensures InputTotal(ls, side) >= 0.0
  {
    if ls != [] {
      InputTotalSign(ls[..|ls|-1], side);
    }
  }

  // ----- storage rounding ---------------------------------------------------

  lemma StoreExact(n: int)
    ensures Store(n as real / SCALE) == n
  {
    assert n as real / SCALE * SCALE == n as real;
  }

  /** Stored debits, stored credits and the unrounded total of a committed entry agree. */
  lemma CommittedEntryIsExact(b: Book, p: nat, date: int, ls: seq<LineInput>)
    requires PostSpec(b, p, date, ls).1.Ok?
    ensures var e := PostSpec(b, p, date, ls).0.entries[|b.entries|];
            && |PostSpec(b, p, date, ls).0.entries| == |b.entries| + 1
            && Total(e.lines, Debit) as real == InputTotal(ls, Debit) * SCALE
            && Total(e.lines, Credit) as real == InputTotal(ls, Credit) * SCALE
            && e.status == Posted && e.period == p && e.date == date
            && |e.lines| == |ls|
            && forall i :: 0 <= i < |ls| ==>
                 e.lines[i].account == ls[i].account && OneSided(e.lines[i])
                 && (e.lines[i].debit == 0 <==> ls[i].debit == 0.0)
  {
    var stored := StoredLines(ls);
    forall i | 0 <= i < |ls| ensures stored[i].debit == 0 <==> ls[i].debit == 0.0 {
      assert OneSidedInput(ls[i]) && OneSided(stored[i]);
      assert ls[i].debit == 0.0 ==> Store(ls[i].debit) == 0;
      assert ls[i].credit == 0.0 ==> Store(ls[i].credit) == 0;
    }
  }

  lemma {:induction false} FourDecimalTotals(ls: seq<LineInput>, side: Side)
    requires forall i :: 0 <= i < |ls| ==> FourDecimals(ls[i].debit) && FourDecimals(ls[i].credit)
    ensures Total(StoredLines(ls), side) as real == InputTotal(ls, side) * SCALE
  {
    if ls != [] {
      var n := |ls| - 1;
      FourDecimalTotals(ls[..n], side);
      assert StoredLines(ls)[..n] == StoredLines(ls[..n]);
      assert FourDecimals(ls[n].debit) && FourDecimals(ls[n].credit);
      var x := if side == Debit then ls[n].debit else ls[n].credit;
      assert FourDecimals(x) && Amount(StoredLines(ls)[n], side) == Store(x);
      FourDecimalStore(x);
    }
  }

  lemma FourDecimalStore(x: real)
    requires FourDecimals(x)
    ensures Store(x) as real == x * SCALE
  {
    FloorOfHalf((x * SCALE).Floor);
  }

  lemma FloorOfHalf(n: int)
    ensures (n as real + 0.5).Floor == n
  {
  }

  /** With at most four decimals everything the validator accepts is committed:
      nothing can be refused after the rows are written, short of the column width. */
  lemma FourDecimalsNeverRefusedLate(b: Book, p: nat, date: int, ls: seq<LineInput>)
    requires ValidInput(ls) && OpenFor(b, p, date)
    requires forall i :: 0 <= i < |ls| ==> Postable(b, ls[i].account)
    requires forall i :: 0 <= i < |ls| ==> FourDecimals(ls[i].debit) && FourDecimals(ls[i].credit)
    ensures PostSpec(b, p, date, ls).1 ==
              if forall i :: 0 <= i < |ls| ==> FitsColumn(Stored(ls[i])) then Ok(|b.entries|) else Err(NumericOverflow)
  {
    FourDecimalTotals(ls, Debit);
    FourDecimalTotals(ls, Credit);
    forall i | 0 <= i < |ls| ensures OneSided(StoredLines(ls)[i]) {
      assert OneSidedInput(ls[i]);
      FourDecimalStore(ls[i].debit);
      FourDecimalStore(ls[i].credit);
    }
  }

  /** What storing a side at four decimals adds to its sum. */
  function RoundingError(ls: seq<LineInput>, side: Side): real {
    if ls == [] then 0.0
    else
      var x := if side == Debit then ls[|ls|-1].debit else ls[|ls|-1].credit;
      RoundingError(ls[..|ls|-1], side) + (Store(x) as real - x * SCALE)
  }

  lemma {:induction false} StoredIsRounded(ls: seq<LineInput>, side: Side)
    ensures Total(StoredLines(ls), side) as real == InputTotal(ls, side) * SCALE + RoundingError(ls, side)
  {
    if ls != [] {
      var n := |ls| - 1;
      StoredIsRounded(ls[..n], side);
      assert StoredLines(ls)[..n] == StoredLines(ls[..n]);
    }
  }

  /** Too small to leave a trace: the amount is stored as zero. */
  predicate Vanishes(l: LineInput) { l.debit < 0.00005 && l.credit < 0.00005 }

  /** The exact fate of an input that passes validation, with any number of lines: it is committed if
      and only if every line fits its column, none is stored as zero, and the rounding errors of each
      side cancel out. */
  lemma {:induction false} EntryOutcome(b: Book, p: nat, date: int, ls: seq<LineInput>)
    requires ValidInput(ls) && OpenFor(b, p, date)
    requires forall i :: 0 <= i < |ls| ==> Postable(b, ls[i].account)
    ensures PostSpec(b, p, date, ls).1 ==
              if exists i :: 0 <= i < |ls| && !FitsColumn(Stored(ls[i])) then Err(NumericOverflow)
              else if exists i :: 0 <= i < |ls| && Vanishes(ls[i]) then Err(CheckViolation)
              else if RoundingError(ls, Debit) == 0.0 && RoundingError(ls, Credit) == 0.0 then Ok(|b.entries|)
              else Err(Unbalanced)
  {
    StoredIsRounded(ls, Debit);
    StoredIsRounded(ls, Credit);
    forall i | 0 <= i < |ls| ensures OneSided(StoredLines(ls)[i]) <==> !Vanishes(ls[i]) {
      assert OneSidedInput(ls[i]);
      StoreFacts(ls[i].debit);
      StoreFacts(ls[i].credit);
    }
    assert FlushCheck(StoredLines(ls), InputTotal(ls, Debit))
      <==> RoundingError(ls, Debit) == 0.0 && RoundingError(ls, Credit) == 0.0;
  }

  function TwoLines(a: nat, c: nat, x: real): seq<LineInput> {
    [LineInput(a, x, 0.0), LineInput(c, 0.0, x)]
  }

  /** The exact fate of a two-line entry: both stored sides agree, yet a fifth
      decimal still trips the comparison with the unrounded total. */
  lemma TwoLineOutcome(b: Book, p: nat, date: int, a: nat, c: nat, x: real)
    requires OpenFor(b, p, date) && Postable(b, a) && Postable(b, c) && x > 0.0
    ensures PostSpec(b, p, date, TwoLines(a, c, x)).1 ==
              if Store(x) >= COLUMN_LIMIT then Err(NumericOverflow)
              else if x < 0.00005 then Err(CheckViolation)
              else if FourDecimals(x) then Ok(|b.entries|)
              else Err(Unbalanced)
  {
    var ls := TwoLines(a, c, x);
    TwoInputTotals(a, c, x);
    StoreFacts(x);
    var st := StoredLines(ls);
    assert st == [Line(a, Store(x), 0), Line(c, 0, Store(x))];
    TotalOfTwo(st, Debit);
    TotalOfTwo(st, Credit);
    assert !FitsColumn(st[0]) <==> Store(x) >= COLUMN_LIMIT;
    assert OneSided(st[0]) && OneSided(st[1]) <==> Store(x) > 0;
    assert FlushCheck(st, x) <==> FourDecimals(x);
  }

  lemma TwoInputTotals(a: nat, c: nat, x: real)
    requires x > 0.0
    ensures InputTotal(TwoLines(a, c, x), Debit) == x && InputTotal(TwoLines(a, c, x), Credit) == x
  {
    var ls := TwoLines(a, c, x);
    InputTotalOfTwo(ls, Debit);
    InputTotalOfTwo(ls, Credit);
  }

  lemma InputTotalOfTwo(ls: seq<LineInput>, side: Side)
    requires |ls| == 2
    ensures InputTotal(ls, side) ==
              if side == Debit then ls[0].debit + ls[1].debit else ls[0].credit + ls[1].credit
  {
    assert ls[..1] == [ls[0]];
    assert [ls[0]][..0] == [];
    assert InputTotal([ls[0]], side) == if side == Debit then ls[0].debit else ls[0].credit;
  }

  lemma StoreFacts(x: real)
    requires x >= 0.0
    ensures Store(x) >= 0 && Store(0.0) == 0
    ensures Store(x) == 0 <==> x < 0.00005
    ensures FourDecimals(x) <==> Store(x) as real == x * SCALE
  {
    ExactStore(x);
  }

  lemma ExactStore(x: real)
    ensures FourDecimals(x) <==> Store(x) as real == x * SCALE
  {
    if FourDecimals(x) {
      FourDecimalStore(x);
    } else if Store(x) as real == x * SCALE {
      FloorOfInt(Store(x));
    }
  }

  lemma FloorOfInt(n: int)
    ensures (n as real).Floor == n
  {
  }

  /** An input that balances can still be refused once its lines are rounded: 0.00015
      twice against 0.0003 is stored as 0.0002 + 0.0002 against 0.0003. */
  lemma BalancedInputRefused(b: Book, p: nat, date: int, a: nat)
    requires OpenFor(b, p, date) && Postable(b, a)
    ensures var ls := [LineInput(a, 0.00015, 0.0), LineInput(a, 0.00015, 0.0), LineInput(a, 0.0, 0.0003)];
            ValidInput(ls) && PostSpec(b, p, date, ls).1 == Err(Unbalanced)
  {
    var ls := [LineInput(a, 0.00015, 0.0), LineInput(a, 0.00015, 0.0), LineInput(a, 0.0, 0.0003)];
    assert ls[..2] == [ls[0], ls[1]];
    InputTotalOfTwo(ls[..2], Debit);
    InputTotalOfTwo(ls[..2], Credit);
    var st := StoredLines(ls);
    assert st == [Line(a, 2, 0), Line(a, 2, 0), Line(a, 0, 3)];
    assert st[..2] == [st[0], st[1]];
    TotalOfTwo(st[..2], Debit);
    TotalOfTwo(st[..2], Credit);
    assert Total(st, Debit) == 4 && Total(st, Credit) == 3;
  }

  lemma TotalOfTwo(ls: seq<Line>, side: Side)
    requires |ls| == 2
    ensures Total(ls, side) == Amount(ls[0], side) + Amount(ls[1], side)
  {
    assert ls[..1] == [ls[0]];
    assert [ls[0]][..0] == [];
    assert Total([ls[0]], side) == Amount(ls[0], side);
  }

  // ----- reversal -----------------------------------------------------------

  function Swap(ls: seq<Line>): (r: seq<Line>)
    ensures |r| == |ls|
    ensures forall i :: 0 <= i < |ls| ==> r[i] == Line(ls[i].account, ls[i].credit, ls[i].debit)
  {
    seq(|ls|, i requires 0 <= i < |ls| => Line(ls[i].account, ls[i].credit, ls[i].debit))
  }

  lemma MirrorIsSwap(ls: seq<Line>)
    ensures StoredLines(MirrorLines(ls)) == Swap(ls)
  {
    forall i | 0 <= i < |ls| ensures StoredLines(MirrorLines(ls))[i] == Swap(ls)[i] {
      StoreExact(ls[i].debit);
      StoreExact(ls[i].credit);
    }
  }

  lemma {:induction false} MirrorTotals(ls: seq<Line>)
    ensures InputTotal(MirrorLines(ls), Debit) * SCALE == Total(ls, Credit) as real
    ensures InputTotal(MirrorLines(ls), Credit) * SCALE == Total(ls, Debit) as real
  {
    if ls != [] {
      var n := |ls| - 1;
      MirrorTotals(ls[..n]);
      assert MirrorLines(ls)[..n] == MirrorLines(ls[..n]);
    }
  }

  lemma {:induction false} SwapTotals(ls: seq<Line>)
    ensures Total(Swap(ls), Debit) == Total(ls, Credit)
    ensures Total(Swap(ls), Credit) == Total(ls, Debit)
  {
    if ls != [] {
      var n := |ls| - 1;
      SwapTotals(ls[..n]);
      assert Swap(ls)[..n] == Swap(ls[..n]);
    }
  }

  /** In a reachable book `reverse` succeeds exactly on a posted entry of an unlocked
      period; it appends the mirror entry, posted, and marks the original reversed. */
  lemma ReverseOutcome(b: Book, id: nat)
    requires BookOk(b)
    ensures ReverseSpec(b, id).1.Ok? <==>
              id < |b.entries| && b.entries[id].status == Posted && !b.periods[b.entries[id].period].isLocked
    ensures ReverseSpec(b, id).1.Ok? ==>
              var e := b.entries[id];
              && ReverseSpec(b, id).1 == Ok(|b.entries|)
              && ReverseSpec(b, id).0 == b.(entries :=
                b.entries[id := e.(status := Reversed)] + [Entry(e.period, e.date, Swap(e.lines), Posted)])
  {
    if id < |b.entries| && b.entries[id].status == Posted {
      var e := b.entries[id];
      assert EntryOk(b, e);
      var ls := MirrorLines(e.lines);
      MirrorIsSwap(e.lines);
      MirrorTotals(e.lines);
      SwapTotals(e.lines);
      forall i | 0 <= i < |ls| ensures OneSidedInput(ls[i]) && Postable(b, ls[i].account) {
        assert OneSided(e.lines[i]);
      }
      assert ValidInput(ls);
      assert forall i :: 0 <= i < |ls| ==> OneSided(Swap(e.lines)[i]) && FitsColumn(Swap(e.lines)[i]);
      assert FlushCheck(Swap(e.lines), InputTotal(ls, Debit));
    }
  }

  // ----- chains of reversals ------------------------------------------------

  /** Reverse entry `id`, then its mirror, and so on, `k` times. */
  function ReverseChain(b: Book, id: nat, k: nat): Book {
    if k == 0 then b
    else
      var b1 := ReverseChain(b, id, k - 1);
      Commit(b1, ReverseSpec(b1, ChainHead(b, id, k - 1)))
  }

  /** The entry the next reversal of the chain is applied to. */
  function ChainHead(b: Book, id: nat, k: nat): nat {
    if k == 0 then id else |b.entries| + k - 1
  }

  function SwapTimes(ls: seq<Line>, k: nat): seq<Line> {
    if k == 0 then ls else Swap(SwapTimes(ls, k - 1))
  }

  ghost predicate ChainState(b: Book, id: nat, k: nat, c: Book)
    requires id < |b.entries|
  {
    && c.accounts == b.accounts && c.periods == b.periods
    && |c.entries| == |b.entries| + k
    && (forall j :: 0 <= j <= k ==> c.entries[ChainHead(b, id, j)] == ChainEntry(b.entries[id], j, j == k))
    && (forall i :: 0 <= i < |b.entries| && i != id ==> c.entries[i] == b.entries[i])
  }

  /** The chain's member number `j`: the original lines flipped `j` times. */
  function ChainEntry(e: Entry, j: nat, last: bool): Entry {
    Entry(e.period, e.date, SwapTimes(e.lines, j), if last then Posted else Reversed)
  }

  /** After k reversals down a chain its k + 1 members hold the original lines flipped
      0..k times, exactly the last one is posted, and nothing else changed. */
  lemma ReverseChainOutcome(b: Book, id: nat, k: nat)
    requires BookOk(b) && id < |b.entries| && b.entries[id].status == Posted
    requires !b.periods[b.entries[id].period].isLocked
    ensures BookOk(ReverseChain(b, id, k)) && ChainState(b, id, k, ReverseChain(b, id, k))
  {
    var chain := (j: nat) => ReverseChain(b, id, j);
    var next := (c: Book, j: nat) => Commit(c, ReverseSpec(c, ChainHead(b, id, j)));
    forall c, j: nat | BookOk(c) && ChainState(b, id, j, c)
      ensures next(c, j) == Extended(b, id, j, c) && BookOk(Extended(b, id, j, c))
    {
      assert EntryOk(b, b.entries[id]);
      ReversedHead(b, id, j, c);
    }
    forall j: nat ensures chain(j + 1) == next(chain(j), j) {
    }
    assert b.entries[id] == ChainEntry(b.entries[id], 0, true);
    ChainInduction(b, id, chain, next, k);
  }

  lemma {:induction false} ChainInduction(b: Book, id: nat, chain: nat -> Book, next: (Book, nat) -> Book, k: nat)
    requires id < |b.entries| && chain(0) == b && BookOk(b) && ChainState(b, id, 0, b)
    requires forall j: nat :: chain(j + 1) == next(chain(j), j)
    requires forall c, j: nat :: BookOk(c) && ChainState(b, id, j, c) ==>
               next(c, j) == Extended(b, id, j, c) && BookOk(Extended(b, id, j, c))
    ensures BookOk(chain(k)) && ChainState(b, id, k, chain(k))
  {
    if k > 0 {
      ChainInduction(b, id, chain, next, k - 1);
      assert chain(k - 1 + 1) == next(chain(k - 1), k - 1);
      ExtendedChain(b, id, k - 1, chain(k - 1));
    }
  }

  function Extended(b: Book, id: nat, k: nat, c: Book): Book
    requires id < |b.entries| && ChainHead(b, id, k) < |c.entries|
  {
    var h := ChainHead(b, id, k);
    c.(entries := c.entries[h := ChainEntry(b.entries[id], k, false)] + [ChainEntry(b.entries[id], k + 1, true)])
  }

  lemma ReversedHead(b: Book, id: nat, k: nat, c: Book)
    requires BookOk(b) && id < |b.entries| && !b.periods[b.entries[id].period].isLocked
    requires BookOk(c) && ChainState(b, id, k, c)
    ensures Commit(c, ReverseSpec(c, ChainHead(b, id, k))) == Extended(b, id, k, c)
    ensures BookOk(Extended(b, id, k, c))
  {
    var h := ChainHead(b, id, k);
    assert c.entries[h] == ChainEntry(b.entries[id], k, true);
    ReverseOutcome(c, h);
    ReverseOk(c, h);
  }

  lemma ExtendedChain(b: Book, id: nat, k: nat, c: Book)
    requires id < |b.entries| && ChainState(b, id, k, c)
    ensures ChainState(b, id, k + 1, Extended(b, id, k, c))
  {
    var d := Extended(b, id, k, c);
    forall j | 0 <= j <= k + 1
      ensures d.entries[ChainHead(b, id, j)] == ChainEntry(b.entries[id], j, j == k + 1)
    {
      if j < k {
        assert c.entries[ChainHead(b, id, j)] == ChainEntry(b.entries[id], j, false);
      }
    }
  }

  /** An entry that has been reversed can never be reversed again, in any later book. */
  lemma {:induction false} ReversedForGood(ops: seq<Op>, more: seq<Op>, id: nat)
    requires id < |Run(ops).entries| && Run(ops).entries[id].status == Reversed
    ensures id < |Run(ops + more).entries|
    ensures Run(ops + more).entries[id] == Run(ops).entries[id]
    ensures ReverseSpec(Run(ops + more), id).1.Err?
    decreases |more|
  {
    if more == [] {
      assert ops + more == ops;
    } else {
      var n := |more| - 1;
      ReversedForGood(ops, more[..n], id);
      assert (ops + more)[..|ops + more| - 1] == ops + more[..n];
      RunOk(ops + more[..n]);
      assert Run(ops + more) == Apply(Run(ops + more[..n]), more[n]);
      ReversedStays(Run(ops + more[..n]), more[n], id);
    }
  }

  lemma ReversedStays(b: Book, op: Op, id: nat)
    requires BookOk(b) && id < |b.entries| && b.entries[id].status == Reversed
    ensures id < |Apply(b, op).entries| && Apply(b, op).entries[id] == b.entries[id]
  {
    if op.ReverseOp? {
      ReverseOutcome(b, op.id);
    }
  }
}
