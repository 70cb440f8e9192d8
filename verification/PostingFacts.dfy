/** What posting and reversing accept and write, told on the fields of the tables alone. */
module PostingFacts {
  import opened Accounts
  import opened Ledger
  import opened LedgerRuns

  // ----- posting ------------------------------------------------------------------------

  function Debits(ls: seq<LineInput>): real {
    if ls == [] then 0.0 else Debits(ls[..|ls|-1]) + ls[|ls|-1].debit
  }

  function Credits(ls: seq<LineInput>): real {
    if ls == [] then 0.0 else Credits(ls[..|ls|-1]) + ls[|ls|-1].credit
  }

  lemma {:induction false} InputSums(ls: seq<LineInput>)
    ensures InputTotal(ls, Debit) == Debits(ls) && InputTotal(ls, Credit) == Credits(ls)
  {
    if ls != [] { InputSums(ls[..|ls|-1]); }
  }

  /** The validator accepts at least two lines, each with one positive side and nothing on the other,
      whose debits equal their credits. */
  lemma ValidatorAccepts(ls: seq<LineInput>)
    ensures ValidInput(ls) <==>
              && |ls| >= 2 && Debits(ls) == Credits(ls)
              && forall i :: 0 <= i < |ls| ==>
                   (ls[i].debit > 0.0 && ls[i].credit == 0.0) || (ls[i].debit == 0.0 && ls[i].credit > 0.0)
  {
    InputSums(ls);
    if |ls| >= 2 && Debits(ls) == Credits(ls)
       && forall i :: 0 <= i < |ls| ==>
            (ls[i].debit > 0.0 && ls[i].credit == 0.0) || (ls[i].debit == 0.0 && ls[i].credit > 0.0) {
      SomePositive(ls);
    }
  }

  lemma {:induction false} SomePositive(ls: seq<LineInput>)
    requires forall i :: 0 <= i < |ls| ==>
               (ls[i].debit > 0.0 && ls[i].credit == 0.0) || (ls[i].debit == 0.0 && ls[i].credit > 0.0)
    ensures Debits(ls) >= 0.0 && Credits(ls) >= 0.0 && (ls != [] ==> Debits(ls) + Credits(ls) > 0.0)
  {
    if ls != [] { SomePositive(ls[..|ls|-1]); }
  }

  /** A line whose account is missing, inactive, or a header refuses the entry, and nothing is written. */
  lemma ClosedAccountRefused(b: Book, p: nat, date: int, ls: seq<LineInput>, i: nat)
    requires ValidInput(ls) && p < |b.periods| && i < |ls|
    requires !b.periods[p].isLocked && b.periods[p].start <= date && date <= b.periods[p].end
    requires ls[i].account >= |b.accounts| || !b.accounts[ls[i].account].isActive || !b.accounts[ls[i].account].isLeaf
    ensures PostSpec(b, p, date, ls) == (b, Err(InvalidAccount))
  {
    assert !Postable(b, ls[i].account);
  }

  /** Invalid lines are refused first, then a period that does not exist, and nothing is written. */
  lemma MissingPeriodRefused(b: Book, p: nat, date: int, ls: seq<LineInput>)
    ensures !ValidInput(ls) ==> PostSpec(b, p, date, ls) == (b, Err(Unbalanced))
    ensures ValidInput(ls) && p >= |b.periods| ==> PostSpec(b, p, date, ls) == (b, Err(CrossTenant))
  {
  }

  /** A locked period, or a date outside it, refuses every valid entry, and nothing is written. */
  lemma ClosedPeriodRefused(b: Book, p: nat, date: int, ls: seq<LineInput>)
    requires ValidInput(ls) && p < |b.periods|
    requires b.periods[p].isLocked || date < b.periods[p].start || b.periods[p].end < date
    ensures PostSpec(b, p, date, ls) == (b, Err(PeriodLocked))
  {
  }

  /** A successful posting went to an open period that contains the date and to active leaf accounts,
      and appended one posted entry with the submitted accounts and the amounts at four decimals. */
  lemma PostedFields(b: Book, p: nat, date: int, ls: seq<LineInput>)
    requires PostSpec(b, p, date, ls).1.Ok?
    ensures p < |b.periods| && !b.periods[p].isLocked && b.periods[p].start <= date <= b.periods[p].end
    ensures forall i :: 0 <= i < |ls| ==>
              ls[i].account < |b.accounts| && b.accounts[ls[i].account].isActive && b.accounts[ls[i].account].isLeaf
    ensures var (c, r) := PostSpec(b, p, date, ls);
            && r.value == |b.entries| && |c.entries| == |b.entries| + 1 && c.entries[..|b.entries|] == b.entries
            && c.accounts == b.accounts && c.periods == b.periods
            && var e := c.entries[|b.entries|];
               && e.status == Posted && e.period == p && e.date == date && |e.lines| == |ls|
               && forall i :: 0 <= i < |ls| ==>
                    && e.lines[i].account == ls[i].account
                    && Nearest(ls[i].debit, e.lines[i].debit) && Nearest(ls[i].credit, e.lines[i].credit)
                    && 0 <= e.lines[i].debit < 100_000_000_000_000_000_000
                    && 0 <= e.lines[i].credit < 100_000_000_000_000_000_000
                    && (e.lines[i].debit == 0 <==> e.lines[i].credit > 0)
  {
    forall i | 0 <= i < |ls| ensures Postable(b, ls[i].account) {}
    var stored := StoredLines(ls);
    forall i | 0 <= i < |ls| ensures OneSided(stored[i]) && FitsColumn(stored[i]) {}
  }

  /** `n` ten-thousandths are as near to `x` as can be, the upper one at a tie. */
  predicate Nearest(x: real, n: int) {
    n as real / 10000.0 - 0.00005 <= x < n as real / 10000.0 + 0.00005
  }

  /** In every reachable book every line stands on an active leaf account of the table. */
  lemma LinesOnOpenLeaves(ops: seq<Op>, k: nat, i: nat)
    requires k < |Run(ops).entries| && i < |Run(ops).entries[k].lines|
    ensures var b := Run(ops);
            var l := b.entries[k].lines[i];
            && l.account < |b.accounts| && b.accounts[l.account].isActive && b.accounts[l.account].isLeaf
            && ((l.debit > 0 && l.credit == 0) || (l.debit == 0 && l.credit > 0))
  {
    var b := Run(ops);
    RunOk(ops);
    assert EntryOk(b, b.entries[k]);
    assert Postable(b, b.entries[k].lines[i].account) && OneSided(b.entries[k].lines[i]);
  }

  function StoredDebits(ls: seq<Line>): int {
    if ls == [] then 0 else StoredDebits(ls[..|ls|-1]) + ls[|ls|-1].debit
  }

  function StoredCredits(ls: seq<Line>): int {
    if ls == [] then 0 else StoredCredits(ls[..|ls|-1]) + ls[|ls|-1].credit
  }

  lemma {:induction false} StoredSums(ls: seq<Line>)
    ensures Total(ls, Debit) == StoredDebits(ls) && Total(ls, Credit) == StoredCredits(ls)
  {
    if ls != [] { StoredSums(ls[..|ls|-1]); }
  }

  /** Every entry of a reachable book balances, lies in its period and is posted or reversed. */
  lemma EntriesBalance(ops: seq<Op>, k: nat)
    requires k < |Run(ops).entries|
    ensures var b := Run(ops);
            var e := b.entries[k];
            && StoredDebits(e.lines) == StoredCredits(e.lines) > 0 && |e.lines| >= 2
            && e.period < |b.periods| && b.periods[e.period].start <= e.date <= b.periods[e.period].end
            && (e.status == Posted || e.status == Reversed)
  {
    RunOk(ops);
    assert EntryOk(Run(ops), Run(ops).entries[k]);
    StoredSums(Run(ops).entries[k].lines);
  }

  // ----- reversing ------------------------------------------------------------------------

  /** Reversing refuses what is not posted, and in a sound book only a locked period otherwise. */
  lemma ReverseRefusals(b: Book, id: nat)
    requires BookOk(b)
    ensures id >= |b.entries| ==> ReverseSpec(b, id) == (b, Err(CrossTenant))
    ensures id < |b.entries| && b.entries[id].status != Posted ==> ReverseSpec(b, id) == (b, Err(Unbalanced))
    ensures id < |b.entries| && b.entries[id].status == Posted && b.periods[b.entries[id].period].isLocked ==>
              ReverseSpec(b, id) == (b, Err(PeriodLocked))
  {
    if id < |b.entries| && b.entries[id].status == Posted && b.periods[b.entries[id].period].isLocked {
      var e := b.entries[id];
      assert EntryOk(b, e);
      MirrorIsValid(b, e);
      ClosedPeriodRefused(b, e.period, e.date, MirrorLines(e.lines));
    }
  }

  lemma MirrorIsValid(b: Book, e: Entry)
    requires EntryOk(b, e)
    ensures ValidInput(MirrorLines(e.lines))
  {
    MirrorTotals(e.lines);
    forall i | 0 <= i < |e.lines| ensures OneSidedInput(MirrorLines(e.lines)[i]) {
      assert OneSided(e.lines[i]);
    }
  }

  /** A reversal appends one posted entry with debits and credits exchanged, on the same accounts, period and
      date, marks the original, and touches nothing else. */
  lemma ReversedFields(b: Book, id: nat)
    requires BookOk(b) && ReverseSpec(b, id).1.Ok?
    ensures id < |b.entries| && b.entries[id].status == Posted
    ensures var (c, r) := ReverseSpec(b, id);
            && c.accounts == b.accounts && c.periods == b.periods && |c.entries| == |b.entries| + 1
            && r.value == |b.entries| && c.entries[id] == b.entries[id].(status := Reversed)
            && (forall k :: 0 <= k < |b.entries| && k != id ==> c.entries[k] == b.entries[k])
            && var e, m := b.entries[id], c.entries[|b.entries|];
               && m.status == Posted && m.period == e.period && m.date == e.date && |m.lines| == |e.lines|
               && forall i :: 0 <= i < |e.lines| ==>
                    && m.lines[i].account == e.lines[i].account
                    && m.lines[i].debit == e.lines[i].credit && m.lines[i].credit == e.lines[i].debit
  {
    ReverseOutcome(b, id);
  }
}
