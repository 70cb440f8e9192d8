/** The query behind the classified cash flow has no ORDER BY, so entries and lines may come in
    any order. The buckets then fill in another order; the check still cannot be raised. */
module CashFlowOrder {
  import opened Accounts
  import opened Ledger
  import opened LedgerRuns
  import opened Statements
  import opened Rules
  import opened CashFlow
  import opened CashFlowProofs
  import opened Sums

  /** The same entry with its lines in any order. */
  ghost predicate SameEntry(e: Entry, f: Entry) {
    e.period == f.period && e.date == f.date && e.status == f.status && multiset(e.lines) == multiset(f.lines)
  }

  /** `es` are the entries of `b`, each with its lines in some order. */
  ghost predicate LinesReordered(b: Book, es: seq<Entry>) {
    |es| == |b.entries| && forall k :: 0 <= k < |es| ==> SameEntry(b.entries[k], es[k])
  }

  /** `c` is `b` as a query may return it: entries in any order, and lines in any order. */
  ghost predicate Reordered(b: Book, c: Book) {
    && c.accounts == b.accounts && c.periods == b.periods
    && exists es :: LinesReordered(b, es) && multiset(es) == multiset(c.entries)
  }

  // ----- what does not depend on the order of lines ---------------------------------------

  function AmountAt(ids: set<nat>, side: Side): Line -> int {
    (l: Line) => if l.account in ids then Amount(l, side) else 0
  }

  function AmountOf(side: Side): Line -> int { (l: Line) => Amount(l, side) }

  function Elsewhere(ids: set<nat>): Line -> int { (l: Line) => if l.account in ids then 0 else 1 }

  lemma {:induction false} LineSumIsSum(ls: seq<Line>, ids: set<nat>, side: Side)
    ensures LineSum(ls, ids, side) == SumOver(ls, AmountAt(ids, side))
  {
    if ls != [] { LineSumIsSum(ls[..|ls|-1], ids, side); }
  }

  lemma {:induction false} TotalIsSum(ls: seq<Line>, side: Side)
    ensures Ledger.Total(ls, side) == SumOver(ls, AmountOf(side))
  {
    if ls != [] { TotalIsSum(ls[..|ls|-1], side); }
  }

  lemma {:induction false} NonCashIsSum(ls: seq<Line>, ids: set<nat>)
    ensures |NonCash(ls, ids)| == SumOver(ls, Elsewhere(ids))
  {
    if ls != [] { NonCashIsSum(ls[..|ls|-1], ids); }
  }

  lemma SameLineSums(e: Entry, f: Entry, ids: set<nat>, side: Side)
    requires SameEntry(e, f)
    ensures LineSum(e.lines, ids, side) == LineSum(f.lines, ids, side)
    ensures Ledger.Total(e.lines, side) == Ledger.Total(f.lines, side)
  {
    LineSumIsSum(e.lines, ids, side);
    LineSumIsSum(f.lines, ids, side);
    OrderIrrelevant(e.lines, f.lines, AmountAt(ids, side));
    TotalIsSum(e.lines, side);
    TotalIsSum(f.lines, side);
    OrderIrrelevant(e.lines, f.lines, AmountOf(side));
  }

  lemma SameLines(e: Entry, f: Entry)
    requires SameEntry(e, f)
    ensures |e.lines| == |f.lines| && forall l :: l in e.lines <==> l in f.lines
  {
    assert |e.lines| == |multiset(e.lines)| == |multiset(f.lines)| == |f.lines|;
    assert forall l :: l in e.lines <==> l in multiset(e.lines);
    assert forall l :: l in f.lines <==> l in multiset(f.lines);
  }

  lemma SameTouch(e: Entry, f: Entry, ids: set<nat>)
    requires SameEntry(e, f)
    ensures Touches(e.lines, ids) ==> Touches(f.lines, ids)
  {
    SameLines(e, f);
    if Touches(e.lines, ids) {
      var i :| 0 <= i < |e.lines| && e.lines[i].account in ids;
      assert e.lines[i] in f.lines;
      var j :| 0 <= j < |f.lines| && f.lines[j] == e.lines[i];
    }
  }

  /** An entry shares its cash out, to as many lines and as much of it, in any order of its lines. */
  lemma SameSpread(e: Entry, f: Entry, w: Window, ids: set<nat>)
    requires SameEntry(e, f)
    ensures Spreads(e, w, ids) == Spreads(f, w, ids) && LineNet(e.lines, ids) == LineNet(f.lines, ids)
    ensures |NonCash(e.lines, ids)| == |NonCash(f.lines, ids)|
  {
    SameLineSums(e, f, ids, Debit);
    SameLineSums(e, f, ids, Credit);
    SameTouch(e, f, ids);
    SameTouch(f, e, ids);
    NonCashIsSum(e.lines, ids);
    NonCashIsSum(f.lines, ids);
    OrderIrrelevant(e.lines, f.lines, Elsewhere(ids));
  }

  lemma SameEntryOk(b: Book, c: Book, e: Entry, f: Entry)
    requires SameEntry(e, f) && EntryOk(b, e) && c.accounts == b.accounts && c.periods == b.periods
    ensures EntryOk(c, f)
  {
    SameLines(e, f);
    SameLineSums(e, f, {}, Debit);
    SameLineSums(e, f, {}, Credit);
    forall i | 0 <= i < |f.lines|
      ensures OneSided(f.lines[i]) && FitsColumn(f.lines[i]) && Postable(c, f.lines[i].account)
    {
      assert f.lines[i] in e.lines;
      var j :| 0 <= j < |e.lines| && e.lines[j] == f.lines[i];
      assert Postable(b, e.lines[j].account);
    }
  }

  // ----- what does not depend on the order of entries --------------------------------------

  function EntrySum(w: Window, ids: set<nat>, side: Side): Entry -> int {
    (e: Entry) => if Counts(e, w) then LineSum(e.lines, ids, side) else 0
  }

  function EntryCount(w: Window, ids: set<nat>): Entry -> int {
    (e: Entry) => if Spreads(e, w, ids) then |NonCash(e.lines, ids)| else 0
  }

  function EntrySize(w: Window, ids: set<nat>): Entry -> int {
    (e: Entry) => if !Spreads(e, w, ids) then 0
                  else if LineNet(e.lines, ids) < 0 then -LineNet(e.lines, ids) else LineNet(e.lines, ids)
  }

  lemma {:induction false} TurnoverIsSum(es: seq<Entry>, w: Window, ids: set<nat>, side: Side)
    ensures Turnover(es, w, ids, side) == SumOver(es, EntrySum(w, ids, side))
  {
    if es != [] { TurnoverIsSum(es[..|es|-1], w, ids, side); }
  }

  lemma {:induction false} CountIsSum(es: seq<Entry>, w: Window, ids: set<nat>)
    ensures SpreadCount(es, w, ids) == SumOver(es, EntryCount(w, ids))
  {
    if es != [] { CountIsSum(es[..|es|-1], w, ids); }
  }

  lemma {:induction false} SizeIsSum(es: seq<Entry>, w: Window, ids: set<nat>)
    ensures SpreadSize(es, w, ids) == SumOver(es, EntrySize(w, ids)) as real
  {
    if es != [] { SizeIsSum(es[..|es|-1], w, ids); }
  }

  lemma SumReordered(b: Book, es: seq<Entry>, c: Book, f: Entry -> int)
    requires LinesReordered(b, es) && multiset(es) == multiset(c.entries)
    requires forall k :: 0 <= k < |es| ==> f(b.entries[k]) == f(es[k])
    ensures SumOver(b.entries, f) == SumOver(c.entries, f)
  {
    SumSame(b.entries, es, f);
    OrderIrrelevant(es, c.entries, f);
  }

  lemma TurnoverReordered(b: Book, c: Book, w: Window, ids: set<nat>, side: Side)
    requires Reordered(b, c)
    ensures Turnover(b.entries, w, ids, side) == Turnover(c.entries, w, ids, side)
  {
    var es :| LinesReordered(b, es) && multiset(es) == multiset(c.entries);
    forall k | 0 <= k < |es| ensures EntrySum(w, ids, side)(b.entries[k]) == EntrySum(w, ids, side)(es[k]) {
      SameLineSums(b.entries[k], es[k], ids, side);
    }
    SumReordered(b, es, c, EntrySum(w, ids, side));
    TurnoverIsSum(b.entries, w, ids, side);
    TurnoverIsSum(c.entries, w, ids, side);
  }

  lemma SpreadReordered(b: Book, c: Book, w: Window, ids: set<nat>)
    requires Reordered(b, c)
    ensures SpreadCount(b.entries, w, ids) == SpreadCount(c.entries, w, ids)
    ensures SpreadSize(b.entries, w, ids) == SpreadSize(c.entries, w, ids)
  {
    var es :| LinesReordered(b, es) && multiset(es) == multiset(c.entries);
    forall k | 0 <= k < |es|
      ensures EntryCount(w, ids)(b.entries[k]) == EntryCount(w, ids)(es[k])
      ensures EntrySize(w, ids)(b.entries[k]) == EntrySize(w, ids)(es[k])
    {
      SameSpread(b.entries[k], es[k], w, ids);
    }
    SumReordered(b, es, c, EntryCount(w, ids));
    SumReordered(b, es, c, EntrySize(w, ids));
    CountIsSum(b.entries, w, ids);
    CountIsSum(c.entries, w, ids);
    SizeIsSum(b.entries, w, ids);
    SizeIsSum(c.entries, w, ids);
  }

  /** Every entry of the result is an entry of the book. */
  lemma CameFrom(b: Book, c: Book, k: nat) returns (j: nat)
    requires Reordered(b, c) && k < |c.entries|
    ensures j < |b.entries| && SameEntry(b.entries[j], c.entries[k])
  {
    var es :| LinesReordered(b, es) && multiset(es) == multiset(c.entries);
    assert c.entries[k] in multiset(es);
    j :| 0 <= j < |es| && es[j] == c.entries[k];
  }

  lemma ReorderedOk(b: Book, c: Book)
    requires BookOk(b) && Reordered(b, c)
    ensures BookOk(c)
  {
    forall k | 0 <= k < |c.entries| ensures EntryOk(c, c.entries[k]) {
      var j := CameFrom(b, c, k);
      SameEntryOk(b, c, b.entries[j], c.entries[k]);
    }
  }

  // ----- the theorems ---------------------------------------------------------------------

  /** The change in cash of the ledger does not depend on the order. */
  lemma LedgerSideReordered(b: Book, c: Book, start: int, end: int, codes: set<string>)
    requires Reordered(b, c)
    ensures CashFlowFor(c, start, end, codes) == CashFlowFor(b, start, end, codes)
  {
    var ids := CashIds(b, codes);
    TurnoverReordered(b, c, Window(None, start - 1), ids, Debit);
    TurnoverReordered(b, c, Window(None, start - 1), ids, Credit);
    TurnoverReordered(b, c, Window(None, end), ids, Debit);
    TurnoverReordered(b, c, Window(None, end), ids, Credit);
    TurnoverReordered(b, c, Window(Some(start), end), ids, Debit);
    TurnoverReordered(b, c, Window(Some(start), end), ids, Credit);
  }

  /** The bound on the 0.0001 check holds for every order in which the rows can come. */
  lemma RoundedSectionsTieInAnyOrder(rnd: real -> real, u: real, b: Book, c: Book, r: PresentationRules,
                                     start: int, end: int, codes: set<string>, total: real)
    requires BookOk(b) && Reordered(b, c) && RelativeRounding(rnd, u) && CashFlowFor(b, start, end, codes).Ok?
    requires SmallEnough(u, SpreadCount(b.entries, Window(Some(start), end), CashIds(b, codes)), total)
    requires SpreadSize(b.entries, Window(Some(start), end), CashIds(b, codes)) <= total
    ensures EntriesKnown(c.accounts, c.entries)
    ensures CashFlowFor(c, start, end, codes) == CashFlowFor(b, start, end, codes)
    ensures Presented(rnd, r, c, start, end, codes).Ok? && Presented(rnd, r, c, start, end, codes).value.ties
  {
    ReorderedOk(b, c);
    LedgerSideReordered(b, c, start, end, codes);
    SpreadReordered(b, c, Window(Some(start), end), CashIds(b, codes));
    RoundedSectionsTie(rnd, u, c, r, start, end, codes, total);
  }
}
