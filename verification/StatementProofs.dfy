/** The identities that the statements assert hold in every reachable book. */
module StatementProofs {
  import opened Accounts
  import opened Ledger
  import opened LedgerRuns
  import opened Statements

  // ----- algebra of the sums ------------------------------------------------

  lemma {:induction false} LineSumUnion(ls: seq<Line>, s: set<nat>, t: set<nat>, side: Side)
    requires s !! t
    ensures LineSum(ls, s + t, side) == LineSum(ls, s, side) + LineSum(ls, t, side)
  {
    if ls != [] { LineSumUnion(ls[..|ls|-1], s, t, side); }
  }

  lemma {:induction false} TurnoverUnion(es: seq<Entry>, w: Window, s: set<nat>, t: set<nat>, side: Side)
    requires s !! t
    ensures Turnover(es, w, s + t, side) == Turnover(es, w, s, side) + Turnover(es, w, t, side)
  {
    if es != [] {
      TurnoverUnion(es[..|es|-1], w, s, t, side);
      LineSumUnion(es[|es|-1].lines, s, t, side);
    }
  }

  lemma {:induction false} LineSumEmpty(ls: seq<Line>, side: Side)
    ensures LineSum(ls, {}, side) == 0
  {
    if ls != [] { LineSumEmpty(ls[..|ls|-1], side); }
  }

  lemma {:induction false} TurnoverEmpty(es: seq<Entry>, w: Window, side: Side)
    ensures Turnover(es, w, {}, side) == 0
  {
    if es != [] {
      TurnoverEmpty(es[..|es|-1], w, side);
      LineSumEmpty(es[|es|-1].lines, side);
    }
  }

  lemma {:induction false} LineSumAll(ls: seq<Line>, ids: set<nat>, side: Side)
    requires forall i :: 0 <= i < |ls| ==> ls[i].account in ids
    ensures LineSum(ls, ids, side) == Total(ls, side)
  {
    if ls != [] { LineSumAll(ls[..|ls|-1], ids, side); }
  }

  function FirstIds(n: nat): (r: set<nat>)
    ensures forall i: nat :: i in r <==> i < n
  {
    if n == 0 then {} else FirstIds(n - 1) + {n - 1}
  }

  /** Over the whole chart, counted debits equal counted credits. */
  lemma {:induction false} NetOfAll(b: Book, k: nat, w: Window)
    requires BookOk(b) && k <= |b.entries|
    ensures Net(b.entries[..k], w, FirstIds(|b.accounts|)) == 0
  {
    if k > 0 {
      var e := b.entries[k-1];
      assert b.entries[..k][..k-1] == b.entries[..k-1];
      NetOfAll(b, k - 1, w);
      assert EntryOk(b, e);
      LineSumAll(e.lines, FirstIds(|b.accounts|), Debit);
      LineSumAll(e.lines, FirstIds(|b.accounts|), Credit);
    }
  }

  lemma FirstIdsStep(es: seq<Entry>, w: Window, n: nat, side: Side)
    ensures Turnover(es, w, FirstIds(n + 1), side) == Turnover(es, w, FirstIds(n), side) + Turnover(es, w, {n}, side)
  {
    TurnoverUnion(es, w, FirstIds(n), {n}, side);
  }

  // ----- trial balance and balance sheet -------------------------------------

  lemma EveryType(t: AccountType)
    ensures t in ALL_TYPES
  {
    match t case Asset => case Liability => case Equity => case Revenue => case Expense =>
  }

  lemma {:induction false} RowTotals(b: Book, w: Window, n: nat)
    requires n <= |b.accounts|
    ensures SumDebit(Rows(b, w, ALL_TYPES, n)) == Turnover(b.entries, w, FirstIds(n), Debit)
    ensures SumCredit(Rows(b, w, ALL_TYPES, n)) == Turnover(b.entries, w, FirstIds(n), Credit)
  {
    if n == 0 {
      TurnoverEmpty(b.entries, w, Debit);
      TurnoverEmpty(b.entries, w, Credit);
    } else {
      RowTotals(b, w, n - 1);
      FirstIdsStep(b.entries, w, n - 1, Debit);
      FirstIdsStep(b.entries, w, n - 1, Credit);
      EveryType(b.accounts[n-1].accountType);
      assert Rows(b, w, ALL_TYPES, n)[..|Rows(b, w, ALL_TYPES, n)|-1] == Rows(b, w, ALL_TYPES, n - 1);
    }
  }

  function TypedTotal(b: Book, w: Window, t: AccountType, n: nat): int
    requires n <= |b.accounts|
  {
    SumSigned(Rows(b, w, {t}, n))
  }

  lemma TypedTotalStep(b: Book, w: Window, t: AccountType, n: nat)
    requires n < |b.accounts|
    ensures TypedTotal(b, w, t, n + 1) ==
              TypedTotal(b, w, t, n) + if b.accounts[n].accountType == t then BalanceOf(b, w, n).signed else 0
  {
    if b.accounts[n].accountType == t {
      assert Rows(b, w, {t}, n + 1)[..|Rows(b, w, {t}, n + 1)|-1] == Rows(b, w, {t}, n);
    }
  }

  /** Natural-side balances by type, recombined with the signs of the accounting equation. */
  function Recombined(b: Book, w: Window, n: nat): int
    requires n <= |b.accounts|
  {
    TypedTotal(b, w, Asset, n) + TypedTotal(b, w, Expense, n)
    - TypedTotal(b, w, Liability, n) - TypedTotal(b, w, Equity, n) - TypedTotal(b, w, Revenue, n)
  }

  lemma RecombinedStep(b: Book, w: Window, n: nat)
    requires n < |b.accounts|
    ensures Recombined(b, w, n + 1) == Recombined(b, w, n) + Net(b.entries, w, {n})
  {
    TypedTotalStep(b, w, Asset, n);
    TypedTotalStep(b, w, Expense, n);
    TypedTotalStep(b, w, Liability, n);
    TypedTotalStep(b, w, Equity, n);
    TypedTotalStep(b, w, Revenue, n);
    match b.accounts[n].accountType
    case Asset => case Liability => case Equity => case Revenue => case Expense =>
  }

  lemma NetStep(es: seq<Entry>, w: Window, n: nat)
    ensures Net(es, w, FirstIds(n + 1)) == Net(es, w, FirstIds(n)) + Net(es, w, {n})
  {
    FirstIdsStep(es, w, n, Debit);
    FirstIdsStep(es, w, n, Credit);
  }

  lemma {:induction false} RecombinedIsNet(b: Book, w: Window, n: nat)
    requires n <= |b.accounts|
    ensures Recombined(b, w, n) == Net(b.entries, w, FirstIds(n))
  {
    if n == 0 {
      TurnoverEmpty(b.entries, w, Debit);
      TurnoverEmpty(b.entries, w, Credit);
    } else {
      RecombinedIsNet(b, w, n - 1);
      RecombinedStep(b, w, n - 1);
      NetStep(b.entries, w, n - 1);
    }
  }

  /** In every sound book, so in every reachable one, debits equal credits at every date. */
  lemma TrialBalanceTies(b: Book, asOf: int)
    requires BookOk(b)
    ensures TrialBalanceAt(b, asOf).balances
  {
    var w := Window(None, asOf);
    RowTotals(b, w, |b.accounts|);
    NetOfAll(b, |b.entries|, w);
    assert b.entries[..|b.entries|] == b.entries;
  }

  /** In every sound book, at every date, the balance-sheet assertion passes. */
  lemma BalanceSheetNeverRaises(b: Book, asOf: int)
    requires BookOk(b)
    ensures BalanceSheetAt(b, asOf).Ok?
  {
    var w := Window(None, asOf);
    RecombinedIsNet(b, w, |b.accounts|);
    NetOfAll(b, |b.entries|, w);
    assert b.entries[..|b.entries|] == b.entries;
  }

  // ----- change in cash ------------------------------------------------------

  lemma {:induction false} WindowSplit(es: seq<Entry>, start: int, end: int, ids: set<nat>, side: Side)
    requires start <= end + 1
    ensures Turnover(es, Window(None, end), ids, side) ==
              Turnover(es, Window(None, start - 1), ids, side) + Turnover(es, Window(Some(start), end), ids, side)
  {
    if es != [] { WindowSplit(es[..|es|-1], start, end, ids, side); }
  }

  lemma {:induction false} EmptyWindow(es: seq<Entry>, start: int, end: int, ids: set<nat>, side: Side)
    requires end < start
    ensures Turnover(es, Window(Some(start), end), ids, side) == 0
  {
    if es != [] { EmptyWindow(es[..|es|-1], start, end, ids, side); }
  }

  /** The change-in-cash assertion passes exactly when the range is not inverted, or
      cash did not move on the days strictly between its end and its start. */
  lemma CashFlowTies(b: Book, start: int, end: int, codes: set<string>)
    requires CashIds(b, codes) != {}
    ensures CashFlowFor(b, start, end, codes).Ok? <==>
              start <= end + 1 || Net(b.entries, Window(Some(end + 1), start - 1), CashIds(b, codes)) == 0
  {
    var ids := CashIds(b, codes);
    if start <= end + 1 {
      WindowSplit(b.entries, start, end, ids, Debit);
      WindowSplit(b.entries, start, end, ids, Credit);
    } else {
      WindowSplit(b.entries, end + 1, start - 1, ids, Debit);
      WindowSplit(b.entries, end + 1, start - 1, ids, Credit);
      EmptyWindow(b.entries, start, end, ids, Debit);
      EmptyWindow(b.entries, start, end, ids, Credit);
    }
  }

  /** Every caller passes the dates of a period, and no period is inverted, so over the periods of a
      sound book the assertion never fires: the only refusal is a client without such cash accounts. */
  lemma CashFlowNeverRaises(b: Book, p: nat, codes: set<string>)
    requires BookOk(b) && p < |b.periods|
    ensures var r := CashFlowFor(b, b.periods[p].start, b.periods[p].end, codes);
            if CashIds(b, codes) == {} then r == Err(NoCashAccounts) else r.Ok?
  {
    if CashIds(b, codes) != {} {
      CashFlowTies(b, b.periods[p].start, b.periods[p].end, codes);
    }
  }

  // ----- what a reversal does to balances -------------------------------------

  lemma {:induction false} TurnoverUpdate(es: seq<Entry>, i: nat, e: Entry, w: Window, ids: set<nat>, side: Side)
    requires i < |es|
    ensures Turnover(es[i := e], w, ids, side) == Turnover(es, w, ids, side)
              - (if Counts(es[i], w) then LineSum(es[i].lines, ids, side) else 0)
              + (if Counts(e, w) then LineSum(e.lines, ids, side) else 0)
  {
    var n := |es| - 1;
    if i < n {
      TurnoverUpdate(es[..n], i, e, w, ids, side);
      assert es[i := e][..n] == es[..n][i := e];
    } else {
      assert es[i := e][..n] == es[..n];
    }
  }

  lemma {:induction false} SwapSums(ls: seq<Line>, ids: set<nat>)
    ensures LineSum(Swap(ls), ids, Debit) == LineSum(ls, ids, Credit)
    ensures LineSum(Swap(ls), ids, Credit) == LineSum(ls, ids, Debit)
  {
    if ls != [] {
      var n := |ls| - 1;
      SwapSums(ls[..n], ids);
      assert Swap(ls)[..n] == Swap(ls[..n]);
    }
  }

  /** What entry `id` adds to the net debits of `ids` while it is posted. */
  function Contribution(b: Book, id: nat, w: Window, ids: set<nat>): int
    requires id < |b.entries|
  {
    if Within(b.entries[id].date, w) then LineNet(b.entries[id].lines, ids) else 0
  }

  /** A successful reversal moves every balance by minus twice the entry's contribution:
      the original stops counting and its mirror starts to. */
  lemma ReversalEffect(b: Book, id: nat, w: Window, ids: set<nat>)
    requires BookOk(b) && ReverseSpec(b, id).1.Ok?
    ensures id < |b.entries|
    ensures Net(ReverseSpec(b, id).0.entries, w, ids) == Net(b.entries, w, ids) - 2 * Contribution(b, id, w, ids)
  {
    ReverseOutcome(b, id);
    var e := b.entries[id];
    var flipped, m := b.entries[id := e.(status := Reversed)], Entry(e.period, e.date, Swap(e.lines), Posted);
    assert (flipped + [m])[..|flipped|] == flipped;
    TurnoverUpdate(b.entries, id, e.(status := Reversed), w, ids, Debit);
    TurnoverUpdate(b.entries, id, e.(status := Reversed), w, ids, Credit);
    SwapSums(e.lines, ids);
  }

  function Alternate(k: nat, x: int): int {
    if k % 2 == 0 then x else -x
  }

  lemma {:induction false} SwapTimesNet(ls: seq<Line>, k: nat, ids: set<nat>)
    ensures LineNet(SwapTimes(ls, k), ids) == Alternate(k, LineNet(ls, ids))
  {
    if k > 0 {
      SwapTimesNet(ls, k - 1, ids);
      SwapSums(SwapTimes(ls, k - 1), ids);
    }
  }

  /** Down a chain of k reversals the posted contribution becomes (-1)^k times the original. */
  lemma ReversalChainEffect(b: Book, id: nat, k: nat, w: Window, ids: set<nat>)
    requires BookOk(b) && id < |b.entries| && b.entries[id].status == Posted
    requires !b.periods[b.entries[id].period].isLocked
    ensures Net(ReverseChain(b, id, k).entries, w, ids) ==
              Net(b.entries, w, ids) - Contribution(b, id, w, ids) + Alternate(k, Contribution(b, id, w, ids))
  {
    var f := (j: nat) => Net(ReverseChain(b, id, j).entries, w, ids);
    var x := Contribution(b, id, w, ids);
    forall j: nat ensures f(j + 1) == f(j) - 2 * Alternate(j, x) {
      ChainStepEffect(b, id, j, w, ids);
    }
    Alternating(f, x, k);
    assert ReverseChain(b, id, 0) == b;
  }

  lemma {:induction false} Alternating(f: nat -> int, x: int, k: nat)
    requires forall j: nat :: f(j + 1) == f(j) - 2 * Alternate(j, x)
    ensures f(k) == f(0) - x + Alternate(k, x)
  {
    if k > 0 {
      Alternating(f, x, k - 1);
      assert f(k - 1 + 1) == f(k - 1) - 2 * Alternate(k - 1, x);
    }
  }

  lemma ChainStepEffect(b: Book, id: nat, k: nat, w: Window, ids: set<nat>)
    requires BookOk(b) && id < |b.entries| && b.entries[id].status == Posted
    requires !b.periods[b.entries[id].period].isLocked
    ensures Net(ReverseChain(b, id, k + 1).entries, w, ids) ==
              Net(ReverseChain(b, id, k).entries, w, ids) - 2 * Alternate(k, Contribution(b, id, w, ids))
  {
    ReverseChainOutcome(b, id, k);
    HeadEffect(b, id, k, ReverseChain(b, id, k), w, ids);
  }

  lemma HeadEffect(b: Book, id: nat, k: nat, c: Book, w: Window, ids: set<nat>)
    requires BookOk(c) && id < |b.entries| && ChainState(b, id, k, c)
    requires b.entries[id].period < |b.periods| && !b.periods[b.entries[id].period].isLocked
    ensures Net(Commit(c, ReverseSpec(c, ChainHead(b, id, k))).entries, w, ids) ==
              Net(c.entries, w, ids) - 2 * Alternate(k, Contribution(b, id, w, ids))
  {
    var h := ChainHead(b, id, k);
    assert c.entries[h] == ChainEntry(b.entries[id], k, true);
    ReverseOutcome(c, h);
    ReversalEffect(c, h, w, ids);
    SwapTimesNet(b.entries[id].lines, k, ids);
  }
}
