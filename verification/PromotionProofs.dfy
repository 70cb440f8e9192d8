/** What promotions do to the book, and that a draft is promoted at most once. */
module PromotionProofs {
  import opened Accounts
  import opened Ledger
  import opened LedgerRuns
  import opened Statements
  import opened StatementProofs
  import opened Promotion

  /** One row of a loop that runs through. */
  lemma RowStep(b: Book, j: Job, n: nat)
    requires 0 < n <= |j.txns| && j.period < |b.periods| && PostRows(b, j, n).1.None?
    ensures PostRows(b, j, n - 1).1.None?
    ensures var was, now, d := PostRows(b, j, n - 1).0, PostRows(b, j, n).0, DecisionOf(b, j, n - 1);
            if d.Skipped? then now == was.(skipped := was.skipped + [(n - 1, d.reason)])
            else
              var (book, r) := PostSpec(was.book, j.period, d.date, TwoLines(d.debit, d.credit, d.amount));
              r.Ok? && now == Tally(book, was.posted + [(n - 1, r.value)], was.skipped)
  {
  }

  // ----- posted and skipped rows partition the statement --------------------------------------

  predicate IsPosted(t: Tally, i: nat) { exists k :: 0 <= k < |t.posted| && t.posted[k].0 == i }

  predicate IsSkipped(t: Tally, i: nat) { exists k :: 0 <= k < |t.skipped| && t.skipped[k].0 == i }

  /** Row `i` is the last of its list. */
  lemma SnocRow<T>(rows: seq<(nat, T)>, row: (nat, T), i: nat)
    ensures (exists k :: 0 <= k < |rows + [row]| && (rows + [row])[k].0 == i)
       <==> (exists k :: 0 <= k < |rows| && rows[k].0 == i) || row.0 == i
  {
    assert (rows + [row])[|rows|] == row;
    if exists k :: 0 <= k < |rows| && rows[k].0 == i {
      var k :| 0 <= k < |rows| && rows[k].0 == i;
      assert (rows + [row])[k].0 == i;
    }
  }

  /** The lists hold rows below `n` in order. */
  ghost predicate InOrder<T>(rows: seq<(nat, T)>, n: nat) {
    && (forall k :: 0 <= k < |rows| ==> rows[k].0 < n)
    && forall k, l :: 0 <= k < l < |rows| ==> rows[k].0 < rows[l].0
  }

  ghost predicate Partitioned(b: Book, j: Job, n: nat, t: Tally)
    requires n <= |j.txns| && j.period < |b.periods|
  {
    && |t.posted| + |t.skipped| == n && InOrder(t.posted, n) && InOrder(t.skipped, n)
    && forall i: nat ::
         && (IsPosted(t, i) <==> i < n && DecisionOf(b, j, i).Ready?)
         && (IsSkipped(t, i) <==> i < n && DecisionOf(b, j, i).Skipped?)
  }

  lemma PostedPart(b: Book, j: Job, n: nat, was: Tally, row: (nat, nat), book: Book)
    requires 0 < n <= |j.txns| && j.period < |b.periods| && Partitioned(b, j, n - 1, was)
    requires row.0 == n - 1 && DecisionOf(b, j, n - 1).Ready?
    ensures Partitioned(b, j, n, Tally(book, was.posted + [row], was.skipped))
  {
    var now := Tally(book, was.posted + [row], was.skipped);
    forall i: nat
      ensures IsPosted(now, i) <==> IsPosted(was, i) || i == n - 1
      ensures IsSkipped(now, i) <==> IsSkipped(was, i)
    {
      SnocRow(was.posted, row, i);
    }
  }

  lemma SkippedPart(b: Book, j: Job, n: nat, was: Tally, row: (nat, SkipReason))
    requires 0 < n <= |j.txns| && j.period < |b.periods| && Partitioned(b, j, n - 1, was)
    requires row.0 == n - 1 && DecisionOf(b, j, n - 1).Skipped?
    ensures Partitioned(b, j, n, was.(skipped := was.skipped + [row]))
  {
    var now := was.(skipped := was.skipped + [row]);
    forall i: nat
      ensures IsSkipped(now, i) <==> IsSkipped(was, i) || i == n - 1
      ensures IsPosted(now, i) <==> IsPosted(was, i)
    {
      SnocRow(was.skipped, row, i);
    }
  }

  /** Each transaction is either posted, exactly when it was ready, or skipped, and once. */
  lemma {:induction false} RowsPartition(b: Book, j: Job, n: nat)
    requires n <= |j.txns| && j.period < |b.periods| && PostRows(b, j, n).1.None?
    ensures Partitioned(b, j, n, PostRows(b, j, n).0)
  {
    if n > 0 {
      RowStep(b, j, n);
      RowsPartition(b, j, n - 1);
      var was, now := PostRows(b, j, n - 1).0, PostRows(b, j, n).0;
      if DecisionOf(b, j, n - 1).Ready? {
        PostedPart(b, j, n, was, now.posted[|was.posted|], now.book);
      } else {
        SkippedPart(b, j, n, was, now.skipped[|was.skipped|]);
      }
    }
  }

  // ----- when a row posts -------------------------------------------------------------------------

  /** What the ledger asks of the entry of a row. */
  predicate RowFine(b: Book, period: nat, d: Decision) {
    d.Ready? ==>
      && OpenFor(b, period, d.date) && Postable(b, d.debit) && Postable(b, d.credit)
      && FourDecimals(d.amount) && Store(d.amount) < COLUMN_LIMIT
  }

  lemma RowOutcome(b: Book, period: nat, date: int, d: nat, c: nat, x: real)
    requires x > 0.0
    ensures PostSpec(b, period, date, TwoLines(d, c, x)).1.Ok? <==> RowFine(b, period, Ready(d, c, x, date))
  {
    var ls := TwoLines(d, c, x);
    TwoInputTotals(d, c, x);
    assert OneSidedInput(ls[0]) && OneSidedInput(ls[1]) && ValidInput(ls);
    if OpenFor(b, period, date) {
      assert ls[0].account == d && ls[1].account == c;
      if Postable(b, d) && Postable(b, c) {
        TwoLineOutcome(b, period, date, d, c, x);
        StoreFacts(x);
      }
    }
  }

  lemma FineElsewhere(b: Book, c: Book, period: nat, d: Decision)
    requires b.accounts == c.accounts && b.periods == c.periods
    ensures RowFine(b, period, d) <==> RowFine(c, period, d)
  {
  }

  lemma DecidedPositive(b: Book, j: Job, i: nat)
    requires i < |j.txns| && j.period < |b.periods| && DecisionOf(b, j, i).Ready?
    ensures DecisionOf(b, j, i).amount > 0.0
  {
  }

  lemma NextRow(b: Book, j: Job, n: nat)
    requires 0 < n <= |j.txns| && j.period < |b.periods| && PostRows(b, j, n - 1).1.None?
    ensures PostRows(b, j, n).1.None? <==> RowFine(b, j.period, DecisionOf(b, j, n - 1))
  {
    var d := DecisionOf(b, j, n - 1);
    if d.Ready? {
      var c := PostRows(b, j, n - 1).0.book;
      DecidedPositive(b, j, n - 1);
      RowOutcome(c, j.period, d.date, d.debit, d.credit, d.amount);
      FineElsewhere(b, c, j.period, d);
    }
  }

  /** The loop gets past a row exactly when it got there and the row suits the ledger. */
  lemma ThroughRow(b: Book, j: Job, n: nat)
    requires 0 < n <= |j.txns| && j.period < |b.periods|
    ensures PostRows(b, j, n).1.None? <==>
              PostRows(b, j, n - 1).1.None? && RowFine(b, j.period, DecisionOf(b, j, n - 1))
  {
    if PostRows(b, j, n - 1).1.None? { NextRow(b, j, n); } else { PostRowsStuck(b, j, n - 1, n); }
  }

  /** What holds after each step as long as the step is fine holds after all of them if all are. */
  lemma {:induction false} StepByStep(through: nat -> bool, fine: nat -> bool, n: nat)
    requires through(0) && forall m: nat :: m < n ==> (through(m + 1) <==> through(m) && fine(m))
    ensures through(n) <==> forall i: nat :: i < n ==> fine(i)
  {
    if n > 0 {
      StepByStep(through, fine, n - 1);
      assert through(n - 1 + 1) <==> through(n - 1) && fine(n - 1);
    }
  }

  function Through(b: Book, j: Job): nat -> bool
    requires j.period < |b.periods|
  {
    (m: nat) => m <= |j.txns| && PostRows(b, j, m).1.None?
  }

  function Fine(b: Book, j: Job): nat -> bool
    requires j.period < |b.periods|
  {
    (m: nat) => m < |j.txns| && RowFine(b, j.period, DecisionOf(b, j, m))
  }

  lemma ThroughStep(b: Book, j: Job, m: nat)
    requires m < |j.txns| && j.period < |b.periods|
    ensures Through(b, j)(m + 1) <==> Through(b, j)(m) && Fine(b, j)(m)
  {
    ThroughRow(b, j, m + 1);
  }

  lemma ThroughAll(b: Book, j: Job, n: nat)
    requires n <= |j.txns| && j.period < |b.periods|
    ensures Through(b, j)(n) <==> forall i: nat :: i < n ==> Fine(b, j)(i)
  {
    var through, fine := Through(b, j), Fine(b, j);
    assert through(0);
    forall m: nat | m < n ensures through(m + 1) <==> through(m) && fine(m) { ThroughStep(b, j, m); }
    StepByStep(through, fine, n);
  }

  lemma FineIs(b: Book, j: Job, i: nat)
    requires i < |j.txns| && j.period < |b.periods|
    ensures Fine(b, j)(i) <==> RowFine(b, j.period, DecisionOf(b, j, i))
  {
  }

  /** The loop runs through exactly when every ready row suits the ledger: one row that resolves to
      a header account, or has a fifth decimal, takes the whole statement down. */
  lemma StatementOutcome(b: Book, j: Job, n: nat)
    requires n <= |j.txns| && j.period < |b.periods|
    ensures PostRows(b, j, n).1.None? <==> forall i :: 0 <= i < n ==> RowFine(b, j.period, DecisionOf(b, j, i))
  {
    ThroughAll(b, j, n);
    forall i: nat | i < n ensures Fine(b, j)(i) <==> RowFine(b, j.period, DecisionOf(b, j, i)) { FineIs(b, j, i); }
    assert Through(b, j)(n) <==> PostRows(b, j, n).1.None?;
  }

  // ----- cash -----------------------------------------------------------------------------------------

  /** What a row moves on the cash account: a deposit its amount up, a payment down, a row coded
      to cash itself nothing. */
  function CashMove(d: Decision, cash: nat): int {
    if d.Skipped? || d.debit == d.credit then 0
    else if d.debit == cash then Store(d.amount)
    else if d.credit == cash then -Store(d.amount)
    else 0
  }

  function CashMoves(b: Book, j: Job, n: nat): int
    requires n <= |j.txns| && j.period < |b.periods|
  {
    if n == 0 then 0 else CashMoves(b, j, n - 1) + CashMove(DecisionOf(b, j, n - 1), j.cash)
  }

  predicate Covers(w: Window, p: Period) { (w.start.Some? ==> w.start.value <= p.start) && p.end <= w.end }

  lemma TwoLineNet(d: nat, c: nat, v: int, cash: nat)
    ensures LineNet([Line(d, v, 0), Line(c, 0, v)], {cash})
         == (if d == cash then v else 0) - (if c == cash then v else 0)
  {
    var ls := [Line(d, v, 0), Line(c, 0, v)];
    assert ls[..1] == [Line(d, v, 0)] && [Line(d, v, 0)][..0] == [];
    LineSumOne(Line(d, v, 0), cash, Debit);
    LineSumOne(Line(d, v, 0), cash, Credit);
  }

  lemma LineSumOne(l: Line, cash: nat, side: Side)
    ensures LineSum([l], {cash}, side) == if l.account == cash then Amount(l, side) else 0
  {
    assert [l][..0] == [];
    assert LineSum([], {cash}, side) == 0;
  }

  /** The entry a successful row appends, and its effect on one account. */
  lemma RowEffect(b: Book, period: nat, date: int, d: nat, c: nat, x: real, w: Window, cash: nat)
    requires x > 0.0 && period < |b.periods| && Covers(w, b.periods[period])
    requires PostSpec(b, period, date, TwoLines(d, c, x)).1.Ok?
    ensures Net(PostSpec(b, period, date, TwoLines(d, c, x)).0.entries, w, {cash})
         == Net(b.entries, w, {cash}) + (if d == cash then Store(x) else 0) - (if c == cash then Store(x) else 0)
    ensures Store(x) as real == x * SCALE
  {
    RowOutcome(b, period, date, d, c, x);
    StoreFacts(x);
    var stored := StoredLines(TwoLines(d, c, x));
    assert stored == [Line(d, Store(x), 0), Line(c, 0, Store(x))];
    var e := Entry(period, date, stored, Posted);
    assert PostSpec(b, period, date, TwoLines(d, c, x)).0.entries == b.entries + [e];
    assert (b.entries + [e])[..|b.entries|] == b.entries;
    TwoLineNet(d, c, Store(x), cash);
  }

  lemma CashStep(b: Book, period: nat, d: Decision, w: Window, cash: nat)
    requires d.Ready? && d.amount > 0.0 && period < |b.periods| && Covers(w, b.periods[period])
    requires PostSpec(b, period, d.date, TwoLines(d.debit, d.credit, d.amount)).1.Ok?
    ensures Net(PostSpec(b, period, d.date, TwoLines(d.debit, d.credit, d.amount)).0.entries, w, {cash})
         == Net(b.entries, w, {cash}) + CashMove(d, cash)
    ensures Store(d.amount) as real == d.amount * SCALE
  {
    RowEffect(b, period, d.date, d.debit, d.credit, d.amount, w, cash);
  }

  predicate Exact(x: real) { Store(x) as real == x * SCALE }

  lemma CashMovesStep(b: Book, j: Job, n: nat, w: Window)
    requires 0 < n <= |j.txns| && j.period < |b.periods| && PostRows(b, j, n).1.None? && Covers(w, b.periods[j.period])
    ensures PostRows(b, j, n - 1).1.None?
    ensures Net(PostRows(b, j, n).0.book.entries, w, {j.cash})
         == Net(PostRows(b, j, n - 1).0.book.entries, w, {j.cash}) + CashMove(DecisionOf(b, j, n - 1), j.cash)
  {
    RowStep(b, j, n);
    if DecisionOf(b, j, n - 1).Ready? {
      DecidedPositive(b, j, n - 1);
      CashStep(PostRows(b, j, n - 1).0.book, j.period, DecisionOf(b, j, n - 1), w, j.cash);
    }
  }

  /** Cash moves by exactly the posted deposits less the posted payments. */
  lemma {:induction false} CashMovesExactly(b: Book, j: Job, n: nat, w: Window)
    requires n <= |j.txns| && j.period < |b.periods| && PostRows(b, j, n).1.None? && Covers(w, b.periods[j.period])
    ensures Net(PostRows(b, j, n).0.book.entries, w, {j.cash}) == Net(b.entries, w, {j.cash}) + CashMoves(b, j, n)
  {
    if n > 0 {
      CashMovesStep(b, j, n, w);
      CashMovesExactly(b, j, n - 1, w);
    }
  }

  /** No posted amount is rounded on storage. */
  lemma PostedAmountsExact(b: Book, j: Job, n: nat, i: nat)
    requires i < n <= |j.txns| && j.period < |b.periods| && PostRows(b, j, n).1.None? && DecisionOf(b, j, i).Ready?
    ensures Exact(DecisionOf(b, j, i).amount)
  {
    StatementOutcome(b, j, n);
    assert RowFine(b, j.period, DecisionOf(b, j, i));
    DecidedPositive(b, j, i);
    StoreFacts(DecisionOf(b, j, i).amount);
  }

  /** The direction of a row decides the side of cash. */
  lemma CashSide(b: Book, j: Job, i: nat)
    requires i < |j.txns| && j.period < |b.periods| && DecisionOf(b, j, i).Ready?
    ensures var code := ChosenCode(j.overrides, i, j.txns[i]);
            code in j.codes && CashMove(DecisionOf(b, j, i), j.cash)
              == if j.codes[code] == j.cash then 0
                 else if j.txns[i].direction == Deposit then Store(j.txns[i].amount.value)
                 else -Store(j.txns[i].amount.value)
  {
  }

  // ----- runs ---------------------------------------------------------------------------------------------

  datatype Request =
    | LedgerOp(op: Op)
    | Submit(isStatement: bool, txns: seq<Txn>)
    | Promote(firm: bool, draft: nat, period: nat, date: int, lines: seq<LineInput>)
    | Reject(firm: bool, draft: nat)
    | PromoteAll(firm: bool, draft: nat, period: nat, cashCode: string, overrides: map<nat, string>)

  function Serve(d: Desk, q: Request): Desk {
    match q
    case LedgerOp(op) => d.(book := Apply(d.book, op))
    case Submit(s, txns) => d.(drafts := d.drafts + [Promotion.Draft.Draft(Pending, s, txns, None, [], [])])
    case Promote(firm, id, p, date, ls) => PromoteSpec(d, firm, id, p, date, ls).0
    case Reject(firm, id) => RejectSpec(d, firm, id).0
    case PromoteAll(firm, id, p, code, overrides) => StatementSpec(d, firm, id, p, code, overrides).0
  }

  function RunDesk(qs: seq<Request>): Desk {
    if qs == [] then Desk(Book([], [], []), []) else Serve(RunDesk(qs[..|qs|-1]), qs[|qs|-1])
  }

  /** The request promotes draft `id`. */
  predicate Promotes(d: Desk, q: Request, id: nat) {
    match q
    case Promote(firm, i, p, date, ls) => i == id && PromoteSpec(d, firm, i, p, date, ls).1.Ok?
    case PromoteAll(firm, i, p, code, overrides) => i == id && StatementSpec(d, firm, i, p, code, overrides).1.Ok?
    case _ => false
  }

  function Promotions(qs: seq<Request>, id: nat): nat {
    if qs == [] then 0
    else Promotions(qs[..|qs|-1], id) + if Promotes(RunDesk(qs[..|qs|-1]), qs[|qs|-1], id) then 1 else 0
  }

  predicate IsPromoted(d: Desk, id: nat) { id < |d.drafts| && d.drafts[id].status == Promoted }

  function One(b: bool): nat { if b then 1 else 0 }

  /** A statement promotion that goes through turns one pending draft into a promoted one. */
  lemma StatementShape(d: Desk, firm: bool, id: nat, period: nat, cashCode: string, overrides: map<nat, string>)
    ensures var (e, r) := StatementSpec(d, firm, id, period, cashCode, overrides);
            if r.Err? then e == d
            else
              && id < |d.drafts| && d.drafts[id].status == Pending && |e.drafts| == |d.drafts|
              && e.drafts[id].status == Promoted && forall i :: 0 <= i < |d.drafts| && i != id ==> e.drafts[i] == d.drafts[i]
  {
  }

  /** What one request does to the drafts. */
  lemma DraftStep(d: Desk, q: Request, id: nat)
    ensures One(IsPromoted(Serve(d, q), id)) == One(IsPromoted(d, id)) + One(Promotes(d, q, id))
    ensures id < |d.drafts| ==> id < |Serve(d, q).drafts|
    ensures id < |d.drafts| && d.drafts[id].status != Pending ==> Serve(d, q).drafts[id] == d.drafts[id]
  {
    match q
    case PromoteAll(firm, i, p, code, overrides) => StatementShape(d, firm, i, p, code, overrides);
    case _ =>
  }

  /** Over all runs a draft produces journal entries at most once, and then it is promoted. */
  lemma {:induction false} PromotedAtMostOnce(qs: seq<Request>, id: nat)
    ensures Promotions(qs, id) == One(IsPromoted(RunDesk(qs), id))
  {
    if qs != [] {
      PromotedAtMostOnce(qs[..|qs|-1], id);
      DraftStep(RunDesk(qs[..|qs|-1]), qs[|qs|-1], id);
    }
  }

  /** A promoted or rejected draft never changes again. */
  lemma {:induction false} TerminalForGood(qs: seq<Request>, more: seq<Request>, id: nat)
    requires id < |RunDesk(qs).drafts| && RunDesk(qs).drafts[id].status != Pending
    ensures id < |RunDesk(qs + more).drafts| && RunDesk(qs + more).drafts[id] == RunDesk(qs).drafts[id]
    decreases |more|
  {
    if more == [] {
      assert qs + more == qs;
    } else {
      TerminalForGood(qs, more[..|more|-1], id);
      assert (qs + more)[..|qs + more|-1] == qs + more[..|more|-1];
      DraftStep(RunDesk(qs + more[..|more|-1]), more[|more|-1], id);
    }
  }

  lemma {:induction false} RowsKeepBookOk(b: Book, j: Job, n: nat)
    requires BookOk(b) && n <= |j.txns| && j.period < |b.periods| && PostRows(b, j, n).1.None?
    ensures BookOk(PostRows(b, j, n).0.book)
  {
    if n > 0 {
      RowsKeepBookOk(b, j, n - 1);
      var d := DecisionOf(b, j, n - 1);
      if d.Ready? {
        PostOk(PostRows(b, j, n - 1).0.book, j.period, d.date, TwoLines(d.debit, d.credit, d.amount));
      }
    }
  }

  lemma StatementKeepsBookOk(d: Desk, firm: bool, id: nat, p: nat, code: string, overrides: map<nat, string>)
    requires BookOk(d.book)
    ensures BookOk(StatementSpec(d, firm, id, p, code, overrides).0.book)
  {
    if StatementSpec(d, firm, id, p, code, overrides).1.Ok? {
      var codes := ActiveByCode(d.book.accounts, |d.book.accounts|);
      var j := Job(p, codes[code], codes, overrides, d.drafts[id].txns);
      RowsKeepBookOk(d.book, j, |j.txns|);
    }
  }

  lemma LedgerStepOk(b: Book, op: Op)
    requires BookOk(b)
    ensures BookOk(Apply(b, op))
  {
    match op
    case PostOp(p, date, ls) => PostOk(b, p, date, ls);
    case ReverseOp(id) => ReverseOk(b, id);
    case _ =>
      forall k | 0 <= k < |b.entries| ensures EntryOk(Apply(b, op), b.entries[k]) { assert EntryOk(b, b.entries[k]); }
  }

  /** Promotions keep every entry balanced and on leaf accounts, so all that holds of reachable books
      holds of the books that promotions write. */
  lemma {:induction false} DeskBooksOk(qs: seq<Request>)
    ensures BookOk(RunDesk(qs).book)
  {
    if qs != [] {
      var d := RunDesk(qs[..|qs|-1]);
      DeskBooksOk(qs[..|qs|-1]);
      match qs[|qs|-1]
      case LedgerOp(op) => LedgerStepOk(d.book, op);
      case Promote(firm, id, p, date, ls) => PostOk(d.book, p, date, ls);
      case PromoteAll(firm, id, p, code, overrides) => StatementKeepsBookOk(d, firm, id, p, code, overrides);
      case _ =>
    }
  }

  /** A request that raises leaves book and drafts as they were. */
  lemma RaiseLeavesAll(d: Desk, q: Request, id: nat)
    requires (q.Promote? || q.PromoteAll?) && q.draft == id && !Promotes(d, q, id)
    ensures Serve(d, q) == d
  {
  }

  lemma OneMoreEntry(b: Book, p: nat, date: int, ls: seq<LineInput>)
    requires PostSpec(b, p, date, ls).1.Ok?
    ensures var (c, r) := PostSpec(b, p, date, ls);
            r.value == |b.entries| && |c.entries| == |b.entries| + 1 && b.entries <= c.entries
  {
    CommittedEntryIsExact(b, p, date, ls);
  }

  /** What a promoted statement recorded: its entries are new, consecutive, and were posted in the
      order of its transactions. */
  lemma {:induction false} PostedAreNew(b: Book, j: Job, n: nat)
    requires n <= |j.txns| && j.period < |b.periods| && PostRows(b, j, n).1.None?
    ensures var t := PostRows(b, j, n).0;
            && b.entries <= t.book.entries && |t.book.entries| == |b.entries| + |t.posted|
            && forall k :: 0 <= k < |t.posted| ==> t.posted[k].1 == |b.entries| + k
  {
    if n > 0 {
      RowStep(b, j, n);
      PostedAreNew(b, j, n - 1);
      var d := DecisionOf(b, j, n - 1);
      if d.Ready? {
        OneMoreEntry(PostRows(b, j, n - 1).0.book, j.period, d.date, TwoLines(d.debit, d.credit, d.amount));
      }
    }
  }
}
