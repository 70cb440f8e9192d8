/** The Redis-streams consumer: workers of one group read a stream of jobs, run each, and
    acknowledge, requeue or dead-letter it. Every action is a step of its own, so a worker
    can crash between any two. */
module Consumer {
  import opened Sums

  const MAX_DELIVERIES: nat := 5
  const BATCH: nat := 8

  /** How far a worker is with a message it holds. */
  datatype Phase = Fetched | Succeeded | Failed | Handled

  /** Where the group has the message: not delivered yet, added before the group existed,
      pending with a worker, pending with a worker that is gone, or acknowledged. */
  datatype Place = Unread | Skipped | Held(worker: nat, phase: Phase) | Orphaned | Acked

  datatype Outcome = Open | Done | Requeued | DeadLettered

  datatype Message = Message(job: nat, deliveries: nat, place: Place, outcome: Outcome, dispatches: nat)

  /** `next` is one past the last message delivered to the group. */
  datatype State = State(
    stream: seq<Message>, jobs: nat, hasGroup: bool, next: nat, dead: seq<nat>, batches: map<nat, seq<nat>>)

  const INIT := State([], 0, false, 0, [], map[])

  datatype Op =
    | Enqueue
    | StartWorker
    | Read(worker: nat)
    | Dispatch(worker: nat, succeeds: bool)
    | Ack(worker: nat)
    | AckFails(worker: nat)
    | DeadLetter(worker: nat)
    | Requeue(worker: nat)
    | Crash(worker: nat)

  // ----- steps ------------------------------------------------------------------------------

  function BatchOf(s: State, w: nat): seq<nat> { if w in s.batches then s.batches[w] else [] }

  /** The worker is at a message, in the given phase. */
  predicate At(s: State, w: nat, phase: Phase) {
    var b := BatchOf(s, w);
    b != [] && b[0] < |s.stream| && s.stream[b[0]].place == Held(w, phase)
  }

  function Put(s: State, i: nat, m: Message): State
    requires i < |s.stream|
  {
    s.(stream := s.stream[i := m])
  }

  /** `xgroup_create` at `$`: everything already in the stream is behind the group for good.
      A second creation is refused by Redis and ignored. */
  function CreateGroup(s: State): State {
    if s.hasGroup then s
    else s.(hasGroup := true, next := |s.stream|,
            stream := seq(|s.stream|, i requires 0 <= i < |s.stream| => s.stream[i].(place := Skipped)))
  }

  function ReadCount(s: State): nat {
    if s.next >= |s.stream| then 0 else if |s.stream| - s.next < BATCH then |s.stream| - s.next else BATCH
  }

  /** `xreadgroup` with `>`: up to eight messages never delivered before. */
  function ReadBatch(s: State, w: nat): State {
    var n := ReadCount(s);
    if !s.hasGroup || BatchOf(s, w) != [] || n == 0 then s
    else
      s.(next := s.next + n,
         stream := seq(|s.stream|, i requires 0 <= i < |s.stream| =>
                     if s.next <= i < s.next + n then s.stream[i].(place := Held(w, Fetched)) else s.stream[i]),
         batches := s.batches[w := seq(n, k requires 0 <= k => s.next + k)])
  }

  /** The worker is done with the first message of its batch. */
  function Advance(s: State, w: nat): State {
    var b := BatchOf(s, w);
    s.(batches := s.batches[w := if b == [] then [] else b[1..]])
  }

  function Enabled(s: State, op: Op): bool {
    match op
    case Enqueue => true
    case StartWorker => !s.hasGroup
    case Read(w) => s.hasGroup && BatchOf(s, w) == [] && ReadCount(s) > 0
    case Dispatch(w, _) => At(s, w, Fetched)
    case Ack(w) => At(s, w, Succeeded) || At(s, w, Handled)
    case AckFails(w) => At(s, w, Succeeded)
    case DeadLetter(w) => At(s, w, Failed) && s.stream[BatchOf(s, w)[0]].deliveries >= MAX_DELIVERIES
    case Requeue(w) => At(s, w, Failed) && s.stream[BatchOf(s, w)[0]].deliveries < MAX_DELIVERIES
    case Crash(w) => BatchOf(s, w) != []
  }

  function Step(s: State, op: Op): State {
    if !Enabled(s, op) then s
    else
      match op
      case Enqueue => s.(stream := s.stream + [Message(s.jobs, 1, Unread, Open, 0)], jobs := s.jobs + 1)
      case StartWorker => CreateGroup(s)
      case Read(w) => ReadBatch(s, w)
      case Dispatch(w, ok) =>
        var i := BatchOf(s, w)[0];
        var m := s.stream[i];
        Put(s, i, m.(place := Held(w, if ok then Succeeded else Failed), dispatches := m.dispatches + 1))
      case Ack(w) =>
        var i := BatchOf(s, w)[0];
        var m := s.stream[i];
        Advance(Put(s, i, m.(place := Acked, outcome := if m.outcome == Open then Done else m.outcome)), w)
      case AckFails(w) =>
        var i := BatchOf(s, w)[0];
        Put(s, i, s.stream[i].(place := Held(w, Failed)))
      case DeadLetter(w) =>
        var i := BatchOf(s, w)[0];
        Put(s, i, s.stream[i].(place := Held(w, Handled), outcome := DeadLettered)).(dead := s.dead + [s.stream[i].job])
      case Requeue(w) =>
        var i := BatchOf(s, w)[0];
        var m := s.stream[i];
        var t := Put(s, i, m.(place := Held(w, Handled), outcome := Requeued));
        t.(stream := t.stream + [Message(m.job, m.deliveries + 1, Unread, Open, 0)])
      case Crash(w) =>
        s.(stream := seq(|s.stream|, i requires 0 <= i < |s.stream| =>
                       if s.stream[i].place.Held? && s.stream[i].place.worker == w then s.stream[i].(place := Orphaned)
                       else s.stream[i]),
           batches := s.batches[w := []])
  }

  function Run(ops: seq<Op>): State {
    if ops == [] then INIT else Step(Run(ops[..|ops|-1]), ops[|ops|-1])
  }

  /** `_process` without a crash: the message is run, then acknowledged on success, dead-lettered
      and acknowledged on the fifth failure, requeued with one more delivery and acknowledged before. */
  method Process(s: State, w: nat, succeeds: bool) returns (t: State)
    requires At(s, w, Fetched) && s.stream[BatchOf(s, w)[0]].outcome == Open
    ensures var i := BatchOf(s, w)[0];
            var m := s.stream[i];
            var last := m.deliveries >= MAX_DELIVERIES;
            && BatchOf(t, w) == BatchOf(s, w)[1..]
            && t.stream == s.stream[i := m.(
                 place := Acked, dispatches := m.dispatches + 1,
                 outcome := if succeeds then Done else if last then DeadLettered else Requeued)]
               + (if succeeds || last then [] else [Message(m.job, m.deliveries + 1, Unread, Open, 0)])
            && t.dead == s.dead + if !succeeds && last then [m.job] else []
  {
    t := Step(s, Dispatch(w, succeeds));
    if !succeeds {
      if t.stream[BatchOf(t, w)[0]].deliveries >= MAX_DELIVERIES {
        t := Step(t, DeadLetter(w));
      } else {
        t := Step(t, Requeue(w));
      }
    }
    t := Step(t, Ack(w));
  }

  // ----- what every run keeps ------------------------------------------------------------------

  /** A job's messages carry deliveries 1 to 5; the group has read exactly the first `next`; an
      acknowledged message has an outcome; a requeued one has a successor of the same job. */
  ghost predicate MessageOk(s: State, i: nat)
    requires i < |s.stream|
  {
    var m := s.stream[i];
    && m.job < s.jobs && 1 <= m.deliveries <= MAX_DELIVERIES
    && (m.place == Unread <==> !s.hasGroup || s.next <= i)
    && (m.place == Acked ==> m.outcome != Open)
    && (m.outcome != Open ==> m.place == Acked || m.place == Orphaned || (m.place.Held? && m.place.phase == Handled))
    && (m.place.Held? && m.place.phase == Handled ==> m.outcome == Requeued || m.outcome == DeadLettered)
    && (m.outcome == Requeued ==> exists k :: i < k < |s.stream| && s.stream[k].job == m.job)
  }

  ghost predicate HasJob(s: State, j: nat) { exists i :: 0 <= i < |s.stream| && s.stream[i].job == j }

  ghost predicate Ok(s: State) {
    && s.next <= |s.stream|
    && (forall i :: 0 <= i < |s.stream| ==> MessageOk(s, i))
    && (forall j: nat :: j < s.jobs ==> HasJob(s, j))
  }

  lemma {:induction false} RunOk(ops: seq<Op>)
    ensures Ok(Run(ops))
  {
    if ops != [] {
      RunOk(ops[..|ops|-1]);
      StepOk(Run(ops[..|ops|-1]), ops[|ops|-1]);
    }
  }

  /** No step moves a message to another job or removes it. */
  lemma StepKeepsJobs(s: State, op: Op)
    ensures |Step(s, op).stream| >= |s.stream| && Step(s, op).jobs >= s.jobs
    ensures forall i :: 0 <= i < |s.stream| ==>
              Step(s, op).stream[i].job == s.stream[i].job && Step(s, op).stream[i].deliveries == s.stream[i].deliveries
  {
    var t := Step(s, op);
    if Enabled(s, op) {
      match op
      case StartWorker => assert t == CreateGroup(s);
      case Read(w) => assert t == ReadBatch(s, w);
      case _ =>
    }
  }

  lemma StepOk(s: State, op: Op)
    requires Ok(s)
    ensures Ok(Step(s, op))
  {
    var t := Step(s, op);
    StepKeepsJobs(s, op);
    forall i | 0 <= i < |t.stream| ensures MessageOk(t, i) {
      if i < |s.stream| {
        assert MessageOk(s, i);
        if s.stream[i].outcome == Requeued {
          var k :| i < k < |s.stream| && s.stream[k].job == s.stream[i].job;
          assert t.stream[k].job == t.stream[i].job;
        }
        if op.Requeue? && Enabled(s, op) {
          assert t.stream[|s.stream|].job == s.stream[BatchOf(s, op.worker)[0]].job;
        }
      } else if op.Requeue? {
        assert MessageOk(s, BatchOf(s, op.worker)[0]);
      }
    }
    forall j: nat | j < t.jobs ensures HasJob(t, j) {
      if j < s.jobs {
        assert HasJob(s, j);
        var i :| 0 <= i < |s.stream| && s.stream[i].job == j;
        assert t.stream[i].job == j;
      } else {
        assert t.stream[|s.stream|].job == j;
      }
    }
  }

  // ----- no job vanishes --------------------------------------------------------------------------

  /** The last message of a job. */
  ghost predicate IsLast(s: State, i: nat) {
    i < |s.stream| && forall k :: i < k < |s.stream| ==> s.stream[k].job != s.stream[i].job
  }

  lemma {:induction false} LastExists(s: State, i: nat)
    requires i < |s.stream|
    ensures exists l: nat :: i <= l && IsLast(s, l) && s.stream[l].job == s.stream[i].job
    decreases |s.stream| - i
  {
    if !IsLast(s, i) {
      var k :| i < k < |s.stream| && s.stream[k].job == s.stream[i].job;
      LastExists(s, k);
    }
  }

  /** Waiting to be read, read before the group existed, pending, done or dead-lettered. */
  predicate Accounted(m: Message) {
    m.place == Unread || m.place == Skipped || m.place.Held? || m.place == Orphaned
    || (m.place == Acked && (m.outcome == Done || m.outcome == DeadLettered))
  }

  /** Under every interleaving and every crash each job ever enqueued is accounted for by its last
      message, which has not been requeued. */
  lemma NoJobVanishes(ops: seq<Op>, j: nat)
    requires j < Run(ops).jobs
    ensures exists i: nat :: IsLast(Run(ops), i) && Run(ops).stream[i].job == j && Accounted(Run(ops).stream[i])
                        && Run(ops).stream[i].outcome != Requeued
  {
    var s := Run(ops);
    RunOk(ops);
    assert HasJob(s, j);
    var i: nat :| i < |s.stream| && s.stream[i].job == j;
    LastExists(s, i);
    var l: nat :| i <= l && IsLast(s, l) && s.stream[l].job == j;
    assert MessageOk(s, l);
  }

  // ----- sums over the stream ------------------------------------------------------------------------

  lemma {:induction false} SumNoMore(ms: seq<Message>, ns: seq<Message>, f: Message -> int, g: Message -> int)
    requires |ms| == |ns| && forall i :: 0 <= i < |ms| ==> g(ns[i]) <= f(ms[i])
    ensures SumOver(ns, g) <= SumOver(ms, f)
  {
    if ms != [] { SumNoMore(ms[..|ms|-1], ns[..|ns|-1], f, g); }
  }

  lemma {:induction false} SumLess(ms: seq<Message>, ns: seq<Message>, f: Message -> int, k: nat)
    requires |ms| == |ns| && k < |ms| && f(ns[k]) < f(ms[k]) && forall i :: 0 <= i < |ms| ==> f(ns[i]) <= f(ms[i])
    ensures SumOver(ns, f) < SumOver(ms, f)
  {
    var n := |ms| - 1;
    if k < n {
      SumLess(ms[..n], ns[..n], f, k);
    } else {
      SumNoMore(ms[..n], ns[..n], f, f);
    }
  }

  lemma {:induction false} SumAt(ms: seq<Message>, i: nat, m: Message, f: Message -> int)
    requires i < |ms|
    ensures SumOver(ms[i := m], f) == SumOver(ms, f) - f(ms[i]) + f(m)
  {
    var n := |ms| - 1;
    if i < n {
      assert ms[i := m][..n] == ms[..n][i := m];
      SumAt(ms[..n], i, m, f);
    } else {
      assert ms[i := m][..n] == ms[..n];
    }
  }

  lemma SumSnoc(ms: seq<Message>, m: Message, f: Message -> int)
    ensures SumOver(ms + [m], f) == SumOver(ms, f) + f(m)
  {
    assert (ms + [m])[..|ms|] == ms;
  }

  lemma {:induction false} SumZero(ms: seq<Message>, f: Message -> int)
    requires forall i :: 0 <= i < |ms| ==> f(ms[i]) == 0
    ensures SumOver(ms, f) == 0
  {
    if ms != [] { SumZero(ms[..|ms|-1], f); }
  }

  /** The messages that a step of a worker at one message rewrites: that one, and a successor. */
  lemma StepAtHead(s: State, op: Op)
    requires Enabled(s, op) && (op.Dispatch? || op.Ack? || op.AckFails? || op.DeadLetter?)
    ensures var i := BatchOf(s, op.worker)[0];
            i < |s.stream| && Step(s, op).stream == s.stream[i := Step(s, op).stream[i]]
  {
  }

  lemma HeadTotal(s: State, op: Op, f: Message -> int)
    requires Enabled(s, op) && (op.Dispatch? || op.Ack? || op.AckFails? || op.DeadLetter?)
    ensures var i := BatchOf(s, op.worker)[0];
            SumOver(Step(s, op).stream, f) == SumOver(s.stream, f) - f(s.stream[i]) + f(Step(s, op).stream[i])
  {
    var i := BatchOf(s, op.worker)[0];
    StepAtHead(s, op);
    SumAt(s.stream, i, Step(s, op).stream[i], f);
  }

  lemma RequeueTotal(s: State, w: nat, f: Message -> int)
    requires Enabled(s, Requeue(w))
    ensures var m := s.stream[BatchOf(s, w)[0]];
            SumOver(Step(s, Requeue(w)).stream, f)
            == SumOver(s.stream, f) - f(m) + f(m.(place := Held(w, Handled), outcome := Requeued))
               + f(Message(m.job, m.deliveries + 1, Unread, Open, 0))
  {
    var i := BatchOf(s, w)[0];
    var m := s.stream[i];
    var handled := m.(place := Held(w, Handled), outcome := Requeued);
    SumAt(s.stream, i, handled, f);
    SumSnoc(s.stream[i := handled], Message(m.job, m.deliveries + 1, Unread, Open, 0), f);
  }

  // ----- at most five dispatches --------------------------------------------------------------------

  /** How often the message and its successors can still be dispatched. */
  function Ahead(m: Message): int {
    match m.place
    case Unread => MAX_DELIVERIES + 1 - m.deliveries
    case Held(_, Fetched) => MAX_DELIVERIES + 1 - m.deliveries
    case Held(_, Succeeded) => MAX_DELIVERIES - m.deliveries
    case Held(_, Failed) => MAX_DELIVERIES - m.deliveries
    case _ => 0
  }

  /** Dispatches of a job. */
  function Dispatched(j: nat): Message -> int { (m: Message) => if m.job == j then m.dispatches else 0 }

  /** Dispatches made and still possible. */
  function Budget(j: nat): Message -> int { (m: Message) => if m.job == j then m.dispatches + Ahead(m) else 0 }

  lemma AheadNeverNegative(s: State)
    requires Ok(s)
    ensures forall i :: 0 <= i < |s.stream| ==> Ahead(s.stream[i]) >= 0
  {
    forall i | 0 <= i < |s.stream| ensures Ahead(s.stream[i]) >= 0 { assert MessageOk(s, i); }
  }

  lemma NewJobIsEmpty(s: State, f: Message -> int)
    requires Ok(s) && forall m: Message :: m.job != s.jobs ==> f(m) == 0
    ensures SumOver(s.stream, f) == 0
  {
    forall i | 0 <= i < |s.stream| ensures f(s.stream[i]) == 0 { assert MessageOk(s, i); }
    SumZero(s.stream, f);
  }

  lemma BudgetStep(s: State, op: Op, j: nat)
    requires Ok(s) && j < Step(s, op).jobs
    ensures SumOver(Step(s, op).stream, Budget(j)) <= if j < s.jobs then SumOver(s.stream, Budget(j)) else MAX_DELIVERIES
  {
    var t, f := Step(s, op), Budget(j);
    if Enabled(s, op) {
      match op
      case Enqueue =>
        SumSnoc(s.stream, t.stream[|s.stream|], f);
        if j == s.jobs { NewJobIsEmpty(s, f); }
      case Requeue(w) =>
        RequeueTotal(s, w, f);
      case StartWorker =>
        AheadNeverNegative(s);
        SumNoMore(s.stream, t.stream, f, f);
      case Read(w) =>
        forall i | 0 <= i < |s.stream| ensures f(t.stream[i]) <= f(s.stream[i]) { assert MessageOk(s, i); }
        SumNoMore(s.stream, t.stream, f, f);
      case Crash(w) =>
        AheadNeverNegative(s);
        SumNoMore(s.stream, t.stream, f, f);
      case _ =>
        AheadNeverNegative(s);
        HeadTotal(s, op, f);
    }
  }

  lemma {:induction false} BudgetOfRun(ops: seq<Op>, j: nat)
    requires j < Run(ops).jobs
    ensures SumOver(Run(ops).stream, Budget(j)) <= MAX_DELIVERIES
  {
    if ops != [] {
      var s := Run(ops[..|ops|-1]);
      RunOk(ops[..|ops|-1]);
      if j < s.jobs { BudgetOfRun(ops[..|ops|-1], j); }
      BudgetStep(s, ops[|ops|-1], j);
    }
  }

  /** However often workers fail and crash, a job is dispatched at most five times. */
  lemma AtMostFiveDispatches(ops: seq<Op>, j: nat)
    requires j < Run(ops).jobs
    ensures SumOver(Run(ops).stream, Dispatched(j)) <= MAX_DELIVERIES
  {
    var s := Run(ops);
    RunOk(ops);
    BudgetOfRun(ops, j);
    AheadNeverNegative(s);
    SumNoMore(s.stream, s.stream, Budget(j), Dispatched(j));
  }

  // ----- at most one dead letter ------------------------------------------------------------------------

  function DeadCount(dead: seq<nat>, j: nat): nat {
    if dead == [] then 0 else DeadCount(dead[..|dead|-1], j) + if dead[|dead|-1] == j then 1 else 0
  }

  /** The message or a successor can still be dead-lettered. */
  function MayDie(j: nat): Message -> int {
    (m: Message) => if m.job == j && (m.place == Unread || (m.place.Held? && m.place.phase != Handled)) then 1 else 0
  }

  lemma DeadHead(s: State, op: Op, j: nat)
    requires Ok(s) && Enabled(s, op) && (op.Dispatch? || op.Ack? || op.AckFails? || op.DeadLetter?)
    ensures DeadCount(Step(s, op).dead, j) + SumOver(Step(s, op).stream, MayDie(j))
         <= DeadCount(s.dead, j) + SumOver(s.stream, MayDie(j))
  {
    var i := BatchOf(s, op.worker)[0];
    assert MessageOk(s, i);
    HeadTotal(s, op, MayDie(j));
    assert (s.dead + [s.stream[i].job])[..|s.dead|] == s.dead;
  }

  lemma DeadStep(s: State, op: Op, j: nat)
    requires Ok(s) && j < Step(s, op).jobs && (forall k :: 0 <= k < |s.dead| ==> s.dead[k] < s.jobs)
    ensures DeadCount(Step(s, op).dead, j) + SumOver(Step(s, op).stream, MayDie(j))
         <= if j < s.jobs then DeadCount(s.dead, j) + SumOver(s.stream, MayDie(j)) else 1
  {
    var t, f := Step(s, op), MayDie(j);
    if j == s.jobs { NoDead(s.dead, j); }
    if Enabled(s, op) {
      match op
      case Enqueue =>
        SumSnoc(s.stream, t.stream[|s.stream|], f);
        if j == s.jobs { NewJobIsEmpty(s, f); }
      case Requeue(w) =>
        RequeueTotal(s, w, f);
      case StartWorker =>
        SumNoMore(s.stream, t.stream, f, f);
      case Read(w) =>
        forall i | 0 <= i < |s.stream| ensures f(t.stream[i]) <= f(s.stream[i]) { assert MessageOk(s, i); }
        SumNoMore(s.stream, t.stream, f, f);
      case Crash(w) =>
        SumNoMore(s.stream, t.stream, f, f);
      case _ => DeadHead(s, op, j);
    }
  }

  lemma {:induction false} DeadAreJobs(ops: seq<Op>)
    ensures forall k :: 0 <= k < |Run(ops).dead| ==> Run(ops).dead[k] < Run(ops).jobs
  {
    if ops != [] {
      var s, op := Run(ops[..|ops|-1]), ops[|ops|-1];
      DeadAreJobs(ops[..|ops|-1]);
      RunOk(ops[..|ops|-1]);
      if op.DeadLetter? && Enabled(s, op) { assert MessageOk(s, BatchOf(s, op.worker)[0]); }
    }
  }

  lemma {:induction false} NoDead(dead: seq<nat>, j: nat)
    requires forall k :: 0 <= k < |dead| ==> dead[k] < j
    ensures DeadCount(dead, j) == 0
  {
    if dead != [] { NoDead(dead[..|dead|-1], j); }
  }

  lemma {:induction false} DeadOfRun(ops: seq<Op>, j: nat)
    requires j < Run(ops).jobs
    ensures DeadCount(Run(ops).dead, j) + SumOver(Run(ops).stream, MayDie(j)) <= 1
  {
    if ops != [] {
      var s := Run(ops[..|ops|-1]);
      if j < s.jobs { DeadOfRun(ops[..|ops|-1], j); }
      RunOk(ops[..|ops|-1]);
      DeadAreJobs(ops[..|ops|-1]);
      DeadStep(s, ops[|ops|-1], j);
    }
  }

  /** A job is dead-lettered at most once. */
  lemma AtMostOneDeadLetter(ops: seq<Op>, j: nat)
    requires j < Run(ops).jobs
    ensures DeadCount(Run(ops).dead, j) <= 1
  {
    DeadOfRun(ops, j);
    var ms := Run(ops).stream;
    NeverNegative(ms, MayDie(j));
  }

  lemma {:induction false} NeverNegative(ms: seq<Message>, f: Message -> int)
    requires forall i :: 0 <= i < |ms| ==> f(ms[i]) >= 0
    ensures SumOver(ms, f) >= 0
  {
    if ms != [] { NeverNegative(ms[..|ms|-1], f); }
  }

  // ----- workers always finish ------------------------------------------------------------------------

  predicate OwnedBy(s: State, i: nat, w: nat) {
    i < |s.stream| && s.stream[i].place.Held? && s.stream[i].place.worker == w
  }

  predicate HeldBy(s: State, i: nat, w: nat) { i < s.next && OwnedBy(s, i, w) }

  /** A batch lists, in order, messages the worker holds; only the first has been worked on. */
  ghost predicate BatchOk(s: State, w: nat) {
    var b := BatchOf(s, w);
    && (forall k, l :: 0 <= k < l < |b| ==> b[k] < b[l])
    && (forall k :: 0 <= k < |b| ==> HeldBy(s, b[k], w))
    && (forall k :: 1 <= k < |b| ==> s.stream[b[k]].place == Held(w, Fetched))
  }

  ghost predicate BatchesOk(s: State) {
    s.next <= |s.stream| && (s.hasGroup || s.next == 0) && forall w: nat :: BatchOk(s, w)
  }

  lemma BatchesStep(s: State, op: Op)
    requires Ok(s) && BatchesOk(s)
    ensures BatchesOk(Step(s, op))
  {
    var t := Step(s, op);
    StepKeepsJobs(s, op);
    forall w: nat ensures BatchOk(t, w) {
      assert BatchOk(s, w);
      BatchStep(s, op, w);
    }
  }

  /** A batch survives a step that leaves it and the places of its messages alone, except that its
      first message may move to another phase. */
  lemma BatchKept(s: State, t: State, w: nat)
    requires BatchOk(s, w) && BatchOf(t, w) == BatchOf(s, w) && s.next <= t.next && |s.stream| <= |t.stream|
    requires forall k :: 0 <= k < |BatchOf(s, w)| ==> OwnedBy(t, BatchOf(s, w)[k], w)
    requires forall k :: 1 <= k < |BatchOf(s, w)| ==> t.stream[BatchOf(s, w)[k]].place == s.stream[BatchOf(s, w)[k]].place
    ensures BatchOk(t, w)
  {
    forall k | 0 <= k < |BatchOf(s, w)| ensures HeldBy(t, BatchOf(s, w)[k], w) {
      assert HeldBy(s, BatchOf(s, w)[k], w);
    }
  }

  lemma OthersUntouched(s: State, op: Op)
    requires Enabled(s, op) && (op.Dispatch? || op.Ack? || op.AckFails? || op.DeadLetter? || op.Requeue?)
    ensures var t, h := Step(s, op), BatchOf(s, op.worker)[0];
            && t.next == s.next && |s.stream| <= |t.stream| && h < |s.stream|
            && (forall i :: 0 <= i < |s.stream| && i != h ==> t.stream[i] == s.stream[i])
            && (op.Ack? || (t.batches == s.batches && t.stream[h].place.Held? && t.stream[h].place.worker == op.worker))
            && (op.Ack? ==> t.batches == s.batches[op.worker := BatchOf(s, op.worker)[1..]])
            && s.stream[h].place.Held? && s.stream[h].place.worker == op.worker
  {
  }

  /** The rest of a batch whose first message is gone. */
  lemma RestKept(s: State, t: State, w: nat)
    requires BatchOk(s, w) && BatchOf(s, w) != [] && BatchOf(t, w) == BatchOf(s, w)[1..]
    requires s.next == t.next && |s.stream| == |t.stream|
    requires forall i :: 0 <= i < |s.stream| && i != BatchOf(s, w)[0] ==> t.stream[i] == s.stream[i]
    ensures BatchOk(t, w)
  {
    var b := BatchOf(s, w);
    forall k | 0 <= k < |b| - 1 ensures HeldBy(t, b[1..][k], w) && t.stream[b[1..][k]].place == Held(w, Fetched) {
      assert b[1..][k] == b[k+1] && b[0] < b[k+1];
      assert HeldBy(s, b[k+1], w);
    }
  }

  lemma AckedBatch(s: State, v: nat, w: nat)
    requires BatchesOk(s) && Enabled(s, Ack(v))
    ensures BatchOk(Step(s, Ack(v)), w)
  {
    var t, b := Step(s, Ack(v)), BatchOf(s, w);
    OthersUntouched(s, Ack(v));
    assert BatchOk(s, v) && BatchOk(s, w);
    if v == w {
      RestKept(s, t, w);
    } else {
      forall k | 0 <= k < |b| ensures OwnedBy(t, b[k], w) { assert HeldBy(s, b[k], w); }
      BatchKept(s, t, w);
    }
  }

  lemma HeadBatch(s: State, op: Op, w: nat)
    requires BatchesOk(s) && Enabled(s, op) && (op.Dispatch? || op.AckFails? || op.DeadLetter? || op.Requeue?)
    ensures BatchOk(Step(s, op), w)
  {
    OthersUntouched(s, op);
    assert BatchOk(s, op.worker) && BatchOk(s, w);
    forall k | 0 <= k < |BatchOf(s, w)| ensures HeldBy(s, BatchOf(s, w)[k], w) {}
    BatchKept(s, Step(s, op), w);
  }

  lemma ReadKeepsBatch(s: State, v: nat, w: nat)
    requires BatchesOk(s) && Enabled(s, Read(v))
    ensures BatchOk(ReadBatch(s, v), w)
  {
    assert BatchOk(s, w);
    var t := ReadBatch(s, v);
    assert forall i :: 0 <= i < s.next ==> t.stream[i] == s.stream[i];
    if w == v {
      assert forall k :: 0 <= k < |BatchOf(t, w)| ==> BatchOf(t, w)[k] == s.next + k;
    } else {
      assert forall k :: 0 <= k < |BatchOf(s, w)| ==> HeldBy(s, BatchOf(s, w)[k], w);
    }
  }

  lemma CrashKeepsBatch(s: State, v: nat, w: nat)
    requires BatchesOk(s) && Enabled(s, Crash(v))
    ensures BatchOk(Step(s, Crash(v)), w)
  {
    var t, b := Step(s, Crash(v)), BatchOf(s, w);
    assert BatchOk(s, w);
    if v == w {
      assert BatchOf(t, w) == [];
    } else {
      forall k | 0 <= k < |b| ensures OwnedBy(t, b[k], w) && t.stream[b[k]].place == s.stream[b[k]].place {
        assert HeldBy(s, b[k], w);
      }
      BatchKept(s, t, w);
    }
  }

  lemma StartKeepsBatch(s: State, w: nat)
    requires BatchesOk(s) && !s.hasGroup
    ensures BatchOk(CreateGroup(s), w)
  {
    assert BatchOk(s, w);
    assert forall k :: 0 <= k < |BatchOf(s, w)| ==> HeldBy(s, BatchOf(s, w)[k], w);
  }

  lemma BatchStep(s: State, op: Op, w: nat)
    requires Ok(s) && BatchesOk(s)
    ensures BatchOk(Step(s, op), w)
  {
    assert BatchOk(s, w);
    if Enabled(s, op) {
      match op
      case StartWorker => StartKeepsBatch(s, w);
      case Enqueue =>
      case Read(v) => ReadKeepsBatch(s, v, w);
      case Crash(v) => CrashKeepsBatch(s, v, w);
      case Ack(v) => AckedBatch(s, v, w);
      case _ => HeadBatch(s, op, w);
    }
  }

  lemma {:induction false} BatchesOfRun(ops: seq<Op>)
    ensures BatchesOk(Run(ops))
  {
    if ops != [] {
      BatchesOfRun(ops[..|ops|-1]);
      RunOk(ops[..|ops|-1]);
      BatchesStep(Run(ops[..|ops|-1]), ops[|ops|-1]);
    }
  }

  /** A worker with a batch can always go on, and one without can read whenever something is left. */
  lemma WorkersNeverStuck(ops: seq<Op>, w: nat)
    ensures var s := Run(ops);
            BatchOf(s, w) != [] ==> Enabled(s, Dispatch(w, true)) || Enabled(s, Ack(w)) || Enabled(s, DeadLetter(w))
                                    || Enabled(s, Requeue(w))
    ensures var s := Run(ops);
            BatchOf(s, w) == [] && s.hasGroup && s.next < |s.stream| ==> Enabled(s, Read(w))
  {
    var s := Run(ops);
    BatchesOfRun(ops);
    assert BatchOk(s, w);
    if BatchOf(s, w) != [] {
      var place := s.stream[BatchOf(s, w)[0]].place;
      assert HeldBy(s, BatchOf(s, w)[0], w) && place == Held(w, place.phase);
      match place.phase
      case Fetched => assert Enabled(s, Dispatch(w, true));
      case Succeeded => assert Enabled(s, Ack(w));
      case Failed => assert Enabled(s, DeadLetter(w)) || Enabled(s, Requeue(w));
      case Handled => assert Enabled(s, Ack(w));
    }
  }

  /** Work left on a message and its successors. */
  function Effort(): Message -> int {
    (m: Message) =>
      match m.place
      case Unread => 5 * (MAX_DELIVERIES + 1 - m.deliveries)
      case Held(_, Fetched) => 5 * (MAX_DELIVERIES + 1 - m.deliveries) - 1
      case Held(_, Succeeded) => 5 * (MAX_DELIVERIES + 1 - m.deliveries) - 2
      case Held(_, Failed) => 5 * (MAX_DELIVERIES + 1 - m.deliveries) - 3
      case Held(_, Handled) => 1
      case _ => 0
  }

  predicate WorkerStep(s: State, op: Op) { Enabled(s, op) && !op.Enqueue? && !op.StartWorker? }

  lemma EffortNonNegative(s: State)
    requires Ok(s)
    ensures forall i :: 0 <= i < |s.stream| ==> Effort()(s.stream[i]) >= 0
  {
    forall i | 0 <= i < |s.stream| ensures Effort()(s.stream[i]) >= 0 { assert MessageOk(s, i); }
  }

  lemma HeadEffort(s: State, op: Op)
    requires Ok(s) && Enabled(s, op)
    requires op.Dispatch? || op.Ack? || op.AckFails? || op.DeadLetter? || op.Requeue?
    ensures SumOver(Step(s, op).stream, Effort()) < SumOver(s.stream, Effort())
  {
    assert MessageOk(s, BatchOf(s, op.worker)[0]);
    if op.Requeue? {
      RequeueTotal(s, op.worker, Effort());
    } else {
      HeadTotal(s, op, Effort());
    }
  }

  lemma ReadEffort(s: State, w: nat)
    requires Ok(s) && Enabled(s, Read(w))
    ensures SumOver(Step(s, Read(w)).stream, Effort()) < SumOver(s.stream, Effort())
  {
    var t := Step(s, Read(w));
    forall i | 0 <= i < |s.stream| ensures Effort()(t.stream[i]) <= Effort()(s.stream[i]) { assert MessageOk(s, i); }
    assert MessageOk(s, s.next);
    SumLess(s.stream, t.stream, Effort(), s.next);
  }

  lemma CrashEffort(s: State, w: nat)
    requires Ok(s) && BatchesOk(s) && Enabled(s, Crash(w))
    ensures SumOver(Step(s, Crash(w)).stream, Effort()) < SumOver(s.stream, Effort())
  {
    EffortNonNegative(s);
    assert BatchOk(s, w);
    var i := BatchOf(s, w)[0];
    assert HeldBy(s, i, w) && MessageOk(s, i);
    SumLess(s.stream, Step(s, Crash(w)).stream, Effort(), i);
  }

  lemma EffortStep(s: State, op: Op)
    requires Ok(s) && BatchesOk(s)
    ensures WorkerStep(s, op) ==> SumOver(Step(s, op).stream, Effort()) < SumOver(s.stream, Effort())
    ensures !WorkerStep(s, op) && !op.Enqueue? ==> SumOver(Step(s, op).stream, Effort()) <= SumOver(s.stream, Effort())
    ensures op.Enqueue? ==> SumOver(Step(s, op).stream, Effort()) == SumOver(s.stream, Effort()) + 25
  {
    if Enabled(s, op) {
      match op
      case Enqueue =>
        SumSnoc(s.stream, Message(s.jobs, 1, Unread, Open, 0), Effort());
      case StartWorker =>
        EffortNonNegative(s);
        SumNoMore(s.stream, Step(s, op).stream, Effort(), Effort());
      case Read(w) => ReadEffort(s, w);
      case Crash(w) => CrashEffort(s, w);
      case _ => HeadEffort(s, op);
    }
  }

  function WorkerSteps(ops: seq<Op>): nat {
    if ops == [] then 0
    else WorkerSteps(ops[..|ops|-1]) + if WorkerStep(Run(ops[..|ops|-1]), ops[|ops|-1]) then 1 else 0
  }

  lemma WorkStep(s: State, op: Op, steps: nat)
    requires Ok(s) && BatchesOk(s) && steps + SumOver(s.stream, Effort()) <= 25 * s.jobs
    ensures steps + (if WorkerStep(s, op) then 1 else 0) + SumOver(Step(s, op).stream, Effort()) <= 25 * Step(s, op).jobs
  {
    EffortStep(s, op);
    StepKeepsJobs(s, op);
  }

  /** Between enqueues the workers come to rest: all their steps together are at most 25 a job. */
  lemma {:induction false} WorkIsBounded(ops: seq<Op>)
    ensures WorkerSteps(ops) + SumOver(Run(ops).stream, Effort()) <= 25 * Run(ops).jobs
  {
    if ops != [] {
      var init := ops[..|ops|-1];
      WorkIsBounded(init);
      RunOk(init);
      BatchesOfRun(init);
      WorkStep(Run(init), ops[|ops|-1], WorkerSteps(init));
    }
  }

  // ----- which messages are skipped ---------------------------------------------------------------------

  predicate Started(ops: seq<Op>) { StartWorker in ops }

  /** How many jobs were enqueued before the first worker started. */
  function Early(ops: seq<Op>): nat {
    if ops == [] then 0
    else Early(ops[..|ops|-1]) + if ops[|ops|-1].Enqueue? && !Started(ops[..|ops|-1]) then 1 else 0
  }

  lemma StartedStep(ops: seq<Op>)
    requires ops != []
    ensures Started(ops) <==> Started(ops[..|ops|-1]) || ops[|ops|-1] == StartWorker
  {
    assert ops == ops[..|ops|-1] + [ops[|ops|-1]];
  }

  lemma {:induction false} GroupIsStarted(ops: seq<Op>)
    ensures Run(ops).hasGroup <==> Started(ops)
  {
    if ops != [] {
      GroupIsStarted(ops[..|ops|-1]);
      StartedStep(ops);
    }
  }

  /** Before there is a group the stream just fills up. */
  lemma {:induction false} BeforeGroup(ops: seq<Op>)
    requires !Started(ops)
    ensures var s := Run(ops);
            && !s.hasGroup && s.batches == map[] && |s.stream| == s.jobs == Early(ops)
            && forall i :: 0 <= i < |s.stream| ==> s.stream[i] == Message(i, 1, Unread, Open, 0)
  {
    if ops != [] {
      StartedStep(ops);
      BeforeGroup(ops[..|ops|-1]);
    }
  }

  lemma SkippedStep(s: State, op: Op, i: nat)
    requires Ok(s) && i < |s.stream| && s.stream[i].place == Skipped
    ensures i < |Step(s, op).stream| && Step(s, op).stream[i] == s.stream[i]
  {
    assert MessageOk(s, i);
  }

  /** Once there is a group no message becomes skipped. */
  lemma NoNewSkips(s: State, op: Op, i: nat)
    requires s.hasGroup && i < |Step(s, op).stream| && Step(s, op).stream[i].place == Skipped
    ensures i < |s.stream| && s.stream[i].place == Skipped
  {
  }

  /** A message is skipped if and only if its job was enqueued before the first worker started. */
  lemma {:induction false} SkippedExactly(ops: seq<Op>)
    ensures var s := Run(ops);
            && Early(ops) <= |s.stream|
            && (forall i :: 0 <= i < |s.stream| ==> (s.stream[i].place == Skipped <==> Started(ops) && i < Early(ops)))
            && (forall i :: 0 <= i < Early(ops) ==> s.stream[i].job == i)
  {
    if !Started(ops) {
      BeforeGroup(ops);
    } else {
      var init, op := ops[..|ops|-1], ops[|ops|-1];
      var s, t := Run(init), Run(ops);
      StartedStep(ops);
      if !Started(init) {
        BeforeGroup(init);
      } else {
        SkippedExactly(init);
        GroupIsStarted(init);
        RunOk(init);
        StepKeepsJobs(s, op);
        forall i | 0 <= i < |t.stream| ensures t.stream[i].place == Skipped <==> i < Early(init) {
          if i < |s.stream| && s.stream[i].place == Skipped {
            SkippedStep(s, op, i);
          } else if t.stream[i].place == Skipped {
            NoNewSkips(s, op, i);
          }
        }
      }
    }
  }

  // ----- which messages are orphaned ------------------------------------------------------------------------

  /** A message that is skipped or orphaned stays as it is. */
  predicate Stranded(m: Message) { m.place == Skipped || m.place == Orphaned }

  lemma StrandedStep(s: State, op: Op, i: nat)
    requires Ok(s) && i < |s.stream| && Stranded(s.stream[i])
    ensures i < |Step(s, op).stream| && Step(s, op).stream[i] == s.stream[i]
  {
    assert MessageOk(s, i);
    if op.Read? && Enabled(s, op) {
      assert Step(s, op) == ReadBatch(s, op.worker);
    }
  }

  lemma {:induction false} StrandedForGood(ops: seq<Op>, more: seq<Op>, i: nat)
    requires i < |Run(ops).stream| && Stranded(Run(ops).stream[i])
    ensures i < |Run(ops + more).stream| && Run(ops + more).stream[i] == Run(ops).stream[i]
    decreases |more|
  {
    if more == [] {
      assert ops + more == ops;
    } else {
      var init := more[..|more|-1];
      StrandedForGood(ops, init, i);
      RunOk(ops + init);
      OneMore(ops + init, more[|more|-1]);
      assert ops + init + [more[|more|-1]] == ops + more;
      StrandedStep(Run(ops + init), more[|more|-1], i);
    }
  }

  /** Every pending message is in the batch of its worker. */
  ghost predicate HeldListed(s: State) {
    forall i :: 0 <= i < |s.stream| && s.stream[i].place.Held? ==> i in BatchOf(s, s.stream[i].place.worker)
  }

  lemma HeldStep(s: State, op: Op)
    requires Ok(s) && BatchesOk(s) && HeldListed(s)
    ensures HeldListed(Step(s, op))
  {
    var t := Step(s, op);
    if Enabled(s, op) {
      match op
      case Enqueue =>
      case StartWorker =>
      case Read(w) => ReadLists(s, w);
      case Crash(w) =>
      case Ack(w) => AckLists(s, w);
      case _ => HeadLists(s, op);
    }
  }

  lemma ReadLists(s: State, w: nat)
    requires HeldListed(s) && Enabled(s, Read(w))
    ensures HeldListed(ReadBatch(s, w))
  {
    var t := ReadBatch(s, w);
    forall i | 0 <= i < |t.stream| && t.stream[i].place.Held? ensures i in BatchOf(t, t.stream[i].place.worker) {
      if s.next <= i < s.next + ReadCount(s) {
        assert BatchOf(t, w)[i - s.next] == i;
      } else {
        assert t.stream[i] == s.stream[i];
      }
    }
  }

  lemma AckLists(s: State, w: nat)
    requires BatchesOk(s) && HeldListed(s) && Enabled(s, Ack(w))
    ensures HeldListed(Step(s, Ack(w)))
  {
    var t, b := Step(s, Ack(w)), BatchOf(s, w);
    OthersUntouched(s, Ack(w));
    forall i | 0 <= i < |t.stream| && t.stream[i].place.Held? ensures i in BatchOf(t, t.stream[i].place.worker) {
      assert i != b[0] && i in BatchOf(s, s.stream[i].place.worker);
      assert b == [b[0]] + b[1..];
    }
  }

  lemma HeadLists(s: State, op: Op)
    requires HeldListed(s) && Enabled(s, op) && (op.Dispatch? || op.AckFails? || op.DeadLetter? || op.Requeue?)
    ensures HeldListed(Step(s, op))
  {
    var t, h := Step(s, op), BatchOf(s, op.worker)[0];
    OthersUntouched(s, op);
    assert h in BatchOf(s, op.worker);
    forall i | 0 <= i < |t.stream| && t.stream[i].place.Held? ensures i in BatchOf(t, t.stream[i].place.worker) {
      if i < |s.stream| && i != h {
        assert t.stream[i] == s.stream[i];
      }
    }
  }

  lemma {:induction false} HeldOfRun(ops: seq<Op>)
    ensures HeldListed(Run(ops))
  {
    if ops != [] {
      var init := ops[..|ops|-1];
      HeldOfRun(init);
      RunOk(init);
      BatchesOfRun(init);
      HeldStep(Run(init), ops[|ops|-1]);
    }
  }

  /** The worker of message `i` crashed at step `k` while it held the message. */
  ghost predicate CrashedHolding(ops: seq<Op>, k: nat, i: nat) {
    k < |ops| && ops[k].Crash? && OwnedBy(Run(ops[..k]), i, ops[k].worker)
  }

  /** The step that orphans a message is a crash of its worker. */
  lemma OrphaningStep(s: State, op: Op, i: nat)
    requires HeldListed(s) && i < |s.stream| && s.stream[i].place != Orphaned
    ensures i < |Step(s, op).stream|
    ensures Step(s, op).stream[i].place == Orphaned <==> op.Crash? && OwnedBy(s, i, op.worker)
    ensures Step(s, op).stream[i].place == Orphaned ==> Step(s, op).stream[i] == s.stream[i].(place := Orphaned)
  {
    StepKeepsJobs(s, op);
    if op.Crash? && OwnedBy(s, i, op.worker) {
      assert i in BatchOf(s, op.worker);
    }
  }

  lemma NewNotOrphaned(s: State, op: Op, i: nat)
    requires |s.stream| <= i < |Step(s, op).stream|
    ensures Step(s, op).stream[i].place != Orphaned
  {
  }

  /** A message is orphaned if and only if a worker crashed that held it. */
  lemma {:induction false} OrphanedExactly(ops: seq<Op>, i: nat)
    requires i < |Run(ops).stream|
    ensures Run(ops).stream[i].place == Orphaned <==> exists k :: CrashedHolding(ops, k, i)
  {
    if exists k :: CrashedHolding(ops, k, i) {
      var k :| CrashedHolding(ops, k, i);
      OrphanedBy(ops, k, i);
    }
    if Run(ops).stream[i].place == Orphaned {
      var k := OrphanedWhen(ops, i);
    }
  }

  /** A message held by a worker when it crashes is orphaned, and stays so, with the outcome it had. */
  lemma OrphanedBy(ops: seq<Op>, k: nat, i: nat)
    requires CrashedHolding(ops, k, i)
    ensures i < |Run(ops).stream|
    ensures Run(ops).stream[i] == Run(ops[..k]).stream[i].(place := Orphaned)
  {
    var s := Run(ops[..k]);
    HeldOfRun(ops[..k]);
    OrphaningStep(s, ops[k], i);
    assert ops[..k+1][..k] == ops[..k];
    StrandedForGood(ops[..k+1], ops[k+1..], i);
    assert ops[..k+1] + ops[k+1..] == ops;
  }

  lemma {:induction false} OrphanedWhen(ops: seq<Op>, i: nat) returns (k: nat)
    requires i < |Run(ops).stream| && Run(ops).stream[i].place == Orphaned
    ensures CrashedHolding(ops, k, i)
  {
    var init, op := ops[..|ops|-1], ops[|ops|-1];
    if i < |Run(init).stream| && Run(init).stream[i].place == Orphaned {
      k := OrphanedWhen(init, i);
      assert ops[..k] == init[..k] && ops[k] == init[k];
    } else if i < |Run(init).stream| {
      HeldOfRun(init);
      OrphaningStep(Run(init), op, i);
      k := |ops| - 1;
    } else {
      NewNotOrphaned(Run(init), op, i);
      assert false;
    }
  }

  // ----- which jobs finish ---------------------------------------------------------------------------------

  /** Of the messages of one job all but the last have been requeued. */
  ghost predicate OneOpen(s: State) {
    forall i, k :: 0 <= i < k < |s.stream| && s.stream[i].job == s.stream[k].job ==> s.stream[i].outcome == Requeued
  }

  lemma OutcomeStep(s: State, op: Op, i: nat)
    requires Ok(s) && i < |s.stream| && s.stream[i].outcome == Requeued
    ensures i < |Step(s, op).stream| && Step(s, op).stream[i].outcome == Requeued
  {
    assert MessageOk(s, i);
    StepKeepsJobs(s, op);
  }

  lemma OneOpenStep(s: State, op: Op)
    requires Ok(s) && OneOpen(s)
    ensures OneOpen(Step(s, op))
  {
    var t := Step(s, op);
    StepKeepsJobs(s, op);
    forall i, k | 0 <= i < k < |t.stream| && t.stream[i].job == t.stream[k].job ensures t.stream[i].outcome == Requeued {
      if k < |s.stream| {
        OutcomeStep(s, op, i);
      } else {
        assert MessageOk(s, i);
        if op.Requeue? {
          SuccessorOpen(s, op.worker, i);
        }
      }
    }
  }

  lemma SuccessorOpen(s: State, w: nat, i: nat)
    requires Ok(s) && OneOpen(s) && Enabled(s, Requeue(w)) && i < |s.stream|
    requires s.stream[i].job == s.stream[BatchOf(s, w)[0]].job
    ensures Step(s, Requeue(w)).stream[i].outcome == Requeued
  {
    var h := BatchOf(s, w)[0];
    assert MessageOk(s, h) && s.stream[h].outcome == Open;
  }

  lemma {:induction false} OneOpenOfRun(ops: seq<Op>)
    ensures OneOpen(Run(ops))
  {
    if ops != [] {
      OneOpenOfRun(ops[..|ops|-1]);
      RunOk(ops[..|ops|-1]);
      OneOpenStep(Run(ops[..|ops|-1]), ops[|ops|-1]);
    }
  }

  predicate Ended(m: Message) { m.outcome == Done || m.outcome == DeadLettered }

  /** The job was run to success or given up as dead. */
  ghost predicate Finished(s: State, j: nat) {
    exists i :: 0 <= i < |s.stream| && s.stream[i].job == j && Ended(s.stream[i])
  }

  /** The group exists and no worker can take a step. */
  ghost predicate AtRest(s: State) { s.hasGroup && forall op :: !WorkerStep(s, op) }

  lemma RestIsEmpty(ops: seq<Op>, i: nat)
    requires AtRest(Run(ops)) && i < |Run(ops).stream|
    ensures Run(ops).stream[i].place == Acked || Stranded(Run(ops).stream[i])
  {
    var s := Run(ops);
    RunOk(ops);
    HeldOfRun(ops);
    assert MessageOk(s, i);
    forall w: nat ensures BatchOf(s, w) == [] {
      assert !WorkerStep(s, Crash(w));
    }
    assert !WorkerStep(s, Read(0));
  }

  /** A worker crashed at step `k` while it held a message of the job that had no outcome yet. */
  ghost predicate CrashHit(ops: seq<Op>, k: nat, j: nat) {
    exists i: nat :: CrashedHolding(ops, k, i) && Run(ops[..k]).stream[i].job == j
                     && Run(ops[..k]).stream[i].place.phase != Handled
  }

  /** A stranded message without an outcome keeps its job from ever finishing. */
  lemma StrandedOpen(ops: seq<Op>, i: nat)
    requires i < |Run(ops).stream| && Stranded(Run(ops).stream[i]) && Run(ops).stream[i].outcome == Open
    ensures !Finished(Run(ops), Run(ops).stream[i].job)
  {
    OneOpenOfRun(ops);
  }

  lemma EarlyNeverFinishes(ops: seq<Op>, j: nat)
    requires Started(ops) && j < Early(ops)
    ensures !Finished(Run(ops), j)
  {
    SkippedExactly(ops);
    RunOk(ops);
    assert MessageOk(Run(ops), j);
    StrandedOpen(ops, j);
  }

  lemma HitNeverFinishes(ops: seq<Op>, k: nat, j: nat)
    requires CrashHit(ops, k, j)
    ensures !Finished(Run(ops), j)
  {
    var i: nat :| CrashedHolding(ops, k, i) && Run(ops[..k]).stream[i].job == j
                  && Run(ops[..k]).stream[i].place.phase != Handled;
    RunOk(ops[..k]);
    assert MessageOk(Run(ops[..k]), i);
    OrphanedBy(ops, k, i);
    StrandedOpen(ops, i);
  }

  /** At rest a job without an outcome was enqueued too early or hit by a crash. */
  lemma UnfinishedWhy(ops: seq<Op>, j: nat)
    requires AtRest(Run(ops)) && j < Run(ops).jobs && !Finished(Run(ops), j)
    ensures j < Early(ops) || exists k :: CrashHit(ops, k, j)
  {
    var s := Run(ops);
    NoJobVanishes(ops, j);
    var l: nat :| IsLast(s, l) && s.stream[l].job == j && Accounted(s.stream[l]) && s.stream[l].outcome != Requeued;
    RestIsEmpty(ops, l);
    RunOk(ops);
    assert MessageOk(s, l);
    if s.stream[l].place == Skipped {
      SkippedExactly(ops);
    } else {
      var k := OrphanedWhen(ops, l);
      OrphanedBy(ops, k, l);
      RunOk(ops[..k]);
      assert MessageOk(Run(ops[..k]), l);
      assert CrashHit(ops, k, j);
    }
  }

  /** Once the workers are at rest a job has finished if and only if it was enqueued after the first worker
      started and no worker crashed over a message of it that had no outcome yet. */
  lemma FinishedExactly(ops: seq<Op>, j: nat)
    requires AtRest(Run(ops)) && j < Run(ops).jobs
    ensures Finished(Run(ops), j) <==> j >= Early(ops) && forall k :: !CrashHit(ops, k, j)
  {
    GroupIsStarted(ops);
    if j < Early(ops) { EarlyNeverFinishes(ops, j); }
    if exists k :: CrashHit(ops, k, j) {
      var k :| CrashHit(ops, k, j);
      HitNeverFinishes(ops, k, j);
    }
    if !Finished(Run(ops), j) { UnfinishedWhy(ops, j); }
  }

  lemma {:induction false} StartedFirst(ops: seq<Op>)
    requires ops != [] && ops[0] == StartWorker
    ensures Early(ops) == 0
  {
    if |ops| > 1 {
      StartedFirst(ops[..|ops|-1]);
      assert ops[..|ops|-1][0] in ops[..|ops|-1];
    } else {
      assert Early(ops[..0]) == 0;
    }
  }

  /** With a worker from the start and no crash every job finishes. */
  lemma NothingLostWithoutCrash(ops: seq<Op>, j: nat)
    requires ops != [] && ops[0] == StartWorker && (forall k :: 0 <= k < |ops| ==> !ops[k].Crash?)
    requires AtRest(Run(ops)) && j < Run(ops).jobs
    ensures Finished(Run(ops), j)
  {
    StartedFirst(ops);
    FinishedExactly(ops, j);
  }

  // ----- jobs that are lost -----------------------------------------------------------------------------------

  lemma OneMore(ops: seq<Op>, op: Op)
    ensures Run(ops + [op]) == Step(Run(ops), op)
  {
    assert (ops + [op])[..|ops|] == ops;
  }

  /** A job enqueued before the first worker is never run, whatever happens later. */
  lemma EarlyJobIsLost(more: seq<Op>)
    ensures AtRest(Run([Enqueue] + [StartWorker]))
    ensures !Finished(Run([Enqueue] + [StartWorker] + more), 0)
  {
    var ops := [Enqueue] + [StartWorker];
    OneMore([], Enqueue);
    assert [] + [Enqueue] == [Enqueue];
    OneMore([Enqueue], StartWorker);
    StrandedForGood(ops, more, 0);
    StrandedOpen(ops + more, 0);
  }

  /** A job whose worker crashes before acknowledging it is never run again, whatever happens later. */
  lemma CrashedJobIsLost(w: nat, more: seq<Op>)
    ensures AtRest(Run([StartWorker] + [Enqueue] + [Read(w)] + [Crash(w)]))
    ensures !Finished(Run([StartWorker] + [Enqueue] + [Read(w)] + [Crash(w)] + more), 0)
  {
    var ops := [StartWorker] + [Enqueue] + [Read(w)];
    OneMore([], StartWorker);
    assert [] + [StartWorker] == [StartWorker];
    assert Run([StartWorker]) == State([], 0, true, 0, [], map[]);
    OneMore([StartWorker], Enqueue);
    assert Run([StartWorker] + [Enqueue]) == State([Message(0, 1, Unread, Open, 0)], 1, true, 0, [], map[]);
    OneMore([StartWorker] + [Enqueue], Read(w));
    assert seq(1, k requires 0 <= k => 0 + k) == [0];
    assert ReadBatch(Run([StartWorker] + [Enqueue]), w).stream == [Message(0, 1, Held(w, Fetched), Open, 0)];
    assert ReadBatch(Run([StartWorker] + [Enqueue]), w).batches[w] == [0];
    assert Run(ops) == State([Message(0, 1, Held(w, Fetched), Open, 0)], 1, true, 1, [], map[w := [0]]);
    OneMore(ops, Crash(w));
    assert Run(ops + [Crash(w)]) == State([Message(0, 1, Orphaned, Open, 0)], 1, true, 1, [], map[w := []]);
    StrandedForGood(ops + [Crash(w)], more, 0);
    StrandedOpen(ops + [Crash(w)] + more, 0);
  }

  // ----- five tries before a dead letter ---------------------------------------------------------

  /** The message and its predecessors were dispatched at least this often. */
  function Tries(m: Message): int { m.deliveries - 1 + if m.dispatches > 0 then 1 else 0 }

  ghost predicate Tried(s: State) {
    forall i :: 0 <= i < |s.stream| ==> TriedAt(s, i)
  }

  ghost predicate TriedAt(s: State, i: nat)
    requires i < |s.stream|
  {
    var m := s.stream[i];
    && Tries(m) <= SumOver(s.stream, Dispatched(m.job))
    && (m.place.Held? && m.place.phase != Fetched ==> m.dispatches > 0)
    && (m.outcome == DeadLettered ==> m.deliveries == 5 && m.dispatches > 0)
    && (m.outcome == Requeued ==> m.deliveries < 5)
  }

  /** Starting, reading and crashing move messages and dispatch none. */
  lemma DispatchesStay(s: State, op: Op)
    requires Enabled(s, op) && (op.StartWorker? || op.Read? || op.Crash?)
    ensures var t := Step(s, op);
            |t.stream| == |s.stream| && forall i :: 0 <= i < |s.stream| ==>
              t.stream[i].job == s.stream[i].job && t.stream[i].dispatches == s.stream[i].dispatches
  {
    match op
    case StartWorker => assert Step(s, op) == CreateGroup(s);
    case Read(w) => assert Step(s, op) == ReadBatch(s, w);
    case Crash(_) =>
  }

  lemma HeadDispatches(s: State, op: Op, j: nat)
    requires Enabled(s, op) && (op.Ack? || op.AckFails? || op.DeadLetter?)
    ensures SumOver(Step(s, op).stream, Dispatched(j)) == SumOver(s.stream, Dispatched(j))
  {
    HeadTotal(s, op, Dispatched(j));
  }

  lemma GrowingDispatches(s: State, op: Op, j: nat)
    requires Enabled(s, op) && (op.Enqueue? || op.Requeue?)
    ensures SumOver(Step(s, op).stream, Dispatched(j)) == SumOver(s.stream, Dispatched(j))
  {
    if op.Enqueue? {
      SumSnoc(s.stream, Message(s.jobs, 1, Unread, Open, 0), Dispatched(j));
    } else {
      RequeueTotal(s, op.worker, Dispatched(j));
    }
  }

  /** A step that dispatches nothing leaves the sums as they are. */
  lemma DispatchedKept(s: State, op: Op, j: nat)
    requires !op.Dispatch?
    ensures SumOver(Step(s, op).stream, Dispatched(j)) == SumOver(s.stream, Dispatched(j))
  {
    if Enabled(s, op) {
      if op.StartWorker? || op.Read? || op.Crash? {
        DispatchesStay(s, op);
        SameSum(s, Step(s, op), Dispatched(j));
      } else if op.Enqueue? || op.Requeue? {
        GrowingDispatches(s, op, j);
      } else {
        HeadDispatches(s, op, j);
      }
    }
  }

  lemma SameSum(s: State, t: State, f: Message -> int)
    requires |s.stream| == |t.stream| && forall i :: 0 <= i < |s.stream| ==> f(s.stream[i]) == f(t.stream[i])
    ensures SumOver(s.stream, f) == SumOver(t.stream, f)
  {
    SumNoMore(s.stream, t.stream, f, f);
    SumNoMore(t.stream, s.stream, f, f);
  }

  lemma DispatchedMore(s: State, op: Op, j: nat)
    requires Ok(s) && op.Dispatch? && Enabled(s, op)
    ensures SumOver(Step(s, op).stream, Dispatched(j))
         == SumOver(s.stream, Dispatched(j)) + if s.stream[BatchOf(s, op.worker)[0]].job == j then 1 else 0
  {
    HeadTotal(s, op, Dispatched(j));
  }

  lemma DispatchesGrow(s: State, op: Op, j: nat)
    requires Ok(s)
    ensures SumOver(Step(s, op).stream, Dispatched(j)) >= SumOver(s.stream, Dispatched(j))
  {
    if op.Dispatch? && Enabled(s, op) { DispatchedMore(s, op, j); } else if !op.Dispatch? { DispatchedKept(s, op, j); }
  }

  /** What one step does to one message. */
  lemma MessageStep(s: State, op: Op, i: nat)
    requires Ok(s) && Tried(s) && i < |s.stream| && |Step(s, op).stream| >= |s.stream|
    ensures var m, n := s.stream[i], Step(s, op).stream[i];
            && n.job == m.job && n.deliveries == m.deliveries && n.dispatches >= m.dispatches
            && (n == m || n.dispatches == m.dispatches
                || (op.Dispatch? && Enabled(s, op) && BatchOf(s, op.worker)[0] == i && n.outcome == m.outcome
                    && n.dispatches > 0))
            && (n.place.Held? && n.place.phase != Fetched ==> n.dispatches > 0)
            && (n.outcome == DeadLettered ==> m.deliveries == 5 && n.dispatches > 0)
            && (n.outcome == Requeued ==> m.deliveries < 5)
  {
    assert TriedAt(s, i) && MessageOk(s, i);
    if Enabled(s, op) {
      match op
      case StartWorker => assert Step(s, op) == CreateGroup(s);
      case Read(w) => assert Step(s, op) == ReadBatch(s, w);
      case _ =>
    }
  }

  lemma TriedKept(s: State, op: Op, i: nat)
    requires Ok(s) && Tried(s) && i < |s.stream| && |Step(s, op).stream| >= |s.stream|
    ensures TriedAt(Step(s, op), i)
  {
    var j := s.stream[i].job;
    assert TriedAt(s, i);
    MessageStep(s, op, i);
    DispatchesGrow(s, op, j);
    if op.Dispatch? && Enabled(s, op) && BatchOf(s, op.worker)[0] == i { DispatchedMore(s, op, j); }
  }

  lemma TriedNew(s: State, op: Op, i: nat)
    requires Ok(s) && Tried(s) && |s.stream| <= i < |Step(s, op).stream|
    ensures TriedAt(Step(s, op), i)
  {
    var j := Step(s, op).stream[i].job;
    DispatchesGrow(s, op, j);
    AllDispatches(s, j);
    if op.Requeue? { assert TriedAt(s, BatchOf(s, op.worker)[0]); }
  }

  lemma TriedStep(s: State, op: Op)
    requires Ok(s) && Tried(s)
    ensures Tried(Step(s, op))
  {
    StepKeepsJobs(s, op);
    forall i | 0 <= i < |Step(s, op).stream| ensures TriedAt(Step(s, op), i) {
      if i < |s.stream| { TriedKept(s, op, i); } else { TriedNew(s, op, i); }
    }
  }

  lemma AllDispatches(s: State, j: nat)
    ensures SumOver(s.stream, Dispatched(j)) >= 0
  {
    NeverNegative(s.stream, Dispatched(j));
  }

  lemma {:induction false} TriedOfRun(ops: seq<Op>)
    ensures Tried(Run(ops))
  {
    if ops != [] {
      TriedOfRun(ops[..|ops|-1]);
      RunOk(ops[..|ops|-1]);
      TriedStep(Run(ops[..|ops|-1]), ops[|ops|-1]);
    }
  }

  ghost predicate DeadMessage(s: State, j: nat) {
    exists i :: 0 <= i < |s.stream| && s.stream[i].job == j && s.stream[i].outcome == DeadLettered
  }

  lemma {:induction false} DeadHaveMessages(ops: seq<Op>)
    ensures forall j :: j in Run(ops).dead ==> DeadMessage(Run(ops), j)
  {
    if ops != [] {
      var s, op := Run(ops[..|ops|-1]), ops[|ops|-1];
      var t := Step(s, op);
      DeadHaveMessages(ops[..|ops|-1]);
      RunOk(ops[..|ops|-1]);
      StepKeepsJobs(s, op);
      forall j | j in t.dead ensures DeadMessage(t, j) {
        if j in s.dead {
          var i :| 0 <= i < |s.stream| && s.stream[i].job == j && s.stream[i].outcome == DeadLettered;
          assert MessageOk(s, i);
          assert t.stream[i].outcome == DeadLettered;
        } else {
          assert t.stream[BatchOf(s, op.worker)[0]].job == j;
        }
      }
    }
  }

  /** A job in the dead-letter stream was dispatched exactly five times: never given up early, and never tried
      again. */
  lemma DeadMeansFiveTries(ops: seq<Op>, j: nat)
    requires j in Run(ops).dead
    ensures SumOver(Run(ops).stream, Dispatched(j)) == 5
  {
    var s := Run(ops);
    TriedOfRun(ops);
    RunOk(ops);
    DeadHaveMessages(ops);
    var i :| 0 <= i < |s.stream| && s.stream[i].job == j && s.stream[i].outcome == DeadLettered;
    assert TriedAt(s, i) && MessageOk(s, i);
    AtMostFiveDispatches(ops, j);
  }

  /** A read hands an idle worker the next messages in order, up to eight of them. */
  lemma ReadTakesNext(s: State, w: nat)
    requires Enabled(s, Read(w))
    ensures var t := Step(s, Read(w));
            var n := if |s.stream| - s.next < 8 then |s.stream| - s.next else 8;
            && n > 0 && |BatchOf(t, w)| == n && t.next == s.next + n && |t.stream| == |s.stream|
            && (forall k :: 0 <= k < n ==> BatchOf(t, w)[k] == s.next + k)
            && forall i :: 0 <= i < |s.stream| ==>
                 t.stream[i] == if s.next <= i < s.next + n then s.stream[i].(place := Held(w, Fetched)) else s.stream[i]
  {
  }

  /** What can happen at the message a worker is at: it runs it with either result, the acknowledgement of a
      success may fail, a failure is requeued before the fifth delivery and dead-lettered from it on, and at any
      point the worker may crash. */
  lemma PossibleSteps(s: State, w: nat)
    requires BatchOf(s, w) != [] && BatchOf(s, w)[0] < |s.stream|
    ensures var m := s.stream[BatchOf(s, w)[0]];
            && (m.place == Held(w, Fetched) <==> Enabled(s, Dispatch(w, true)))
            && (m.place == Held(w, Fetched) <==> Enabled(s, Dispatch(w, false)))
            && (m.place == Held(w, Succeeded) <==> Enabled(s, AckFails(w)))
            && (m.place == Held(w, Succeeded) || m.place == Held(w, Handled) <==> Enabled(s, Ack(w)))
            && (m.place == Held(w, Failed) && m.deliveries < 5 <==> Enabled(s, Requeue(w)))
            && (m.place == Held(w, Failed) && m.deliveries >= 5 <==> Enabled(s, DeadLetter(w)))
            && Enabled(s, Crash(w)) && !Enabled(s, Read(w))
  {
  }
}
