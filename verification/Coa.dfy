/** Building a client's chart of accounts from a general template and an industry overlay. */
module Coa {
  import opened Accounts

  datatype Node = Node(code: string, name: string, accountType: AccountType, parent: Option<string>)

  datatype CoaError =
    | Forbidden | NoGeneralTemplate | NoOverlay | AlreadyInstantiated
    | UnresolvableParents | DuplicateCode

  /** An empty parent code counts as no parent once a row is written. */
  predicate HasParent(n: Node) {
    n.parent.Some? && n.parent.value != ""
  }

  predicate UniqueNodes(ns: seq<Node>) {
    forall i, j :: 0 <= i < j < |ns| ==> ns[i].code != ns[j].code
  }

  ghost function Nodes(ns: seq<Node>): set<Node> {
    set n | n in ns
  }

  function Codes(ns: seq<Node>): set<string> {
    set n | n in ns :: n.code
  }

  function RowCodes(rows: seq<Account>): set<string> {
    set a | a in rows :: a.code
  }

  /** Codes that some node names as its parent. */
  function ParentCodes(ns: seq<Node>): set<string> {
    set n | n in ns && HasParent(n) :: n.parent.value
  }

  function Children(ns: seq<Node>, parent: Option<string>): (r: seq<Node>)
    ensures forall n :: n in r <==> n in ns && n.parent == parent
    ensures UniqueNodes(ns) ==> UniqueNodes(r)
  {
    if ns == [] then []
    else if ns[0].parent == parent then [ns[0]] + Children(ns[1..], parent)
    else Children(ns[1..], parent)
  }

  function PathUnder(parentPath: string, code: string): string {
    if parentPath != "" then parentPath + ">" + code else code
  }

  // ----- what a placement means ----------------------------------------------

  /** `ids` finds every row from `start` on by its code. */
  ghost predicate Indexed(rows: seq<Account>, start: nat, ids: map<string, nat>) {
    && start <= |rows|
    && (forall c :: c in ids ==> start <= ids[c] < |rows| && rows[ids[c]].code == c)
    && (forall i :: start <= i < |rows| ==> rows[i].code in ids && ids[rows[i].code] == i)
  }

  /** A row hangs under an earlier row, with its path and depth extended by one step. */
  predicate RowOk(rows: seq<Account>, start: nat, i: nat)
    requires i < |rows|
  {
    match rows[i].parent
    case None => rows[i].path == rows[i].code && rows[i].depth == 0
    case Some(p) =>
      start <= p < i && rows[i].path == PathUnder(rows[p].path, rows[i].code) && rows[i].depth == rows[p].depth + 1
  }

  ghost predicate Treed(rows: seq<Account>, start: nat) {
    forall i :: start <= i < |rows| ==> RowOk(rows, start, i)
  }

  predicate Flagged(rows: seq<Account>, start: nat, parents: set<string>) {
    forall i :: start <= i < |rows| ==> rows[i].isActive && (rows[i].isLeaf <==> rows[i].code !in parents)
  }

  function ParentId(ids: map<string, nat>, n: Node): Option<nat> {
    if HasParent(n) && n.parent.value in ids then Some(ids[n.parent.value]) else None
  }

  /** Each placed node's row points at the row of its parent code, if that was placed. */
  ghost predicate Linked(rows: seq<Account>, ids: map<string, nat>, ns: set<Node>) {
    forall n :: n in ns && n.code in ids ==>
      && ids[n.code] < |rows|
      && rows[ids[n.code]].parent == ParentId(ids, n)
      && rows[ids[n.code]].accountType == n.accountType
      && rows[ids[n.code]].name == n.name
  }

  // ----- which nodes are placed ------------------------------------------------

  /** The node hangs off a root of its own template within `k` steps. */
  ghost predicate Rooted(ns: seq<Node>, n: Node, k: nat)
    decreases k
  {
    n in ns &&
    (n.parent == None ||
     (k > 0 && exists m :: m in ns && n.parent == Some(m.code) && Rooted(ns, m, k - 1)))
  }

  ghost predicate IsRooted(ns: seq<Node>, n: Node) {
    exists k: nat :: Rooted(ns, n, k)
  }

  ghost function RootedNodes(ns: seq<Node>): set<Node> {
    set n | n in ns && IsRooted(ns, n)
  }

  ghost function RootedCodes(ns: seq<Node>): set<string> {
    set n | n in RootedNodes(ns) :: n.code
  }

  /** The overlay node's parent chain leaves the overlay within `k` steps. */
  ghost predicate Resolves(overlay: seq<Node>, base: set<string>, n: Node, k: nat)
    decreases k
  {
    || !HasParent(n)
    || n.parent.value in base
    || n.parent.value !in Codes(overlay)
    || (k > 0 && exists m :: m in overlay && m.code == n.parent.value && Resolves(overlay, base, m, k - 1))
  }

  ghost predicate IsResolved(overlay: seq<Node>, base: set<string>, n: Node) {
    exists k: nat :: Resolves(overlay, base, n, k)
  }

  /** The exact condition under which an instantiation goes through. */
  ghost predicate Installs(existing: seq<Account>, general: seq<Node>, overlay: seq<Node>) {
    && RootedCodes(general) !! RowCodes(existing)
    && Codes(overlay) !! RootedCodes(general) + RowCodes(existing)
    && forall n :: n in overlay ==> IsResolved(overlay, RootedCodes(general), n)
  }

  // ----- the general pass --------------------------------------------------------

  function NewRow(rows: seq<Account>, ids: map<string, nat>, n: Node, parents: set<string>): Account
  {
    var p := ParentId(ids, n);
    var known := p.Some? && p.value < |rows|;
    Account(n.code, n.name, n.accountType, p,
            PathUnder(if known then rows[p.value].path else "", n.code),
            if known then rows[p.value].depth + 1 else 0,
            n.code !in parents, true)
  }

  lemma PlaceKeeps(rows: seq<Account>, start: nat, ids: map<string, nat>, n: Node, parents: set<string>)
    requires Indexed(rows, start, ids) && Treed(rows, start) && Flagged(rows, start, parents) && n.code !in ids
    ensures var rows' := rows + [NewRow(rows, ids, n, parents)];
            var ids' := ids[n.code := |rows|];
            Indexed(rows', start, ids') && Treed(rows', start) && Flagged(rows', start, parents)
  {
    var rows' := rows + [NewRow(rows, ids, n, parents)];
    forall i | start <= i < |rows'| ensures RowOk(rows', start, i) {
      if i < |rows| {
        assert RowOk(rows, start, i);
      }
    }
  }

  /** Breadth-first over the general template. */
  method PlaceGeneral(existing: seq<Account>, general: seq<Node>, parents: set<string>)
    returns (rows: seq<Account>, ids: map<string, nat>, clash: bool)
    requires UniqueNodes(general)
    ensures clash ==> !(RootedCodes(general) !! RowCodes(existing))
    ensures !clash ==>
              && RootedCodes(general) !! RowCodes(existing)
              && existing <= rows && ids.Keys == RootedCodes(general)
              && Placement(rows, |existing|, ids, parents) && Linked(rows, ids, RootedNodes(general))
  {
    rows, ids, clash := existing, map[], false;
    var queue := Children(general, None);
    RootsRooted(general, queue);
    while queue != []
      invariant existing <= rows
      invariant Placement(rows, |existing|, ids, parents) && Linked(rows, ids, RootedNodes(general))
      invariant ids.Keys <= RootedCodes(general) && ids.Keys !! RowCodes(existing)
      invariant Queued(general, queue, ids)
      invariant Closed(general, queue, ids)
      decreases RootedCodes(general) - ids.Keys
    {
      var n := queue[0];
      assert n.code in RootedCodes(general);
      if n.code in RowCodes(existing) {
        clash := true;
        return;
      }
      var row := NewRow(rows, ids, n, parents);
      var kids := Children(general, Some(n.code));
      PlaceKeeps(rows, |existing|, ids, n, parents);
      SameNode(general, n);
      LinkedStep(rows, ids, RootedNodes(general), n, row);
      QueueStep(general, queue, ids, |rows|, kids);
      rows, ids := rows + [row], ids[n.code := |rows|];
      queue := queue[1..] + kids;
    }
    ClosedIsRooted(general, ids);
  }

  ghost predicate Placement(rows: seq<Account>, start: nat, ids: map<string, nat>, parents: set<string>) {
    Indexed(rows, start, ids) && Treed(rows, start) && Flagged(rows, start, parents)
  }

  /** Queued nodes are distinct, not yet placed, reachable, and have a placed parent if any. */
  ghost predicate Queued(general: seq<Node>, queue: seq<Node>, ids: map<string, nat>) {
    && UniqueNodes(queue)
    && (forall n :: n in queue ==> n in general && n.code !in ids && IsRooted(general, n))
    && (forall n :: n in general && (n in queue || n.code in ids) && n.parent.Some? ==> n.parent.value in ids)
  }

  lemma RootsRooted(general: seq<Node>, queue: seq<Node>)
    requires forall n :: n in queue ==> n in general && n.parent == None
    ensures forall n :: n in queue ==> IsRooted(general, n)
  {
    forall n | n in queue ensures IsRooted(general, n) {
      assert Rooted(general, n, 0);
    }
  }

  /** Writing one more row keeps the links, as long as no placed node was waiting for it. */
  lemma LinkedStep(rows: seq<Account>, ids: map<string, nat>, ns: set<Node>, n: Node, row: Account)
    requires n.code !in ids && Linked(rows, ids, ns)
    requires forall m :: m in ns && m.code == n.code ==> m == n
    requires forall m :: m in ns && (m == n || m.code in ids) && HasParent(m) ==>
               m.parent.value in ids || m.parent.value != n.code
    requires row.parent == ParentId(ids, n) && row.accountType == n.accountType && row.name == n.name
    ensures Linked(rows + [row], ids[n.code := |rows|], ns)
  {
  }

  lemma QueueStep(general: seq<Node>, queue: seq<Node>, ids: map<string, nat>, at: nat, kids: seq<Node>)
    requires UniqueNodes(general) && queue != [] && Queued(general, queue, ids) && Closed(general, queue, ids)
    requires UniqueNodes(kids)
    requires forall m :: m in kids <==> m in general && m.parent == Some(queue[0].code)
    ensures Queued(general, queue[1..] + kids, ids[queue[0].code := at])
    ensures Closed(general, queue[1..] + kids, ids[queue[0].code := at])
  {
    var n, rest := queue[0], queue[1..];
    var next, ids' := rest + kids, ids[n.code := at];
    assert queue == [n] + rest;
    SameNode(general, n);
    KidsRooted(general, n, kids);
    forall i, j | 0 <= i < j < |next| ensures next[i].code != next[j].code {
      if i < |rest| <= j {
        assert next[i] in queue && next[j] in kids;
        if next[i].code == next[j].code {
          SameNode(general, next[i]);
          assert false;
        }
      }
    }
    forall m | m in next ensures m in general && m.code !in ids' && IsRooted(general, m) {
      if m in rest {
        var i :| 0 <= i < |rest| && rest[i] == m;
        assert queue[i + 1] == m;
      } else {
        assert m in kids;
      }
    }
  }

  /** Every root and every child of a placed node is queued or placed. */
  ghost predicate Closed(general: seq<Node>, queue: seq<Node>, ids: map<string, nat>) {
    forall n :: n in general && (n.parent == None || n.parent.value in ids) ==> n in queue || n.code in ids
  }

  lemma SameNode(ns: seq<Node>, n: Node)
    requires UniqueNodes(ns) && n in ns
    ensures forall m :: m in ns && m.code == n.code ==> m == n
  {
  }

  lemma KidsRooted(ns: seq<Node>, n: Node, kids: seq<Node>)
    requires IsRooted(ns, n) && forall m :: m in kids ==> m in ns && m.parent == Some(n.code)
    ensures forall m :: m in kids ==> IsRooted(ns, m)
  {
    var k: nat :| Rooted(ns, n, k);
    forall m | m in kids ensures IsRooted(ns, m) {
      assert Rooted(ns, m, k + 1);
    }
  }

  lemma ClosedIsRooted(general: seq<Node>, ids: map<string, nat>)
    requires Closed(general, [], ids) && ids.Keys <= RootedCodes(general)
    ensures ids.Keys == RootedCodes(general)
  {
    forall n | n in general && IsRooted(general, n) ensures n.code in ids {
      var k: nat :| Rooted(general, n, k);
      RootedPlaced(general, ids, n, k);
    }
  }

  lemma {:induction false} RootedPlaced(general: seq<Node>, ids: map<string, nat>, n: Node, k: nat)
    requires Closed(general, [], ids) && Rooted(general, n, k)
    ensures n.code in ids
    decreases k
  {
    if n.parent != None {
      var m :| m in general && n.parent == Some(m.code) && Rooted(general, m, k - 1);
      RootedPlaced(general, ids, m, k - 1);
    }
  }

  // ----- the overlay passes ----------------------------------------------------------

  ghost function NewNodes(overlay: seq<Node>, base: set<string>): set<Node> {
    set n | n in overlay && n.code !in base
  }

  /** The state between overlay passes. `base` holds the placed general codes. */
  ghost predicate OverlayState(existing: seq<Account>, overlay: seq<Node>, base: set<string>,
                               rows: seq<Account>, ids: map<string, nat>, parents: set<string>) {
    && existing <= rows
    && Placement(rows, |existing|, ids, parents)
    && Linked(rows, ids, NewNodes(overlay, base))
    && base <= ids.Keys <= base + Codes(overlay)
    && (ids.Keys - base) !! RowCodes(existing)
    && (forall n :: n in overlay && n.code in ids.Keys - base ==>
      && IsResolved(overlay, base, n)
      && (HasParent(n) ==> n.parent.value in ids || n.parent.value !in base + Codes(overlay)))
  }

  /** Waiting nodes are distinct overlay nodes; every other overlay node has been placed. */
  ghost predicate Waiting(overlay: seq<Node>, base: set<string>, pending: seq<Node>, ids: map<string, nat>) {
    && UniqueNodes(pending)
    && (forall n :: n in pending ==> n in overlay && n.code !in ids.Keys - base)
    && (forall n :: n in overlay ==> n in pending || n.code in ids.Keys - base)
  }

  predicate Ready(overlay: seq<Node>, ids: map<string, nat>, n: Node) {
    !HasParent(n) || n.parent.value in ids || n.parent.value !in Codes(overlay)
  }

  lemma ReadyResolves(existing: seq<Account>, overlay: seq<Node>, base: set<string>, rows: seq<Account>,
                      ids: map<string, nat>, parents: set<string>, n: Node)
    requires OverlayState(existing, overlay, base, rows, ids, parents) && Ready(overlay, ids, n)
    ensures IsResolved(overlay, base, n)
  {
    if HasParent(n) && n.parent.value in ids && n.parent.value !in base {
      var m :| m in overlay && m.code == n.parent.value;
      var k: nat :| Resolves(overlay, base, m, k);
      assert Resolves(overlay, base, n, k + 1);
    } else {
      assert Resolves(overlay, base, n, 0);
    }
  }

  lemma PlaceOverlayRow(existing: seq<Account>, overlay: seq<Node>, base: set<string>, rows: seq<Account>,
                        ids: map<string, nat>, parents: set<string>, n: Node)
    requires UniqueNodes(overlay) && n in overlay && n.code !in ids && n.code !in RowCodes(existing)
    requires OverlayState(existing, overlay, base, rows, ids, parents) && Ready(overlay, ids, n)
    ensures OverlayState(existing, overlay, base, rows + [NewRow(rows, ids, n, parents)], ids[n.code := |rows|], parents)
  {
    ReadyResolves(existing, overlay, base, rows, ids, parents, n);
    PlaceKeeps(rows, |existing|, ids, n, parents);
    SameNode(overlay, n);
    LinkedStep(rows, ids, NewNodes(overlay, base), n, NewRow(rows, ids, n, parents));
  }

  /** Rows and ids have only grown, by codes that were free. */
  ghost predicate Grown(existing: seq<Account>, base: set<string>, rows0: seq<Account>, ids0: map<string, nat>,
                        rows: seq<Account>, ids: map<string, nat>) {
    && rows0 <= rows
    && (forall c :: c in ids0 ==> c in ids && ids[c] == ids0[c])
    && (forall c :: c in ids.Keys - ids0.Keys ==> c !in base && c !in RowCodes(existing))
  }

  lemma PassStep(existing: seq<Account>, overlay: seq<Node>, base: set<string>, parents: set<string>,
                 rows0: seq<Account>, ids0: map<string, nat>, rows: seq<Account>, ids: map<string, nat>,
                 before: seq<Node>, n: Node, after: seq<Node>)
    requires UniqueNodes(overlay) && OverlayState(existing, overlay, base, rows, ids, parents)
    requires Waiting(overlay, base, before + ([n] + after), ids)
    requires Grown(existing, base, rows0, ids0, rows, ids)
    requires Ready(overlay, ids, n) && n in overlay && n.code !in ids && n.code !in RowCodes(existing)
    ensures var rows', ids' := rows + [NewRow(rows, ids, n, parents)], ids[n.code := |rows|];
            && OverlayState(existing, overlay, base, rows', ids', parents)
            && Waiting(overlay, base, before + after, ids')
            && Grown(existing, base, rows0, ids0, rows', ids')
  {
    PlaceOverlayRow(existing, overlay, base, rows, ids, parents, n);
    WaitingPlaced(overlay, base, before, n, after, ids, |rows|);
  }

  datatype Pass = Pass(rows: seq<Account>, ids: map<string, nat>, deferred: seq<Node>, clash: bool)

  /** What visiting one waiting node does: place it, defer it, or hit a taken code. */
  function Visit(existing: seq<Account>, overlay: seq<Node>, parents: set<string>, p: Pass, n: Node): Pass {
    if p.clash then p
    else if !Ready(overlay, p.ids, n) then p.(deferred := p.deferred + [n])
    else if n.code in RowCodes(existing) || n.code in p.ids then p.(clash := true)
    else p.(rows := p.rows + [NewRow(p.rows, p.ids, n, parents)], ids := p.ids[n.code := |p.rows|])
  }

  function VisitAll(existing: seq<Account>, overlay: seq<Node>, parents: set<string>, p: Pass, ns: seq<Node>): Pass {
    if ns == [] then p
    else Visit(existing, overlay, parents, VisitAll(existing, overlay, parents, p, ns[..|ns|-1]), ns[|ns|-1])
  }

  /** The state inside a pass that started from `rows0` and `ids0`, with `rest` still to visit. */
  ghost predicate InPass(existing: seq<Account>, overlay: seq<Node>, base: set<string>, parents: set<string>,
                         rows0: seq<Account>, ids0: map<string, nat>, p: Pass, done: nat, rest: seq<Node>) {
    && OverlayState(existing, overlay, base, p.rows, p.ids, parents)
    && Grown(existing, base, rows0, ids0, p.rows, p.ids)
    && Waiting(overlay, base, p.deferred + rest, p.ids)
    && |p.deferred| <= done
    && (|p.deferred| == done ==> p.ids == ids0)
    && Stuck(overlay, p.deferred, ids0)
  }

  lemma VisitStep(existing: seq<Account>, overlay: seq<Node>, base: set<string>, parents: set<string>,
                  rows0: seq<Account>, ids0: map<string, nat>, p: Pass, done: nat, n: Node, rest: seq<Node>)
    requires UniqueNodes(overlay) && !p.clash
    requires InPass(existing, overlay, base, parents, rows0, ids0, p, done, [n] + rest)
    ensures var q := Visit(existing, overlay, parents, p, n);
            if q.clash then Collides(existing, overlay, base)
            else InPass(existing, overlay, base, parents, rows0, ids0, q, done + 1, rest)
  {
    assert (p.deferred + ([n] + rest))[|p.deferred|] == n;
    var q := Visit(existing, overlay, parents, p, n);
    if !Ready(overlay, p.ids, n) {
      assert p.deferred + ([n] + rest) == q.deferred + rest;
    } else if !q.clash {
      PassStep(existing, overlay, base, parents, rows0, ids0, p.rows, p.ids, p.deferred, n, rest);
    }
  }

  /** Whatever one visit keeps, visiting the first `k` keeps. */
  lemma {:induction false} VisitInduction(existing: seq<Account>, overlay: seq<Node>, parents: set<string>, p: Pass,
                                          pending: seq<Node>, k: nat, inv: (Pass, nat) -> bool)
    requires k <= |pending| && inv(p, 0)
    requires forall q, j: nat :: j < |pending| && inv(q, j) ==> inv(Visit(existing, overlay, parents, q, pending[j]), j + 1)
    ensures inv(VisitAll(existing, overlay, parents, p, pending[..k]), k)
  {
    if k > 0 {
      VisitInduction(existing, overlay, parents, p, pending, k - 1, inv);
      assert pending[..k][..k-1] == pending[..k-1];
      assert inv(VisitAll(existing, overlay, parents, p, pending[..k-1]), k - 1);
    }
  }

  /** After `k` visits: a collision, or a sound state with the rest still waiting. */
  ghost predicate Visited(existing: seq<Account>, overlay: seq<Node>, base: set<string>, parents: set<string>,
                          p: Pass, pending: seq<Node>, q: Pass, k: nat) {
    k <= |pending| &&
    if q.clash then Collides(existing, overlay, base)
    else InPass(existing, overlay, base, parents, p.rows, p.ids, q, k, pending[k..])
  }

  lemma VisitedStep(existing: seq<Account>, overlay: seq<Node>, base: set<string>, parents: set<string>,
                    p: Pass, pending: seq<Node>, q: Pass, k: nat)
    requires UniqueNodes(overlay) && k < |pending| && Visited(existing, overlay, base, parents, p, pending, q, k)
    ensures Visited(existing, overlay, base, parents, p, pending, Visit(existing, overlay, parents, q, pending[k]), k + 1)
  {
    if !q.clash {
      assert pending[k..] == [pending[k]] + pending[k+1..];
      VisitStep(existing, overlay, base, parents, p.rows, p.ids, q, k, pending[k], pending[k+1..]);
    }
  }

  lemma VisitAllInPass(existing: seq<Account>, overlay: seq<Node>, base: set<string>, parents: set<string>,
                       p: Pass, pending: seq<Node>)
    requires UniqueNodes(overlay) && Visited(existing, overlay, base, parents, p, pending, p, 0)
    ensures Visited(existing, overlay, base, parents, p, pending,
                    VisitAll(existing, overlay, parents, p, pending), |pending|)
  {
    var inv := (q: Pass, j: nat) => Visited(existing, overlay, base, parents, p, pending, q, j);
    forall q, j: nat | j < |pending| && inv(q, j) ensures inv(Visit(existing, overlay, parents, q, pending[j]), j + 1) {
      VisitedStep(existing, overlay, base, parents, p, pending, q, j);
    }
    VisitInduction(existing, overlay, parents, p, pending, |pending|, inv);
    assert pending[..|pending|] == pending;
    assert inv(VisitAll(existing, overlay, parents, p, pending), |pending|);
  }

  /** One pass over the waiting nodes: place the ready ones, defer the others. */
  method OverlayPass(existing: seq<Account>, overlay: seq<Node>, parents: set<string>,
                     pending: seq<Node>, rows0: seq<Account>, ids0: map<string, nat>)
    returns (rows: seq<Account>, ids: map<string, nat>, deferred: seq<Node>, clash: bool)
    ensures Pass(rows, ids, deferred, clash) == VisitAll(existing, overlay, parents, Pass(rows0, ids0, [], false), pending)
  {
    rows, ids, deferred, clash := rows0, ids0, [], false;
    for i := 0 to |pending|
      invariant !clash
      invariant Pass(rows, ids, deferred, clash)
                == VisitAll(existing, overlay, parents, Pass(rows0, ids0, [], false), pending[..i])
    {
      var n := pending[i];
      assert pending[..i+1][..i] == pending[..i];
      if Ready(overlay, ids, n) {
        if n.code in RowCodes(existing) || n.code in ids {
          clash := true;
          ClashStays(existing, overlay, parents, Pass(rows0, ids0, [], false), pending, i + 1);
          return;
        }
        rows, ids := rows + [NewRow(rows, ids, n, parents)], ids[n.code := |rows|];
      } else {
        deferred := deferred + [n];
      }
    }
    assert pending[..|pending|] == pending;
  }

  lemma {:induction false} ClashStays(existing: seq<Account>, overlay: seq<Node>, parents: set<string>, p: Pass,
                                      pending: seq<Node>, k: nat)
    requires k <= |pending| && VisitAll(existing, overlay, parents, p, pending[..k]).clash
    ensures VisitAll(existing, overlay, parents, p, pending) == VisitAll(existing, overlay, parents, p, pending[..k])
    decreases |pending| - k
  {
    if k == |pending| {
      assert pending[..k] == pending;
    } else {
      assert pending[..k+1][..k] == pending[..k];
      ClashStays(existing, overlay, parents, p, pending, k + 1);
    }
  }

  lemma PassOutcome(existing: seq<Account>, overlay: seq<Node>, base: set<string>, parents: set<string>,
                    rows: seq<Account>, ids: map<string, nat>, pending: seq<Node>)
    requires UniqueNodes(overlay) && OverlayState(existing, overlay, base, rows, ids, parents)
    requires Waiting(overlay, base, pending, ids)
    ensures var q := VisitAll(existing, overlay, parents, Pass(rows, ids, [], false), pending);
            if q.clash then Collides(existing, overlay, base)
            else
              && OverlayState(existing, overlay, base, q.rows, q.ids, parents)
              && Grown(existing, base, rows, ids, q.rows, q.ids)
              && Waiting(overlay, base, q.deferred, q.ids)
              && |q.deferred| <= |pending|
              && (|q.deferred| == |pending| ==> Stuck(overlay, q.deferred, q.ids))
  {
    var p := Pass(rows, ids, [], false);
    assert p.deferred + pending[0..] == pending;
    VisitAllInPass(existing, overlay, base, parents, p, pending);
    var q := VisitAll(existing, overlay, parents, p, pending);
    assert q.deferred + pending[|pending|..] == q.deferred;
  }

  ghost predicate Collides(existing: seq<Account>, overlay: seq<Node>, base: set<string>) {
    exists n :: n in overlay && (n.code in base || n.code in RowCodes(existing))
  }

  lemma WithoutNode(before: seq<Node>, n: Node, after: seq<Node>)
    requires UniqueNodes(before + ([n] + after))
    ensures UniqueNodes(before + after) && forall m :: m in before + after ==> m.code != n.code
  {
    var all, rest := before + ([n] + after), before + after;
    assert all[|before|] == n;
    forall i | 0 <= i < |before| ensures rest[i] == all[i] && rest[i].code != n.code {}
    forall i | |before| <= i < |rest| ensures rest[i] == all[i + 1] && rest[i].code != n.code {}
    forall i, j | 0 <= i < j < |rest| ensures rest[i].code != rest[j].code {
      var i', j' := if i < |before| then i else i + 1, if j < |before| then j else j + 1;
      assert i' < j' && all[i'] == rest[i] && all[j'] == rest[j];
    }
  }

  lemma WaitingPlaced(overlay: seq<Node>, base: set<string>, before: seq<Node>, n: Node, after: seq<Node>,
                      ids: map<string, nat>, at: nat)
    requires Waiting(overlay, base, before + ([n] + after), ids)
    requires n in overlay && n.code !in ids && base <= ids.Keys
    ensures Waiting(overlay, base, before + after, ids[n.code := at])
  {
    var all, rest := before + ([n] + after), before + after;
    WithoutNode(before, n, after);
    assert forall m :: m in all <==> m in rest || m == n;
  }

  /** Every waiting node hangs under another overlay node that has not been placed. */
  ghost predicate Stuck(overlay: seq<Node>, pending: seq<Node>, ids: map<string, nat>) {
    forall n :: n in pending ==> HasParent(n) && n.parent.value in Codes(overlay) && n.parent.value !in ids
  }

  lemma {:induction false} StuckNeverResolves(overlay: seq<Node>, base: set<string>, pending: seq<Node>,
                                              ids: map<string, nat>, n: Node, k: nat)
    requires Stuck(overlay, pending, ids) && Waiting(overlay, base, pending, ids) && base <= ids.Keys
    requires n in pending
    ensures !Resolves(overlay, base, n, k)
    decreases k
  {
    if k > 0 {
      forall m | m in overlay && m.code == n.parent.value ensures !Resolves(overlay, base, m, k - 1) {
        StuckNeverResolves(overlay, base, pending, ids, m, k - 1);
      }
    }
  }

  lemma GrownTrans(existing: seq<Account>, base: set<string>, rows0: seq<Account>, ids0: map<string, nat>,
                   rows: seq<Account>, ids: map<string, nat>, q: Pass)
    requires Grown(existing, base, rows0, ids0, rows, ids)
    ensures Grown(existing, base, rows, ids, q.rows, q.ids) ==> Grown(existing, base, rows0, ids0, q.rows, q.ids)
  {
  }

  /** Repeated passes. The guard on `safety` is never what ends the loop. */
  method PlaceOverlay(existing: seq<Account>, overlay: seq<Node>, ghost base: set<string>, parents: set<string>,
                      rows0: seq<Account>, ids0: map<string, nat>)
    returns (rows: seq<Account>, ids: map<string, nat>, error: Option<CoaError>)
    requires UniqueNodes(overlay) && OverlayState(existing, overlay, base, rows0, ids0, parents)
    requires ids0.Keys == base
    ensures error.Some? ==> error.value == DuplicateCode || error.value == UnresolvableParents
    ensures error == Some(DuplicateCode) ==> Collides(existing, overlay, base)
    ensures error == Some(UnresolvableParents) ==> exists n :: n in overlay && !IsResolved(overlay, base, n)
    ensures error == None ==>
              && OverlayState(existing, overlay, base, rows, ids, parents)
              && Grown(existing, base, rows0, ids0, rows, ids)
              && ids.Keys == base + Codes(overlay)
              && !Collides(existing, overlay, base)
              && forall n :: n in overlay ==> IsResolved(overlay, base, n)
  {
    rows, ids, error := rows0, ids0, None;
    var pending := overlay;
    var safety := |pending| + 1;
    while pending != [] && safety > 0
      invariant OverlayState(existing, overlay, base, rows, ids, parents)
      invariant Grown(existing, base, rows0, ids0, rows, ids)
      invariant Waiting(overlay, base, pending, ids)
      invariant |pending| < safety
      decreases safety
    {
      safety := safety - 1;
      var deferred, clash;
      PassOutcome(existing, overlay, base, parents, rows, ids, pending);
      GrownTrans(existing, base, rows0, ids0, rows, ids,
                 VisitAll(existing, overlay, parents, Pass(rows, ids, [], false), pending));
      rows, ids, deferred, clash := OverlayPass(existing, overlay, parents, pending, rows, ids);
      if clash {
        return rows, ids, Some(DuplicateCode);
      }
      if |deferred| == |pending| {
        var n := deferred[0];
        forall k: nat ensures !Resolves(overlay, base, n, k) {
          StuckNeverResolves(overlay, base, deferred, ids, n, k);
        }
        assert !IsResolved(overlay, base, n);
        return rows, ids, Some(UnresolvableParents);
      }
      pending := deferred;
    }
    assert pending == [];
  }

  // ----- instantiation ---------------------------------------------------------------

  lemma LinkedGrows(existing: seq<Account>, general: seq<Node>, base: set<string>, rows0: seq<Account>,
                    ids0: map<string, nat>, rows: seq<Account>, ids: map<string, nat>)
    requires Grown(existing, base, rows0, ids0, rows, ids) && ids0.Keys == base == RootedCodes(general)
    requires Linked(rows0, ids0, RootedNodes(general))
    ensures Linked(rows, ids, RootedNodes(general))
  {
    forall n | n in RootedNodes(general) ensures ParentId(ids, n) == ParentId(ids0, n) && n.code in ids0 {
      assert n.code in RootedCodes(general);
      if n.parent.Some? {
        var k: nat :| Rooted(general, n, k);
        var m :| m in general && n.parent == Some(m.code) && Rooted(general, m, k - 1);
        assert m in RootedNodes(general);
      }
    }
  }

  /** The client's chart after a successful instantiation: the old rows, then one row for
      every general node that hangs off a root and one for every overlay node. */
  ghost predicate IsChart(existing: seq<Account>, general: seq<Node>, overlay: seq<Node>,
                          rows: seq<Account>, ids: map<string, nat>) {
    && existing <= rows
    && ids.Keys == RootedCodes(general) + Codes(overlay)
    && RootedCodes(general) !! Codes(overlay)
    && ids.Keys !! RowCodes(existing)
    && Placement(rows, |existing|, ids, ParentCodes(general) + ParentCodes(overlay))
    && Linked(rows, ids, RootedNodes(general))
    && Linked(rows, ids, Nodes(overlay))
  }

  lemma RefusedOverlay(existing: seq<Account>, general: seq<Node>, overlay: seq<Node>, error: CoaError)
    requires error == DuplicateCode || error == UnresolvableParents
    requires error == DuplicateCode ==> Collides(existing, overlay, RootedCodes(general))
    requires error == UnresolvableParents ==> exists n :: n in overlay && !IsResolved(overlay, RootedCodes(general), n)
    ensures !Installs(existing, general, overlay)
  {
    if error == DuplicateCode {
      var n :| n in overlay && (n.code in RootedCodes(general) || n.code in RowCodes(existing));
      assert n.code in Codes(overlay);
      assert n.code in RootedCodes(general) + RowCodes(existing);
    }
  }

  /** Both passes, general nodes first. */
  method PlaceTemplates(existing: seq<Account>, general: seq<Node>, overlay: seq<Node>)
    returns (r: Result<seq<Account>, CoaError>, ids: map<string, nat>)
    requires UniqueNodes(general) && UniqueNodes(overlay)
    ensures r.Ok? <==> Installs(existing, general, overlay)
    ensures r.Ok? ==> IsChart(existing, general, overlay, r.value, ids)
  {
    var parents := ParentCodes(general) + ParentCodes(overlay);
    ghost var base := RootedCodes(general);
    var rows0, ids0, clash := PlaceGeneral(existing, general, parents);
    ids := ids0;
    if clash {
      return Err(DuplicateCode), ids;
    }
    var rows, error;
    rows, ids, error := PlaceOverlay(existing, overlay, base, parents, rows0, ids0);
    if error.Some? {
      RefusedOverlay(existing, general, overlay, error.value);
      return Err(error.value), ids;
    }
    LinkedGrows(existing, general, base, rows0, ids0, rows, ids);
    forall n | n in overlay ensures n in NewNodes(overlay, base) && n.code !in RowCodes(existing) {
    }
    assert NewNodes(overlay, base) == Nodes(overlay);
    r := Ok(rows);
  }

  /** The gates in order, then both passes. A missing overlay is allowed for the generic industry alone. */
  function Gate(firm: bool, general: Option<seq<Node>>, overlay: Option<seq<Node>>, generic: bool, templated: bool)
    : Option<CoaError>
  {
    if !firm then Some(Forbidden)
    else if general.None? then Some(NoGeneralTemplate)
    else if overlay.None? && !generic then Some(NoOverlay)
    else if templated then Some(AlreadyInstantiated)
    else None
  }

  /** `templated` says that the client already has rows from a template. */
  method InstantiateForClient(existing: seq<Account>, firm: bool, general: Option<seq<Node>>,
                              overlay: Option<seq<Node>>, generic: bool, templated: bool)
    returns (r: Result<seq<Account>, CoaError>, ids: map<string, nat>)
    requires (general.Some? ==> UniqueNodes(general.value)) && (overlay.Some? ==> UniqueNodes(overlay.value))
    ensures var gate := Gate(firm, general, overlay, generic, templated);
            if gate.Some? then r == Err(gate.value)
            else
              var extra := if overlay.Some? then overlay.value else [];
              && (r.Ok? <==> Installs(existing, general.value, extra))
              && (r.Ok? ==> IsChart(existing, general.value, extra, r.value, ids))
  {
    ids := map[];
    if !firm {
      return Err(Forbidden), ids;
    }
    if general.None? {
      return Err(NoGeneralTemplate), ids;
    }
    if overlay.None? && !generic {
      return Err(NoOverlay), ids;
    }
    if templated {
      return Err(AlreadyInstantiated), ids;
    }
    r, ids := PlaceTemplates(existing, general.value, if overlay.Some? then overlay.value else []);
  }

  // ----- unresolvable means a cycle ------------------------------------------------------

  /** The parent of `n` is another overlay node, and not a general one. */
  predicate StaysInside(overlay: seq<Node>, base: set<string>, n: Node) {
    HasParent(n) && n.parent.value !in base && n.parent.value in Codes(overlay)
  }

  /** `m` is `k` parents above `n`, all within the overlay. */
  ghost predicate Above(overlay: seq<Node>, base: set<string>, n: Node, m: Node, k: nat)
    decreases k
  {
    if k == 0 then m == n
    else
      StaysInside(overlay, base, n) &&
      exists p :: p in overlay && p.code == n.parent.value && Above(overlay, base, p, m, k - 1)
  }

  ghost predicate OnCycle(overlay: seq<Node>, base: set<string>, n: Node) {
    exists k: nat :: k > 0 && Above(overlay, base, n, n, k)
  }

  /** The parent chain of `n` runs into a cycle of overlay codes. */
  ghost predicate RunsIntoCycle(overlay: seq<Node>, base: set<string>, n: Node) {
    exists m, k: nat :: Above(overlay, base, n, m, k) && OnCycle(overlay, base, m)
  }

  lemma {:induction false} AboveTrans(overlay: seq<Node>, base: set<string>, n: Node, m: Node, l: Node, j: nat, k: nat)
    requires Above(overlay, base, n, m, j) && Above(overlay, base, m, l, k)
    ensures Above(overlay, base, n, l, j + k)
    decreases j
  {
    if j > 0 {
      var p :| p in overlay && p.code == n.parent.value && Above(overlay, base, p, m, j - 1);
      AboveTrans(overlay, base, p, m, l, j - 1, k);
    }
  }

  /** On a cycle every node stays inside, and so is its parent on it. */
  lemma CycleGoesOn(overlay: seq<Node>, base: set<string>, n: Node)
    requires UniqueNodes(overlay) && OnCycle(overlay, base, n)
    ensures StaysInside(overlay, base, n)
    ensures forall p :: p in overlay && p.code == n.parent.value ==> OnCycle(overlay, base, p)
  {
    var k: nat :| k > 0 && Above(overlay, base, n, n, k);
    var p :| p in overlay && p.code == n.parent.value && Above(overlay, base, p, n, k - 1);
    SameNode(overlay, p);
    assert Above(overlay, base, p, p, 0);
    assert Above(overlay, base, n, p, 1);
    AboveTrans(overlay, base, p, n, p, k - 1, 1);
  }

  lemma {:induction false} CycleNeverResolves(overlay: seq<Node>, base: set<string>, n: Node, k: nat)
    requires UniqueNodes(overlay) && OnCycle(overlay, base, n)
    ensures !Resolves(overlay, base, n, k)
    decreases k
  {
    CycleGoesOn(overlay, base, n);
    if k > 0 {
      forall p | p in overlay && p.code == n.parent.value ensures !Resolves(overlay, base, p, k - 1) {
        CycleNeverResolves(overlay, base, p, k - 1);
      }
    }
  }

  lemma {:induction false} BelowCycleNeverResolves(overlay: seq<Node>, base: set<string>, n: Node, m: Node, j: nat, k: nat)
    requires UniqueNodes(overlay) && Above(overlay, base, n, m, j) && OnCycle(overlay, base, m)
    ensures !Resolves(overlay, base, n, k)
    decreases j
  {
    if j == 0 {
      CycleNeverResolves(overlay, base, n, k);
    } else if k > 0 {
      var p :| p in overlay && p.code == n.parent.value && Above(overlay, base, p, m, j - 1);
      SameNode(overlay, p);
      BelowCycleNeverResolves(overlay, base, p, m, j - 1, k - 1);
    }
  }

  /** A chain that never leaves the overlay: `chain[i + 1]` is the parent of `chain[i]`. */
  ghost predicate IsChain(overlay: seq<Node>, base: set<string>, chain: seq<Node>) {
    && (forall i :: 0 <= i < |chain| ==> chain[i] in overlay)
    && (forall i :: 0 <= i < |chain| - 1 ==>
          StaysInside(overlay, base, chain[i]) && chain[i].parent.value == chain[i+1].code)
  }

  /** An unresolved node has a chain of any length above it. */
  lemma {:induction false} LongChain(overlay: seq<Node>, base: set<string>, n: Node, len: nat) returns (chain: seq<Node>)
    requires n in overlay && !IsResolved(overlay, base, n)
    ensures IsChain(overlay, base, chain) && |chain| == len + 1 && chain[0] == n
    decreases len
  {
    if len == 0 {
      chain := [n];
    } else {
      assert !Resolves(overlay, base, n, 0);
      var p :| p in overlay && p.code == n.parent.value;
      if IsResolved(overlay, base, p) {
        var k: nat :| Resolves(overlay, base, p, k);
        assert Resolves(overlay, base, n, k + 1);
        assert false;
      }
      var rest := LongChain(overlay, base, p, len - 1);
      chain := [n] + rest;
    }
  }

  lemma {:induction false} ChainAbove(overlay: seq<Node>, base: set<string>, chain: seq<Node>, i: nat, j: nat)
    requires IsChain(overlay, base, chain) && i <= j < |chain|
    ensures Above(overlay, base, chain[i], chain[j], j - i)
    decreases j - i
  {
    if i < j {
      ChainAbove(overlay, base, chain, i + 1, j);
      assert chain[i+1] in overlay && chain[i+1].code == chain[i].parent.value;
    }
  }

  /** More nodes than the overlay has must repeat one. */
  lemma {:induction false} Repeats(overlay: seq<Node>, chain: seq<Node>) returns (i: nat, j: nat)
    requires |chain| > |overlay| && forall k :: 0 <= k < |chain| ==> chain[k] in overlay
    ensures i < j < |chain| && chain[i] == chain[j]
    decreases |overlay|
  {
    assert chain[0] in overlay;
    if k :| 0 < k < |chain| && chain[k] == chain[0] {
      i, j := 0, k;
    } else {
      var at :| 0 <= at < |overlay| && overlay[at] == chain[0];
      var smaller := overlay[..at] + overlay[at+1..];
      forall k | 0 <= k < |chain| - 1 ensures chain[1..][k] in smaller {
        assert chain[1..][k] == chain[k+1] && chain[k+1] in overlay;
        var x :| 0 <= x < |overlay| && overlay[x] == chain[k+1];
        assert smaller[if x < at then x else x - 1] == chain[k+1];
      }
      i, j := Repeats(smaller, chain[1..]);
      i, j := i + 1, j + 1;
    }
  }

  /** An overlay node cannot be resolved if and only if its parent chain runs into a cycle of overlay codes. */
  lemma UnresolvedIsCycle(overlay: seq<Node>, base: set<string>, n: Node)
    requires UniqueNodes(overlay) && n in overlay
    ensures !IsResolved(overlay, base, n) <==> RunsIntoCycle(overlay, base, n)
  {
    if RunsIntoCycle(overlay, base, n) {
      var m, j: nat :| Above(overlay, base, n, m, j) && OnCycle(overlay, base, m);
      forall k: nat ensures !Resolves(overlay, base, n, k) {
        BelowCycleNeverResolves(overlay, base, n, m, j, k);
      }
    }
    if !IsResolved(overlay, base, n) {
      var chain := LongChain(overlay, base, n, |overlay|);
      var i, j := Repeats(overlay, chain);
      ChainAbove(overlay, base, chain, 0, i);
      ChainAbove(overlay, base, chain, i, j);
      assert OnCycle(overlay, base, chain[i]);
    }
  }

  /** So the overlay passes fail for want of a parent exactly when some overlay codes form a cycle. */
  lemma AllResolvedIffNoCycle(overlay: seq<Node>, base: set<string>)
    requires UniqueNodes(overlay)
    ensures (forall n :: n in overlay ==> IsResolved(overlay, base, n))
       <==> (forall n :: n in overlay ==> !OnCycle(overlay, base, n))
  {
    forall n | n in overlay && OnCycle(overlay, base, n) ensures !IsResolved(overlay, base, n) {
      assert Above(overlay, base, n, n, 0);
      UnresolvedIsCycle(overlay, base, n);
    }
    forall n | n in overlay && !IsResolved(overlay, base, n) ensures exists m :: m in overlay && OnCycle(overlay, base, m) {
      UnresolvedIsCycle(overlay, base, n);
      var m, k: nat :| Above(overlay, base, n, m, k) && OnCycle(overlay, base, m);
      AboveInside(overlay, base, n, m, k);
    }
  }

  lemma {:induction false} AboveInside(overlay: seq<Node>, base: set<string>, n: Node, m: Node, k: nat)
    requires n in overlay && Above(overlay, base, n, m, k)
    ensures m in overlay
    decreases k
  {
    if k > 0 {
      var p :| p in overlay && p.code == n.parent.value && Above(overlay, base, p, m, k - 1);
      AboveInside(overlay, base, p, m, k - 1);
    }
  }

  /** An instantiation goes through if and only if no code is taken and no overlay codes form a cycle. */
  lemma InstallsExactly(existing: seq<Account>, general: seq<Node>, overlay: seq<Node>)
    requires UniqueNodes(overlay)
    ensures Installs(existing, general, overlay)
       <==> && RootedCodes(general) !! RowCodes(existing)
            && Codes(overlay) !! RootedCodes(general) + RowCodes(existing)
            && forall n :: n in overlay ==> !OnCycle(overlay, RootedCodes(general), n)
  {
    AllResolvedIffNoCycle(overlay, RootedCodes(general));
  }

  // ----- templates that list parents first --------------------------------------------------

  /** Every node is a root or comes after the node of its parent code. */
  predicate ParentsFirst(ns: seq<Node>) {
    forall i :: 0 <= i < |ns| && ns[i].parent != None ==>
      HasParent(ns[i]) && exists j :: 0 <= j < i && ns[j].code == ns[i].parent.value
  }

  /** The rows and ids that writing the nodes in their own order gives. */
  function Planted(ns: seq<Node>, parents: set<string>): (seq<Account>, map<string, nat>) {
    if ns == [] then ([], map[])
    else
      var (rows, ids) := Planted(ns[..|ns|-1], parents);
      (rows + [NewRow(rows, ids, ns[|ns|-1], parents)], ids[ns[|ns|-1].code := |rows|])
  }

  lemma PlantedSnoc(ns: seq<Node>, n: Node, parents: set<string>)
    ensures var (rows, ids) := Planted(ns, parents);
            Planted(ns + [n], parents) == (rows + [NewRow(rows, ids, n, parents)], ids[n.code := |rows|])
  {
    assert (ns + [n])[..|ns|] == ns;
  }

  lemma PlantedTwo(ns: seq<Node>, one: Account, two: Account, parents: set<string>)
    requires |ns| == 2
    requires NewRow([], map[], ns[0], parents) == one && NewRow([one], map[ns[0].code := 0], ns[1], parents) == two
    ensures Planted(ns, parents) == ([one, two], map[ns[0].code := 0][ns[1].code := 1])
  {
    var a := [ns[0]];
    assert [] + a == a && a + [ns[1]] == ns && [one] + [two] == [one, two] && [] + [one] == [one];
    PlantedSnoc([], ns[0], parents);
    PlantedSnoc(a, ns[1], parents);
  }

  /** Row by row, for four nodes. */
  lemma PlantedFour(ns: seq<Node>, rows: seq<Account>, parents: set<string>)
    requires |ns| == 4 && |rows| == 4
    requires NewRow([], map[], ns[0], parents) == rows[0]
    requires NewRow([rows[0]], map[ns[0].code := 0], ns[1], parents) == rows[1]
    requires NewRow([rows[0], rows[1]], map[ns[0].code := 0][ns[1].code := 1], ns[2], parents) == rows[2]
    requires NewRow([rows[0], rows[1], rows[2]], map[ns[0].code := 0][ns[1].code := 1][ns[2].code := 2], ns[3], parents)
             == rows[3]
    ensures Planted(ns, parents).0 == rows
  {
    var b, c := [ns[0], ns[1]], [ns[0], ns[1], ns[2]];
    assert b + [ns[2]] == c && c + [ns[3]] == ns;
    PlantedTwo(b, rows[0], rows[1], parents);
    PlantedSnoc(b, ns[2], parents);
    assert [rows[0], rows[1]] + [rows[2]] == [rows[0], rows[1], rows[2]];
    PlantedSnoc(c, ns[3], parents);
    assert [rows[0], rows[1], rows[2]] + [rows[3]] == rows;
  }

  ghost predicate IsPlanted(ns: seq<Node>, rows: seq<Account>, ids: map<string, nat>, parents: set<string>) {
    Placement(rows, 0, ids, parents) && ids.Keys == Codes(ns) && Linked(rows, ids, Nodes(ns))
  }

  lemma {:induction false} PlantedOk(ns: seq<Node>, parents: set<string>)
    requires UniqueNodes(ns) && ParentsFirst(ns)
    ensures IsPlanted(ns, Planted(ns, parents).0, Planted(ns, parents).1, parents)
  {
    if ns != [] {
      var init, n := ns[..|ns|-1], ns[|ns|-1];
      assert ns == init + [n];
      FirstsFirst(init, n);
      var (rows, ids) := Planted(init, parents);
      PlantedOk(init, parents);
      PlantedStep(init, n, rows, ids, parents);
    }
  }

  lemma FirstsFirst(init: seq<Node>, n: Node)
    requires UniqueNodes(init + [n]) && ParentsFirst(init + [n])
    ensures UniqueNodes(init) && ParentsFirst(init) && n.code !in Codes(init)
    ensures n.parent != None ==> HasParent(n) && n.parent.value in Codes(init)
  {
    var ns := init + [n];
    forall i | 0 <= i < |init| ensures ns[i] == init[i] && ns[i].code != ns[|init|].code {}
    if n.parent != None {
      var j :| 0 <= j < |init| && ns[j].code == ns[|init|].parent.value;
      assert init[j] in init;
    }
    forall i | 0 <= i < |init| && init[i].parent != None
      ensures HasParent(init[i]) && exists j :: 0 <= j < i && init[j].code == init[i].parent.value
    {
      var j :| 0 <= j < i && ns[j].code == ns[i].parent.value;
      assert init[j] == ns[j];
    }
  }

  lemma ParentsListed(ns: seq<Node>)
    requires ParentsFirst(ns)
    ensures forall m :: m in ns && HasParent(m) ==> m.parent.value in Codes(ns)
  {
    forall m | m in ns && HasParent(m) ensures m.parent.value in Codes(ns) {
      var i :| 0 <= i < |ns| && ns[i] == m;
      var j :| 0 <= j < i && ns[j].code == m.parent.value;
      assert ns[j] in ns;
    }
  }

  lemma PlantedStep(init: seq<Node>, n: Node, rows: seq<Account>, ids: map<string, nat>, parents: set<string>)
    requires ParentsFirst(init) && n.code !in Codes(init)
    requires n.parent != None ==> n.parent.value in Codes(init)
    requires IsPlanted(init, rows, ids, parents)
    ensures IsPlanted(init + [n], rows + [NewRow(rows, ids, n, parents)], ids[n.code := |rows|], parents)
  {
    PlaceKeeps(rows, 0, ids, n, parents);
    assert Codes(init + [n]) == Codes(init) + {n.code};
    assert Nodes(init + [n]) == Nodes(init) + {n};
    ParentsListed(init);
    forall m | m in init ensures m.code in Codes(init) {}
    LinkedStep(rows, ids, Nodes(init) + {n}, n, NewRow(rows, ids, n, parents));
  }

  lemma {:induction false} PlantedRooted(ns: seq<Node>, i: nat)
    requires ParentsFirst(ns) && i < |ns|
    ensures IsRooted(ns, ns[i])
    decreases i
  {
    var n := ns[i];
    if n.parent == None {
      RootsRooted(ns, [n]);
      assert n in [n];
    } else {
      var j :| 0 <= j < i && ns[j].code == n.parent.value;
      PlantedRooted(ns, j);
      KidsRooted(ns, ns[j], [n]);
      assert n in [n];
    }
  }

  /** Such a template installs into an empty chart, and planting it gives such a chart. */
  lemma PlantedIsChart(ns: seq<Node>)
    requires UniqueNodes(ns) && ParentsFirst(ns)
    ensures Installs([], ns, [])
    ensures var (rows, ids) := Planted(ns, ParentCodes(ns)); IsChart([], ns, [], rows, ids)
    ensures forall n :: n in ns ==> IsRooted(ns, n)
  {
    forall n | n in ns ensures IsRooted(ns, n) {
      var i :| 0 <= i < |ns| && ns[i] == n;
      PlantedRooted(ns, i);
    }
    PlantedOk(ns, ParentCodes(ns));
    assert RootedNodes(ns) == Nodes(ns);
    assert RootedCodes(ns) == Codes(ns);
    assert ParentCodes(ns) + ParentCodes([]) == ParentCodes(ns);
  }

  // ----- rows and gates, on the fields ---------------------------------------------------------

  /** The row of a placed node. A named parent that was placed puts it one step below; any other node, also
      one whose parent code is empty, stands at the top. A row is a leaf when no template node names it. */
  lemma PlacedFields(existing: seq<Account>, general: seq<Node>, overlay: seq<Node>, rows: seq<Account>,
                     ids: map<string, nat>, n: Node)
    requires IsChart(existing, general, overlay, rows, ids) && (n in RootedNodes(general) || n in overlay)
    ensures n.code in ids && |existing| <= ids[n.code] < |rows|
    ensures var row := rows[ids[n.code]];
            && row.code == n.code && row.name == n.name && row.accountType == n.accountType && row.isActive
            && (row.isLeaf <==> n.code == "" || forall m :: m in general + overlay ==> m.parent != Some(n.code))
            && if n.parent.Some? && n.parent.value != "" && n.parent.value in ids then
                 var p := ids[n.parent.value];
                 && p < ids[n.code] && row.parent == Some(p) && row.depth == rows[p].depth + 1
                 && row.path == (if rows[p].path != "" then rows[p].path + ">" else "") + n.code
               else row.parent == None && row.depth == 0 && row.path == n.code
  {
    var i := ids[n.code];
    var parents := ParentCodes(general) + ParentCodes(overlay);
    assert RowOk(rows, |existing|, i);
    forall m | m in general + overlay && m.parent == Some(n.code) && n.code != "" ensures n.code in parents {
      assert HasParent(m);
    }
    if n.code in parents {
      var m :| m in general + overlay && HasParent(m) && m.parent.value == n.code;
      assert m.parent == Some(n.code);
    }
  }

  /** The firm alone instantiates, from a general template, with an overlay unless the industry is generic, and
      once. */
  lemma GateOrder(firm: bool, general: Option<seq<Node>>, overlay: Option<seq<Node>>, generic: bool, templated: bool)
    ensures var g := Gate(firm, general, overlay, generic, templated);
            && (g.None? <==> firm && general.Some? && (overlay.Some? || generic) && !templated)
            && (!firm ==> g == Some(Forbidden))
            && (firm && general.None? ==> g == Some(NoGeneralTemplate))
            && (firm && general.Some? && overlay.None? && !generic ==> g == Some(NoOverlay))
            && (firm && general.Some? && (overlay.Some? || generic) && templated ==> g == Some(AlreadyInstantiated))
  {
  }
}
