/** Generated artifacts: drafts are finalized, and each finalization supersedes the previous
    artifact of its key. A row's id is its position. */
module Artifacts {
  import opened Accounts

  datatype Kind = ProfitAndLoss | BalanceSheet | CashFlow | TaxWorksheet | Narrative | AuditPackage

  datatype Format = Pdf | Xlsx | Zip | Json | Markdown

  datatype Status = Draft | Finalized | Superseded

  /** `finalizedAt` is the time of finalization. */
  datatype Artifact = Artifact(
    kind: Kind, format: Format, period: Option<nat>, worksheet: Option<nat>,
    status: Status, finalizedAt: nat, supersedes: Option<nat>)

  datatype ArtifactError = Forbidden | NotFound | NotDraft | DraftsPending | NoActiveTemplate

  /** What the gates read from the rest of the database. */
  datatype Gates = Gates(pendingDrafts: nat, templateActive: bool)

  // ----- finalization ----------------------------------------------------------------------

  /** The query for prior artifacts: a missing period or worksheet drops its filter. */
  predicate IsPrior(a: Artifact, p: Artifact) {
    && p.status == Finalized && p.kind == a.kind && p.format == a.format
    && (a.period.Some? ==> p.period == a.period)
    && (a.worksheet.Some? ==> p.worksheet == a.worksheet)
  }

  /** Ids of the prior artifacts among the first `n` rows. */
  function Priors(rows: seq<Artifact>, a: Artifact, n: nat): seq<nat>
    requires n <= |rows|
  {
    if n == 0 then [] else if IsPrior(a, rows[n-1]) then Priors(rows, a, n - 1) + [n - 1] else Priors(rows, a, n - 1)
  }

  function Retired(a: Artifact, p: Artifact): Artifact { if IsPrior(a, p) then p.(status := Superseded) else p }

  function AllRetired(rows: seq<Artifact>, a: Artifact): (r: seq<Artifact>)
    ensures |r| == |rows| && forall i :: 0 <= i < |rows| ==> r[i] == Retired(a, rows[i])
  {
    seq(|rows|, i requires 0 <= i < |rows| => Retired(a, rows[i]))
  }

  predicate NeedsTemplate(a: Artifact) { a.kind == TaxWorksheet && a.format == Pdf && a.worksheet.Some? }

  function FinalizeSpec(rows: seq<Artifact>, firm: bool, g: Gates, now: nat, id: nat)
    : (seq<Artifact>, Option<ArtifactError>)
  {
    if !firm then (rows, Some(Forbidden))
    else if id >= |rows| then (rows, Some(NotFound))
    else if rows[id].status != Draft then (rows, Some(NotDraft))
    else if rows[id].period.Some? && g.pendingDrafts > 0 then (rows, Some(DraftsPending))
    else if NeedsTemplate(rows[id]) && !g.templateActive then (rows, Some(NoActiveTemplate))
    else
      var priors := Priors(rows, rows[id], |rows|);
      var a := rows[id].(status := Finalized, finalizedAt := now,
                         supersedes := if priors == [] then rows[id].supersedes else Some(priors[0]));
      (AllRetired(rows, rows[id])[id := a], None)
  }

  class ArtifactService {
    var rows: seq<Artifact>

    constructor ()
      ensures rows == []
    {
      rows := [];
    }

    method Register(kind: Kind, format: Format, period: Option<nat>, worksheet: Option<nat>) returns (id: nat)
      modifies this
      ensures rows == old(rows) + [Artifact(kind, format, period, worksheet, Draft, 0, None)] && id == |old(rows)|
    {
      id := |rows|;
      rows := rows + [Artifact(kind, format, period, worksheet, Draft, 0, None)];
    }

    method Finalize(firm: bool, g: Gates, now: nat, id: nat) returns (e: Option<ArtifactError>)
      modifies this
      ensures (rows, e) == FinalizeSpec(old(rows), firm, g, now, id)
    {
      if !firm { return Some(Forbidden); }
      if id >= |rows| { return Some(NotFound); }
      var a := rows[id];
      if a.status != Draft { return Some(NotDraft); }
      if a.period.Some? && g.pendingDrafts > 0 { return Some(DraftsPending); }
      if NeedsTemplate(a) && !g.templateActive { return Some(NoActiveTemplate); }
      var before := rows;
      var superseded: seq<nat> := [];
      for i := 0 to |rows|
        invariant |rows| == |before| && superseded == Priors(before, a, i)
        invariant forall k :: 0 <= k < i ==> rows[k] == Retired(a, before[k])
        invariant forall k :: i <= k < |rows| ==> rows[k] == before[k]
      {
        if IsPrior(a, rows[i]) {
          rows := rows[i := rows[i].(status := Superseded)];
          superseded := superseded + [i];
        }
      }
      assert rows == AllRetired(before, a);
      a := a.(status := Finalized, finalizedAt := now);
      if |superseded| > 0 {
        a := a.(supersedes := Some(superseded[0]));
      }
      rows := rows[id := a];
      return None;
    }
  }

  // ----- runs of the services ------------------------------------------------------------------

  /** The generating services always give a period, and a worksheet exactly for tax worksheets. */
  datatype Op =
    | Generate(kind: Kind, format: Format, period: nat, worksheet: nat)
    | Finalize(firm: bool, gates: Gates, id: nat)

  function Step(rows: seq<Artifact>, op: Op, now: nat): seq<Artifact> {
    match op
    case Generate(kind, format, period, worksheet) =>
      rows + [Artifact(kind, format, Some(period), if kind == TaxWorksheet then Some(worksheet) else None, Draft, 0, None)]
    case Finalize(firm, g, id) => FinalizeSpec(rows, firm, g, now, id).0
  }

  /** The time of a call is its place in the run. */
  function Run(ops: seq<Op>): seq<Artifact> {
    if ops == [] then [] else Step(Run(ops[..|ops|-1]), ops[|ops|-1], |ops|)
  }

  // ----- keys and chains ------------------------------------------------------------------------

  predicate SameKey(a: Artifact, b: Artifact) {
    a.kind == b.kind && a.format == b.format && a.period == b.period && a.worksheet == b.worksheet
  }

  predicate EverFinalized(a: Artifact) { a.status != Draft }

  ghost predicate Keyed(rows: seq<Artifact>) {
    forall i :: 0 <= i < |rows| ==> rows[i].period.Some? && (rows[i].worksheet.Some? <==> rows[i].kind == TaxWorksheet)
  }

  ghost predicate OneFinalized(rows: seq<Artifact>) {
    forall i, j :: 0 <= i < j < |rows| && SameKey(rows[i], rows[j]) ==>
      !(rows[i].status == Finalized && rows[j].status == Finalized)
  }

  /** A link leads to a superseded artifact of the same key that was finalized earlier. */
  predicate LinkOk(rows: seq<Artifact>, i: nat)
    requires i < |rows|
  {
    rows[i].supersedes.Some? ==>
      var p := rows[i].supersedes.value;
      && EverFinalized(rows[i]) && p < |rows| && SameKey(rows[p], rows[i])
      && rows[p].status == Superseded && rows[p].finalizedAt < rows[i].finalizedAt
  }

  ghost predicate LinksOk(rows: seq<Artifact>) { forall i :: 0 <= i < |rows| ==> LinkOk(rows, i) }

  /** Something superseded it. */
  ghost predicate HasSuccessor(rows: seq<Artifact>, j: nat) {
    exists i :: 0 <= i < |rows| && rows[i].supersedes == Some(j)
  }

  ghost predicate Linked(rows: seq<Artifact>, now: nat) {
    && LinksOk(rows) && (forall i :: 0 <= i < |rows| ==> rows[i].finalizedAt <= now)
    && (forall j: nat :: j < |rows| && rows[j].status == Superseded ==> HasSuccessor(rows, j))
    && (forall i, j :: 0 <= i < j < |rows| && rows[i].supersedes.Some? ==> rows[i].supersedes != rows[j].supersedes)
  }

  lemma {:induction false} PriorsAre(rows: seq<Artifact>, a: Artifact, n: nat)
    requires n <= |rows|
    ensures forall i: nat :: i in Priors(rows, a, n) <==> i < n && IsPrior(a, rows[i])
    ensures forall k, l :: 0 <= k < l < |Priors(rows, a, n)| ==> Priors(rows, a, n)[k] < Priors(rows, a, n)[l]
  {
    if n > 0 {
      PriorsAre(rows, a, n - 1);
      var before := Priors(rows, a, n - 1);
      assert forall k :: 0 <= k < |before| ==> before[k] in before;
    }
  }

  /** On rows the services generate, the prior of an artifact is a finalized one of its own key, so
      there is at most one and the single link slot is enough. */
  lemma OnePrior(rows: seq<Artifact>, id: nat)
    requires Keyed(rows) && OneFinalized(rows) && id < |rows|
    ensures |Priors(rows, rows[id], |rows|)| <= 1
    ensures forall i: nat :: i in Priors(rows, rows[id], |rows|) <==>
              i < |rows| && SameKey(rows[i], rows[id]) && rows[i].status == Finalized
  {
    PriorsAre(rows, rows[id], |rows|);
    var ps := Priors(rows, rows[id], |rows|);
    if |ps| > 1 {
      assert ps[0] in ps && ps[1] in ps && ps[0] < ps[1];
      assert SameKey(rows[ps[0]], rows[ps[1]]);
    }
  }

  ghost predicate Ok(rows: seq<Artifact>, now: nat) { Keyed(rows) && OneFinalized(rows) && Linked(rows, now) }

  lemma {:induction false} RunOk(ops: seq<Op>)
    ensures Ok(Run(ops), |ops|)
  {
    if ops != [] {
      RunOk(ops[..|ops|-1]);
      StepOk(Run(ops[..|ops|-1]), ops[|ops|-1], |ops| - 1, |ops|);
    }
  }

  lemma StepOk(rows: seq<Artifact>, op: Op, was: nat, now: nat)
    requires Ok(rows, was) && was < now
    ensures Ok(Step(rows, op, now), now)
  {
    var next := Step(rows, op, now);
    match op
    case Generate(_, _, _, _) =>
      forall j: nat | j < |next| && next[j].status == Superseded ensures HasSuccessor(next, j) {
        assert HasSuccessor(rows, j);
        var i :| 0 <= i < |rows| && rows[i].supersedes == Some(j);
        assert next[i] == rows[i];
      }
      forall i | 0 <= i < |rows| ensures LinkOk(next, i) { assert LinkOk(rows, i); }
    case Finalize(firm, g, id) =>
      if FinalizeSpec(rows, firm, g, now, id).1.None? {
        FinalizeOk(rows, id, next, was, now);
      }
  }

  /** What a successful finalization writes. */
  ghost predicate FinalizedFrom(rows: seq<Artifact>, id: nat, next: seq<Artifact>, now: nat)
    requires id < |rows|
  {
    && |next| == |rows|
    && (forall i :: 0 <= i < |rows| && i != id ==> next[i] == Retired(rows[id], rows[i]))
    && (var priors := Priors(rows, rows[id], |rows|);
        next[id] == rows[id].(status := Finalized, finalizedAt := now,
                              supersedes := if priors == [] then rows[id].supersedes else Some(priors[0])))
  }

  lemma FinalizeOk(rows: seq<Artifact>, id: nat, next: seq<Artifact>, was: nat, now: nat)
    requires Ok(rows, was) && was < now && id < |rows| && rows[id].status == Draft && FinalizedFrom(rows, id, next, now)
    ensures Ok(next, now)
  {
    OnePrior(rows, id);
    assert forall i :: 0 <= i < |rows| ==> SameKey(next[i], rows[i]);
    FinalizeKeepsOne(rows, id, next, now);
    FinalizeLinks(rows, id, next, was, now);
    FinalizeSuccessors(rows, id, next, was, now);
    FinalizeDistinct(rows, id, next, was, now);
  }

  lemma FinalizeKeepsOne(rows: seq<Artifact>, id: nat, next: seq<Artifact>, now: nat)
    requires Keyed(rows) && OneFinalized(rows) && id < |rows| && rows[id].status == Draft
    requires FinalizedFrom(rows, id, next, now)
    ensures OneFinalized(next)
  {
    forall i, j | 0 <= i < j < |next| && SameKey(next[i], next[j])
      ensures !(next[i].status == Finalized && next[j].status == Finalized)
    {
      assert SameKey(rows[i], rows[j]);
      if i == id {
        assert rows[j].status == Finalized ==> IsPrior(rows[id], rows[j]);
      } else if j == id {
        assert rows[i].status == Finalized ==> IsPrior(rows[id], rows[i]);
      }
    }
  }

  lemma FinalizeLinks(rows: seq<Artifact>, id: nat, next: seq<Artifact>, was: nat, now: nat)
    requires Ok(rows, was) && was < now && id < |rows| && rows[id].status == Draft && FinalizedFrom(rows, id, next, now)
    ensures LinksOk(next) && forall i :: 0 <= i < |next| ==> next[i].finalizedAt <= now
  {
    OnePrior(rows, id);
    var priors := Priors(rows, rows[id], |rows|);
    assert LinkOk(rows, id);
    forall i | 0 <= i < |next| ensures LinkOk(next, i) && next[i].finalizedAt <= now {
      assert LinkOk(rows, i);
      if i == id && priors != [] {
        assert priors[0] in priors;
      }
    }
  }

  lemma FinalizeSuccessors(rows: seq<Artifact>, id: nat, next: seq<Artifact>, was: nat, now: nat)
    requires Ok(rows, was) && was < now && id < |rows| && rows[id].status == Draft && FinalizedFrom(rows, id, next, now)
    ensures forall j: nat :: j < |next| && next[j].status == Superseded ==> HasSuccessor(next, j)
  {
    OnePrior(rows, id);
    var priors := Priors(rows, rows[id], |rows|);
    assert LinkOk(rows, id);
    forall j: nat | j < |next| && next[j].status == Superseded ensures HasSuccessor(next, j) {
      if rows[j].status == Superseded {
        assert HasSuccessor(rows, j);
        var i :| 0 <= i < |rows| && rows[i].supersedes == Some(j);
        assert next[i].supersedes == Some(j);
      } else {
        assert j in priors && priors == [j];
        assert next[id].supersedes == Some(j);
      }
    }
  }

  lemma FinalizeDistinct(rows: seq<Artifact>, id: nat, next: seq<Artifact>, was: nat, now: nat)
    requires Ok(rows, was) && was < now && id < |rows| && rows[id].status == Draft && FinalizedFrom(rows, id, next, now)
    ensures forall i, j :: 0 <= i < j < |next| && next[i].supersedes.Some? ==> next[i].supersedes != next[j].supersedes
  {
    OnePrior(rows, id);
    var priors := Priors(rows, rows[id], |rows|);
    assert LinkOk(rows, id);
    assert priors != [] ==> priors[0] in priors;
    forall i, j | 0 <= i < j < |next| && next[i].supersedes.Some? ensures next[i].supersedes != next[j].supersedes {
      assert LinkOk(rows, i) && LinkOk(rows, j);
    }
  }

  // ----- the chain ---------------------------------------------------------------------------------

  /** The ids reached from `i` through `supersedes`, newest first. */
  ghost function Chain(rows: seq<Artifact>, i: nat): (r: seq<nat>)
    requires i < |rows| && LinksOk(rows)
    ensures r != [] && r[0] == i && forall k :: 0 <= k < |r| ==> r[k] < |rows|
    decreases rows[i].finalizedAt
  {
    assert LinkOk(rows, i);
    if rows[i].supersedes.None? then [i] else [i] + Chain(rows, rows[i].supersedes.value)
  }

  /** A chain stays in its key and goes strictly back in time, so it has no cycle. */
  lemma {:induction false} ChainDescends(rows: seq<Artifact>, i: nat)
    requires i < |rows| && LinksOk(rows)
    ensures forall k :: 0 <= k < |Chain(rows, i)| ==> SameKey(rows[Chain(rows, i)[k]], rows[i])
    ensures forall k :: 0 < k < |Chain(rows, i)| ==> rows[Chain(rows, i)[k]].status == Superseded
    ensures forall k, l :: 0 <= k < l < |Chain(rows, i)| ==>
              rows[Chain(rows, i)[k]].finalizedAt > rows[Chain(rows, i)[l]].finalizedAt
    decreases rows[i].finalizedAt
  {
    assert LinkOk(rows, i);
    if rows[i].supersedes.Some? {
      var p := rows[i].supersedes.value;
      ChainDescends(rows, p);
      var rest := Chain(rows, p);
      assert Chain(rows, i) == [i] + rest;
      assert forall k :: 0 < k < |Chain(rows, i)| ==> Chain(rows, i)[k] == rest[k-1];
      assert rest[0] == p;
      forall k | 0 < k < |Chain(rows, i)| ensures rows[Chain(rows, i)[k]].status == Superseded
                                               && rows[Chain(rows, i)[k]].finalizedAt < rows[i].finalizedAt {
        if k > 1 {
          assert rows[rest[0]].finalizedAt > rows[rest[k-1]].finalizedAt;
        }
      }
    }
  }

  lemma {:induction false} ChainFollows(rows: seq<Artifact>, h: nat, i: nat)
    requires h < |rows| && i < |rows| && LinksOk(rows)
    requires i in Chain(rows, h) && rows[i].supersedes.Some?
    ensures rows[i].supersedes.value in Chain(rows, h)
    decreases rows[h].finalizedAt
  {
    assert LinkOk(rows, h);
    if i != h {
      ChainFollows(rows, rows[h].supersedes.value, i);
    } else {
      assert Chain(rows, rows[h].supersedes.value)[0] == rows[h].supersedes.value;
    }
  }

  /** Every artifact of the key that was ever finalized lies on the chain of the finalized one. */
  lemma {:induction false} OnTheChain(rows: seq<Artifact>, now: nat, j: nat)
    requires Ok(rows, now) && j < |rows| && EverFinalized(rows[j])
    ensures exists h: nat :: h < |rows| && SameKey(rows[h], rows[j]) && rows[h].status == Finalized && j in Chain(rows, h)
    decreases now - rows[j].finalizedAt
  {
    if rows[j].status == Finalized {
      assert j in Chain(rows, j) by { assert Chain(rows, j)[0] == j; }
    } else {
      assert HasSuccessor(rows, j);
      var i :| 0 <= i < |rows| && rows[i].supersedes == Some(j);
      assert LinkOk(rows, i);
      OnTheChain(rows, now, i);
      var h: nat :| h < |rows| && SameKey(rows[h], rows[i]) && rows[h].status == Finalized && i in Chain(rows, h);
      ChainFollows(rows, h, i);
    }
  }

  /** `h` is the one finalized artifact of the key of `j`, and its chain holds exactly the artifacts
      of the key that were ever finalized, strictly back in time. */
  ghost predicate HeadsChain(rows: seq<Artifact>, h: nat, j: nat)
    requires LinksOk(rows) && j < |rows|
  {
    && h < |rows| && SameKey(rows[h], rows[j]) && rows[h].status == Finalized
    && (forall i: nat :: i < |rows| && SameKey(rows[i], rows[j]) && rows[i].status == Finalized ==> i == h)
    && (forall i: nat :: i in Chain(rows, h) <==> i < |rows| && SameKey(rows[i], rows[j]) && EverFinalized(rows[i]))
    && (forall k, l :: 0 <= k < l < |Chain(rows, h)| ==>
          rows[Chain(rows, h)[k]].finalizedAt > rows[Chain(rows, h)[l]].finalizedAt)
  }

  /** Over all runs: the artifacts of a key that were ever finalized form one linear chain without
      cycles, headed by the only finalized one. */
  lemma OneLinearChain(ops: seq<Op>, j: nat)
    requires j < |Run(ops)| && EverFinalized(Run(ops)[j])
    ensures LinksOk(Run(ops)) && exists h: nat :: HeadsChain(Run(ops), h, j)
  {
    var rows := Run(ops);
    RunOk(ops);
    OnTheChain(rows, |ops|, j);
    var h: nat :| h < |rows| && SameKey(rows[h], rows[j]) && rows[h].status == Finalized && j in Chain(rows, h);
    ChainDescends(rows, h);
    OneHead(rows, h, j);
    forall i: nat ensures i in Chain(rows, h) <==> i < |rows| && SameKey(rows[i], rows[j]) && EverFinalized(rows[i]) {
      ChainIsTheKey(rows, |ops|, h, i);
    }
    assert HeadsChain(rows, h, j);
  }

  lemma OneHead(rows: seq<Artifact>, h: nat, j: nat)
    requires OneFinalized(rows) && h < |rows| && j < |rows| && SameKey(rows[h], rows[j]) && rows[h].status == Finalized
    ensures forall i: nat :: i < |rows| && SameKey(rows[i], rows[j]) && rows[i].status == Finalized ==> i == h
  {
    forall i: nat | i < |rows| && SameKey(rows[i], rows[j]) && rows[i].status == Finalized ensures i == h {
      assert SameKey(rows[i], rows[h]) && SameKey(rows[h], rows[i]);
    }
  }

  lemma ChainIsTheKey(rows: seq<Artifact>, now: nat, h: nat, i: nat)
    requires Ok(rows, now) && h < |rows| && rows[h].status == Finalized
    ensures i in Chain(rows, h) <==> i < |rows| && SameKey(rows[i], rows[h]) && EverFinalized(rows[i])
  {
    ChainDescends(rows, h);
    if i < |rows| && SameKey(rows[i], rows[h]) && EverFinalized(rows[i]) {
      OnTheChain(rows, now, i);
      var g: nat :| g < |rows| && SameKey(rows[g], rows[i]) && rows[g].status == Finalized && i in Chain(rows, g);
      OneHead(rows, h, i);
    }
    if i in Chain(rows, h) {
      var k :| 0 <= k < |Chain(rows, h)| && Chain(rows, h)[k] == i;
    }
  }

  /** A finalized artifact never changes again, except to be superseded; a superseded one never. */
  lemma {:induction false} FinalizedForGood(ops: seq<Op>, more: seq<Op>, i: nat)
    requires i < |Run(ops)| && EverFinalized(Run(ops)[i])
    ensures i < |Run(ops + more)|
    ensures var was, now := Run(ops)[i], Run(ops + more)[i];
            now == was || (was.status == Finalized && now == was.(status := Superseded))
    decreases |more|
  {
    if more == [] {
      assert ops + more == ops;
    } else {
      FinalizedForGood(ops, more[..|more|-1], i);
      assert (ops + more)[..|ops + more|-1] == ops + more[..|more|-1];
    }
  }

  // ----- gates ------------------------------------------------------------------------------------

  /** When a finalization goes through, and the reason when it does not; a refusal changes nothing. */
  lemma FinalizeOutcome(rows: seq<Artifact>, firm: bool, g: Gates, now: nat, id: nat)
    ensures var (after, e) := FinalizeSpec(rows, firm, g, now, id);
            var draft := firm && id < |rows| && rows[id].status == Draft;
            var reviewed := draft && (rows[id].period.None? || g.pendingDrafts == 0);
            var printable := reviewed && (rows[id].kind != TaxWorksheet || rows[id].format != Pdf
                                          || rows[id].worksheet.None? || g.templateActive);
            && (e.None? <==> printable) && (e.Some? ==> after == rows)
            && (!firm ==> e == Some(Forbidden))
            && (firm && id >= |rows| ==> e == Some(NotFound))
            && (firm && id < |rows| && !draft ==> e == Some(NotDraft))
            && (draft && !reviewed ==> e == Some(DraftsPending))
            && (reviewed && !printable ==> e == Some(NoActiveTemplate))
  {
  }

  /** A finalization stamps its row and supersedes the finalized artifacts of the kind and format, and of the
      period and the worksheet where it has one; nothing else changes. */
  lemma FinalizeFields(rows: seq<Artifact>, firm: bool, g: Gates, now: nat, id: nat)
    requires FinalizeSpec(rows, firm, g, now, id).1.None?
    ensures var after := FinalizeSpec(rows, firm, g, now, id).0;
            var a := rows[id];
            && |after| == |rows| && after[id].status == Finalized && after[id].finalizedAt == now
            && after[id].kind == a.kind && after[id].format == a.format && after[id].period == a.period
            && after[id].worksheet == a.worksheet
            && forall k :: 0 <= k < |rows| && k != id ==>
                 after[k] == if && rows[k].status == Finalized && rows[k].kind == a.kind && rows[k].format == a.format
                                && (a.period.None? || rows[k].period == a.period)
                                && (a.worksheet.None? || rows[k].worksheet == a.worksheet)
                             then rows[k].(status := Superseded) else rows[k]
  {
  }
}
