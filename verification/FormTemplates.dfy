/** The registry of IRS form templates: register, verify, activate, look up. A row's id is its
    position; one call is one transaction. */
module FormTemplates {
  import opened Accounts

  datatype Status = Draft | Active | Superseded

  datatype Template = Template(form: nat, year: int, revision: string, status: Status, verified: bool)

  datatype TemplateError = Forbidden | NotFound | NotActive | BadState

  predicate SameForm(t: Template, form: nat, year: int) { t.form == form && t.year == year }

  predicate Registered(ts: seq<Template>, form: nat, year: int, revision: string) {
    exists i :: 0 <= i < |ts| && SameForm(ts[i], form, year) && ts[i].revision == revision
  }

  function RegisterSpec(ts: seq<Template>, firm: bool, form: nat, year: int, revision: string)
    : (seq<Template>, Result<nat, TemplateError>)
  {
    if !firm then (ts, Err(Forbidden))
    else if Registered(ts, form, year, revision) then (ts, Err(BadState))
    else (ts + [Template(form, year, revision, Draft, false)], Ok(|ts|))
  }

  function VerifySpec(ts: seq<Template>, firm: bool, id: nat): (seq<Template>, Option<TemplateError>) {
    if !firm then (ts, Some(Forbidden))
    else if id >= |ts| then (ts, Some(NotFound))
    else if ts[id].status == Superseded then (ts, Some(BadState))
    else (ts[id := ts[id].(verified := true)], None)
  }

  /** Any other active row of the same form and year. */
  function Retired(ts: seq<Template>, id: nat, i: nat): Template
    requires id < |ts| && i < |ts|
  {
    if i != id && SameForm(ts[i], ts[id].form, ts[id].year) && ts[i].status == Active then ts[i].(status := Superseded)
    else ts[i]
  }

  function AllRetired(ts: seq<Template>, id: nat): (r: seq<Template>)
    requires id < |ts|
    ensures |r| == |ts| && forall i :: 0 <= i < |ts| ==> r[i] == Retired(ts, id, i)
  {
    seq(|ts|, i requires 0 <= i < |ts| => Retired(ts, id, i))
  }

  function ActivateSpec(ts: seq<Template>, firm: bool, id: nat): (seq<Template>, Option<TemplateError>) {
    if !firm then (ts, Some(Forbidden))
    else if id >= |ts| then (ts, Some(NotFound))
    else if ts[id].status == Active && ts[id].verified then (ts, None)
    else if ts[id].status == Superseded || !ts[id].verified then (ts, Some(BadState))
    else (AllRetired(ts, id)[id := ts[id].(status := Active)], None)
  }

  /** The active and verified rows of a form and year. */
  function InForce(ts: seq<Template>, form: nat, year: int): seq<Template> {
    if ts == [] then []
    else
      var t := ts[|ts|-1];
      if SameForm(t, form, year) && t.status == Active && t.verified then InForce(ts[..|ts|-1], form, year) + [t]
      else InForce(ts[..|ts|-1], form, year)
  }

  function LookupSpec(ts: seq<Template>, form: nat, year: int): Result<Template, TemplateError> {
    var found := InForce(ts, form, year);
    if found == [] then Err(NotActive) else if |found| > 1 then Err(BadState) else Ok(found[0])
  }

  class Registry {
    var templates: seq<Template>

    constructor ()
      ensures templates == []
    {
      templates := [];
    }

    method Register(firm: bool, form: nat, year: int, revision: string) returns (r: Result<nat, TemplateError>)
      modifies this
      ensures (templates, r) == RegisterSpec(old(templates), firm, form, year, revision)
    {
      if !firm { return Err(Forbidden); }
      if Registered(templates, form, year, revision) { return Err(BadState); }
      templates := templates + [Template(form, year, revision, Draft, false)];
      return Ok(|templates| - 1);
    }

    method Verify(firm: bool, id: nat) returns (e: Option<TemplateError>)
      modifies this
      ensures (templates, e) == VerifySpec(old(templates), firm, id)
    {
      if !firm { return Some(Forbidden); }
      if id >= |templates| { return Some(NotFound); }
      if templates[id].status == Superseded { return Some(BadState); }
      if templates[id].verified {
        assert templates[id := templates[id].(verified := true)] == templates;
        return None;
      }
      templates := templates[id := templates[id].(verified := true)];
      return None;
    }

    method Activate(firm: bool, id: nat) returns (e: Option<TemplateError>)
      modifies this
      ensures (templates, e) == ActivateSpec(old(templates), firm, id)
    {
      if !firm { return Some(Forbidden); }
      if id >= |templates| { return Some(NotFound); }
      var row := templates[id];
      if row.status == Active && row.verified { return None; }
      if row.status == Superseded { return Some(BadState); }
      if !row.verified { return Some(BadState); }
      var before := templates;
      for i := 0 to |templates|
        invariant |templates| == |before|
        invariant forall k :: 0 <= k < i ==> templates[k] == Retired(before, id, k)
        invariant forall k :: i <= k < |templates| ==> templates[k] == before[k]
      {
        if i != id && SameForm(templates[i], row.form, row.year) && templates[i].status == Active {
          templates := templates[i := templates[i].(status := Superseded)];
        }
      }
      assert templates == AllRetired(before, id);
      templates := templates[id := row.(status := Active)];
      return None;
    }

    method GetActiveVerified(form: nat, year: int) returns (r: Result<Template, TemplateError>)
      ensures r == LookupSpec(templates, form, year)
    {
      var found: seq<Template> := [];
      for i := 0 to |templates|
        invariant found == InForce(templates[..i], form, year)
      {
        var t := templates[i];
        assert templates[..i+1][..i] == templates[..i];
        if SameForm(t, form, year) && t.status == Active && t.verified {
          found := found + [t];
        }
      }
      assert templates[..|templates|] == templates;
      if found == [] { return Err(NotActive); }
      if |found| > 1 { return Err(BadState); }
      return Ok(found[0]);
    }
  }

  // ----- runs -----------------------------------------------------------------------------

  datatype Op =
    | RegisterOp(firm: bool, form: nat, year: int, revision: string)
    | VerifyOp(firm: bool, id: nat)
    | ActivateOp(firm: bool, id: nat)

  function Step(ts: seq<Template>, op: Op): seq<Template> {
    match op
    case RegisterOp(firm, form, year, revision) => RegisterSpec(ts, firm, form, year, revision).0
    case VerifyOp(firm, id) => VerifySpec(ts, firm, id).0
    case ActivateOp(firm, id) => ActivateSpec(ts, firm, id).0
  }

  function Run(ops: seq<Op>): seq<Template> {
    if ops == [] then [] else Step(Run(ops[..|ops|-1]), ops[|ops|-1])
  }

  /** Revisions are unique, an active template is verified, and no two templates of a form and
      year are active. */
  ghost predicate RegistryOk(ts: seq<Template>) {
    && (forall i :: 0 <= i < |ts| && ts[i].status == Active ==> ts[i].verified)
    && (forall i, j :: 0 <= i < j < |ts| && SameForm(ts[i], ts[j].form, ts[j].year) ==>
          ts[i].revision != ts[j].revision && !(ts[i].status == Active && ts[j].status == Active))
  }

  lemma {:induction false} RegistryStaysOk(ops: seq<Op>)
    ensures RegistryOk(Run(ops))
  {
    if ops != [] {
      RegistryStaysOk(ops[..|ops|-1]);
      StepOk(Run(ops[..|ops|-1]), ops[|ops|-1]);
    }
  }

  lemma StepOk(ts: seq<Template>, op: Op)
    requires RegistryOk(ts)
    ensures RegistryOk(Step(ts, op))
  {
    var next := Step(ts, op);
    assert forall i :: 0 <= i < |ts| ==> SameForm(next[i], ts[i].form, ts[i].year) && next[i].revision == ts[i].revision;
    forall i, j | 0 <= i < j < |next| && SameForm(next[i], next[j].form, next[j].year)
      ensures next[i].revision != next[j].revision && !(next[i].status == Active && next[j].status == Active)
    {
      if j < |ts| {
        assert SameForm(ts[i], ts[j].form, ts[j].year);
      }
    }
  }

  lemma {:induction false} InForceCount(ts: seq<Template>, form: nat, year: int)
    requires RegistryOk(ts)
    ensures InForce(ts, form, year) == [] <==>
              forall i :: 0 <= i < |ts| ==> !(SameForm(ts[i], form, year) && ts[i].status == Active)
    ensures |InForce(ts, form, year)| <= 1
    ensures InForce(ts, form, year) != [] ==>
              exists i :: 0 <= i < |ts| && ts[i] == InForce(ts, form, year)[0] && ts[i].status == Active
  {
    if ts != [] {
      var init := ts[..|ts|-1];
      assert forall i :: 0 <= i < |init| ==> init[i] == ts[i];
      assert RegistryOk(init);
      InForceCount(init, form, year);
      var t := ts[|ts|-1];
      if SameForm(t, form, year) && t.status == Active {
        forall i | 0 <= i < |init| ensures !(SameForm(init[i], form, year) && init[i].status == Active) {
          assert SameForm(ts[i], form, year) ==> SameForm(ts[i], ts[|ts|-1].form, ts[|ts|-1].year);
        }
      }
    }
  }

  /** In every reachable registry the lookup never reports a broken invariant, and it fails exactly
      when no template of the form and year is active. */
  lemma LookupNeverBroken(ops: seq<Op>, form: nat, year: int)
    ensures var ts := Run(ops);
            && (LookupSpec(ts, form, year) == Err(NotActive) <==>
                  forall i :: 0 <= i < |ts| ==> !(SameForm(ts[i], form, year) && ts[i].status == Active))
            && LookupSpec(ts, form, year) != Err(BadState)
  {
    RegistryStaysOk(ops);
    InForceCount(Run(ops), form, year);
  }

  /** Activating a verified draft succeeds, retires whatever was in force, and the lookup then
      returns it. */
  lemma ActivationTakesForce(ops: seq<Op>, id: nat)
    requires id < |Run(ops)| && Run(ops)[id].status == Draft && Run(ops)[id].verified
    ensures var ts := Run(ops);
            var (next, e) := ActivateSpec(ts, true, id);
            && e.None?
            && LookupSpec(next, ts[id].form, ts[id].year) == Ok(ts[id].(status := Active))
  {
    var ts := Run(ops);
    var next := ActivateSpec(ts, true, id).0;
    RegistryStaysOk(ops);
    StepOk(ts, ActivateOp(true, id));
    InForceCount(next, ts[id].form, ts[id].year);
    assert next[id] == ts[id].(status := Active);
    InForceHas(next, id);
  }

  lemma {:induction false} InForceHas(ts: seq<Template>, id: nat)
    requires RegistryOk(ts) && id < |ts| && ts[id].status == Active
    ensures InForce(ts, ts[id].form, ts[id].year) == [ts[id]]
  {
    var init, t := ts[..|ts|-1], ts[|ts|-1];
    assert forall i :: 0 <= i < |init| ==> init[i] == ts[i];
    if id < |init| {
      InForceHas(init, id);
    } else {
      InForceCount(init, t.form, t.year);
      forall i | 0 <= i < |init| ensures !(SameForm(init[i], t.form, t.year) && init[i].status == Active) {
        assert SameForm(ts[i], t.form, t.year) ==> SameForm(ts[i], ts[|ts|-1].form, ts[|ts|-1].year);
      }
    }
  }

  /** Supersession is final, verification is never taken back, and an active template can only be
      superseded. */
  lemma {:induction false} RegistryHistory(ops: seq<Op>, more: seq<Op>, id: nat)
    requires id < |Run(ops)|
    ensures id < |Run(ops + more)|
    ensures var was, now := Run(ops)[id], Run(ops + more)[id];
            && (was.verified ==> now.verified)
            && (was.status == Superseded ==> now == was)
            && (was.status == Active ==> now.status == Active || now.status == Superseded)
    decreases |more|
  {
    if more == [] {
      assert ops + more == ops;
    } else {
      RegistryHistory(ops, more[..|more|-1], id);
      assert (ops + more)[..|ops + more|-1] == ops + more[..|more|-1];
    }
  }

  // ----- gates ------------------------------------------------------------------------------

  /** A revision is registered once for a form and year, as an unverified draft. */
  lemma RegisterOutcome(ts: seq<Template>, firm: bool, form: nat, year: int, revision: string)
    ensures var (after, r) := RegisterSpec(ts, firm, form, year, revision);
            var known := exists i :: 0 <= i < |ts| && ts[i].form == form && ts[i].year == year && ts[i].revision == revision;
            && (r.Ok? <==> firm && !known)
            && (!firm ==> r == Err(Forbidden)) && (firm && known ==> r == Err(BadState))
            && after == ts + if r.Ok? then [Template(form, year, revision, Draft, false)] else []
  {
    if i :| 0 <= i < |ts| && ts[i].form == form && ts[i].year == year && ts[i].revision == revision {
      assert SameForm(ts[i], form, year) && ts[i].revision == revision;
    }
  }

  /** Only the verified mark of a row that is not superseded changes. */
  lemma VerifyOutcome(ts: seq<Template>, firm: bool, id: nat)
    ensures var (after, e) := VerifySpec(ts, firm, id);
            && (e.None? <==> firm && id < |ts| && ts[id].status != Superseded)
            && (!firm ==> e == Some(Forbidden)) && (firm && id >= |ts| ==> e == Some(NotFound))
            && (firm && id < |ts| && ts[id].status == Superseded ==> e == Some(BadState))
            && after == if e.None? then ts[id := ts[id].(verified := true)] else ts
  {
  }

  /** Only a verified row that is not superseded becomes active, and then the other active rows of its form and
      year are superseded; a row in force stays as it is. */
  lemma ActivateOutcome(ts: seq<Template>, firm: bool, id: nat)
    ensures var (after, e) := ActivateSpec(ts, firm, id);
            && (e.None? <==> firm && id < |ts| && ts[id].verified && ts[id].status != Superseded)
            && (!firm ==> e == Some(Forbidden)) && (firm && id >= |ts| ==> e == Some(NotFound))
            && (firm && id < |ts| && (!ts[id].verified || ts[id].status == Superseded) ==> e == Some(BadState))
            && (e.Some? || ts[id].status == Active ==> after == ts)
            && (e.None? && ts[id].status == Draft ==>
                  && |after| == |ts| && after[id] == ts[id].(status := Active)
                  && forall k :: 0 <= k < |ts| && k != id ==>
                       after[k] == if ts[k].form == ts[id].form && ts[k].year == ts[id].year && ts[k].status == Active
                                   then ts[k].(status := Superseded) else ts[k])
  {
  }

  predicate InForceFor(t: Template, form: nat, year: int) {
    t.form == form && t.year == year && t.status == Active && t.verified
  }

  /** Row `i` is in force, and no other row is. */
  ghost predicate Alone(ts: seq<Template>, form: nat, year: int, i: int) {
    0 <= i < |ts| && forall j :: 0 <= j < |ts| ==> (InForceFor(ts[j], form, year) <==> j == i)
  }

  lemma {:induction false} InForceRows(ts: seq<Template>, form: nat, year: int)
    ensures InForce(ts, form, year) == [] <==> forall j :: 0 <= j < |ts| ==> !InForceFor(ts[j], form, year)
    ensures |InForce(ts, form, year)| == 1 ==> exists i :: Alone(ts, form, year, i) && ts[i] == InForce(ts, form, year)[0]
    ensures |InForce(ts, form, year)| > 1 ==> !exists i :: Alone(ts, form, year, i)
  {
    if ts != [] {
      var n, init, found := |ts| - 1, ts[..|ts|-1], InForce(ts[..|ts|-1], form, year);
      InForceRows(init, form, year);
      assert forall j :: 0 <= j < n ==> init[j] == ts[j];
      if |found| == 1 {
        var i :| Alone(init, form, year, i) && init[i] == found[0];
        if InForceFor(ts[n], form, year) {
          assert InForceFor(ts[i], form, year);
        } else {
          assert Alone(ts, form, year, i);
        }
      } else if found == [] && InForceFor(ts[n], form, year) {
        assert Alone(ts, form, year, n);
      } else if |found| > 1 {
        forall i | Alone(ts, form, year, i) && i < n ensures Alone(init, form, year, i) {}
        if !InForceFor(ts[n], form, year) { assert forall i :: Alone(ts, form, year, i) ==> i != n; }
        if k :| 0 <= k < n && InForceFor(init[k], form, year) { assert InForceFor(ts[k], form, year); }
      }
    }
  }

  /** Whatever the table holds, the lookup returns the one active and verified row of the form and year, and
      says which of none and several there are otherwise. */
  lemma LookupExactly(ts: seq<Template>, form: nat, year: int)
    ensures var r := LookupSpec(ts, form, year);
            && (r.Ok? ==> exists i :: Alone(ts, form, year, i) && ts[i] == r.value)
            && (r == Err(NotActive) <==> forall j :: 0 <= j < |ts| ==> !InForceFor(ts[j], form, year))
            && (r.Err? ==> r.error in {NotActive, BadState} && !exists i :: Alone(ts, form, year, i))
  {
    InForceRows(ts, form, year);
    if i :| Alone(ts, form, year, i) {
      assert InForceFor(ts[i], form, year);
    }
  }
}
