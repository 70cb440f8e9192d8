/** The review lifecycle of account mappings and of worksheets. A row's id is its position;
    one call is one transaction. */
module TaxLifecycle {
  import opened Accounts
  import opened TaxWorksheet

  // ----- mappings -------------------------------------------------------------------------

  datatype Status = Draft | Approved | Rejected | Superseded

  datatype MappingRow = MappingRow(form: nat, mapping: Mapping, status: Status)

  datatype MappingError = Forbidden | NotFound | NotDraft | DraftExists | UniqueViolation

  predicate SamePair(r: MappingRow, q: MappingRow) { r.form == q.form && r.mapping.account == q.mapping.account }

  /** The unique key on (client, form, account, status). */
  predicate UniqueKeys(rows: seq<MappingRow>) {
    forall i, j :: 0 <= i < j < |rows| ==> !(SamePair(rows[i], rows[j]) && rows[i].status == rows[j].status)
  }

  /** Some row of the pair of `q` has the status. */
  predicate Has(rows: seq<MappingRow>, q: MappingRow, s: Status) {
    exists i :: 0 <= i < |rows| && SamePair(rows[i], q) && rows[i].status == s
  }

  function ProposeSpec(rows: seq<MappingRow>, firm: bool, form: nat, m: Mapping)
    : (seq<MappingRow>, Result<nat, MappingError>)
  {
    var row := MappingRow(form, m, Draft);
    if !firm then (rows, Err(Forbidden))
    else if Has(rows, row, Draft) then (rows, Err(DraftExists))
    else if !UniqueKeys(rows + [row]) then (rows, Err(UniqueViolation))
    else (rows + [row], Ok(|rows|))
  }

  /** Every other approved row of the pair is superseded. */
  function PriorSuperseded(rows: seq<MappingRow>, id: nat): (r: seq<MappingRow>)
    requires id < |rows|
    ensures |r| == |rows| && forall i :: 0 <= i < |rows| ==> r[i] == Replaced(rows, id, i)
  {
    seq(|rows|, i requires 0 <= i < |rows| => Replaced(rows, id, i))
  }

  predicate IsPrior(rows: seq<MappingRow>, id: nat, i: nat)
    requires id < |rows| && i < |rows|
  {
    SamePair(rows[i], rows[id]) && rows[i].status == Approved && i != id
  }

  function Replaced(rows: seq<MappingRow>, id: nat, i: nat): MappingRow
    requires id < |rows| && i < |rows|
  {
    if IsPrior(rows, id, i) then rows[i].(status := Superseded) else rows[i]
  }

  function ApproveSpec(rows: seq<MappingRow>, firm: bool, id: nat): (seq<MappingRow>, Option<MappingError>) {
    if !firm then (rows, Some(Forbidden))
    else if id >= |rows| then (rows, Some(NotFound))
    else if rows[id].status != Draft then (rows, Some(NotDraft))
    else
      var flushed := PriorSuperseded(rows, id);
      var done := flushed[id := rows[id].(status := Approved)];
      if (exists i :: 0 <= i < |rows| && IsPrior(rows, id, i)) && !UniqueKeys(flushed) then (rows, Some(UniqueViolation))
      else if !UniqueKeys(done) then (rows, Some(UniqueViolation))
      else (done, None)
  }

  function RejectSpec(rows: seq<MappingRow>, firm: bool, id: nat): (seq<MappingRow>, Option<MappingError>) {
    if !firm then (rows, Some(Forbidden))
    else if id >= |rows| then (rows, Some(NotFound))
    else if rows[id].status != Draft then (rows, Some(NotDraft))
    else
      var done := rows[id := rows[id].(status := Rejected)];
      if !UniqueKeys(done) then (rows, Some(UniqueViolation)) else (done, None)
  }

  class MappingService {
    var rows: seq<MappingRow>

    constructor ()
      ensures rows == []
    {
      rows := [];
    }

    method Propose(firm: bool, form: nat, m: Mapping) returns (r: Result<nat, MappingError>)
      modifies this
      ensures (rows, r) == ProposeSpec(old(rows), firm, form, m)
    {
      if !firm {
        return Err(Forbidden);
      }
      var row := MappingRow(form, m, Draft);
      if Has(rows, row, Draft) {
        return Err(DraftExists);
      }
      var before := rows;
      rows := rows + [row];
      if !UniqueKeys(rows) {
        rows := before;
        return Err(UniqueViolation);
      }
      return Ok(|rows| - 1);
    }

    method Approve(firm: bool, id: nat) returns (e: Option<MappingError>)
      modifies this
      ensures (rows, e) == ApproveSpec(old(rows), firm, id)
    {
      if !firm {
        return Some(Forbidden);
      }
      if id >= |rows| {
        return Some(NotFound);
      }
      var m := rows[id];
      if m.status != Draft {
        return Some(NotDraft);
      }
      var before := rows;
      var anyPrior := false;
      for i := 0 to |rows|
        invariant |rows| == |before|
        invariant forall k :: 0 <= k < i ==> rows[k] == Replaced(before, id, k)
        invariant forall k :: i <= k < |rows| ==> rows[k] == before[k]
        invariant anyPrior <==> exists k :: 0 <= k < i && IsPrior(before, id, k)
      {
        assert IsPrior(before, id, i) <==> SamePair(rows[i], m) && rows[i].status == Approved && i != id;
        if SamePair(rows[i], m) && rows[i].status == Approved && i != id {
          rows, anyPrior := rows[i := rows[i].(status := Superseded)], true;
        }
      }
      assert rows == PriorSuperseded(before, id);
      if anyPrior && !UniqueKeys(rows) {
        rows := before;
        return Some(UniqueViolation);
      }
      rows := rows[id := m.(status := Approved)];
      if !UniqueKeys(rows) {
        rows := before;
        return Some(UniqueViolation);
      }
      return None;
    }

    method Reject(firm: bool, id: nat) returns (e: Option<MappingError>)
      modifies this
      ensures (rows, e) == RejectSpec(old(rows), firm, id)
    {
      if !firm {
        return Some(Forbidden);
      }
      if id >= |rows| {
        return Some(NotFound);
      }
      if rows[id].status != Draft {
        return Some(NotDraft);
      }
      var before := rows;
      rows := rows[id := rows[id].(status := Rejected)];
      if !UniqueKeys(rows) {
        rows := before;
        return Some(UniqueViolation);
      }
      return None;
    }
  }

  // ----- runs of the mapping table ------------------------------------------------------------

  datatype MappingOp =
    | ProposeOp(firm: bool, form: nat, mapping: Mapping)
    | ApproveOp(firm: bool, id: nat)
    | RejectOp(firm: bool, id: nat)

  function Step(rows: seq<MappingRow>, op: MappingOp): seq<MappingRow> {
    match op
    case ProposeOp(firm, form, m) => ProposeSpec(rows, firm, form, m).0
    case ApproveOp(firm, id) => ApproveSpec(rows, firm, id).0
    case RejectOp(firm, id) => RejectSpec(rows, firm, id).0
  }

  function RunMappings(ops: seq<MappingOp>): seq<MappingRow> {
    if ops == [] then [] else Step(RunMappings(ops[..|ops|-1]), ops[|ops|-1])
  }

  /** The unique key holds in every reachable table. */
  lemma {:induction false} KeysStayUnique(ops: seq<MappingOp>)
    ensures UniqueKeys(RunMappings(ops))
  {
    if ops != [] { KeysStayUnique(ops[..|ops|-1]); }
  }

  /** A proposal is refused only for want of scope or because a draft is open. */
  lemma ProposeOutcome(rows: seq<MappingRow>, firm: bool, form: nat, m: Mapping)
    requires UniqueKeys(rows)
    ensures ProposeSpec(rows, firm, form, m).1.Ok? <==> firm && !Has(rows, MappingRow(form, m, Draft), Draft)
  {
  }

  /** Approving fails exactly when it would have to supersede a row and the pair already has a
      superseded one. */
  lemma ApproveOutcome(rows: seq<MappingRow>, id: nat)
    requires UniqueKeys(rows) && id < |rows| && rows[id].status == Draft
    ensures ApproveSpec(rows, true, id).1
         == if Has(rows, rows[id], Approved) && Has(rows, rows[id], Superseded) then Some(UniqueViolation) else None
  {
    var q := rows[id];
    var flushed := PriorSuperseded(rows, id);
    if Has(rows, q, Approved) {
      var a :| 0 <= a < |rows| && SamePair(rows[a], q) && rows[a].status == Approved;
      assert IsPrior(rows, id, a);
      if Has(rows, q, Superseded) {
        var s :| 0 <= s < |rows| && SamePair(rows[s], q) && rows[s].status == Superseded;
        assert SamePair(flushed[a], flushed[s]) && flushed[a].status == flushed[s].status;
        assert SamePair(flushed[s], flushed[a]);
        assert !UniqueKeys(flushed);
      }
    }
  }

  /** Rejecting fails exactly when the pair already has a rejected row. */
  lemma RejectOutcome(rows: seq<MappingRow>, id: nat)
    requires UniqueKeys(rows) && id < |rows| && rows[id].status == Draft
    ensures RejectSpec(rows, true, id).1 == if Has(rows, rows[id], Rejected) then Some(UniqueViolation) else None
  {
    var done := rows[id := rows[id].(status := Rejected)];
    if Has(rows, rows[id], Rejected) {
      var k :| 0 <= k < |rows| && SamePair(rows[k], rows[id]) && rows[k].status == Rejected;
      assert SamePair(done[k], done[id]) && SamePair(done[id], done[k]) && done[k].status == done[id].status;
    }
  }

  /** A pair that has both an approved and a superseded row is frozen: whatever happens next, the
      approved row stays the approved one and every later approval for the pair fails. */
  lemma FrozenPair(rows: seq<MappingRow>, op: MappingOp, a: nat, s: nat)
    requires UniqueKeys(rows) && a < |rows| && s < |rows| && SamePair(rows[a], rows[s])
    requires rows[a].status == Approved && rows[s].status == Superseded
    ensures |Step(rows, op)| >= |rows| && Step(rows, op)[a] == rows[a] && Step(rows, op)[s] == rows[s]
  {
    if op.ApproveOp? && op.firm && op.id < |rows| && rows[op.id].status == Draft {
      ApproveOutcome(rows, op.id);
      if SamePair(rows[a], rows[op.id]) {
        assert Has(rows, rows[op.id], Approved) && Has(rows, rows[op.id], Superseded);
      }
    }
  }

  lemma {:induction false} FrozenForGood(ops: seq<MappingOp>, more: seq<MappingOp>, a: nat, s: nat)
    requires var rows := RunMappings(ops);
             && a < |rows| && s < |rows| && SamePair(rows[a], rows[s])
             && rows[a].status == Approved && rows[s].status == Superseded
    ensures var rows, later := RunMappings(ops), RunMappings(ops + more);
            |later| >= |rows| && later[a] == rows[a] && later[s] == rows[s]
    decreases |more|
  {
    if more == [] {
      assert ops + more == ops;
    } else {
      FrozenForGood(ops, more[..|more|-1], a, s);
      assert (ops + more)[..|ops + more|-1] == ops + more[..|more|-1];
      KeysStayUnique(ops + more[..|more|-1]);
      FrozenPair(RunMappings(ops + more[..|more|-1]), more[|more|-1], a, s);
    }
  }

  /** How many approvals for the pair of `q` have succeeded. */
  function Approvals(ops: seq<MappingOp>, q: MappingRow): nat {
    if ops == [] then 0
    else
      var rows, op := RunMappings(ops[..|ops|-1]), ops[|ops|-1];
      Approvals(ops[..|ops|-1], q)
      + if op.ApproveOp? && ApproveSpec(rows, op.firm, op.id).1.None? && SamePair(rows[op.id], q) then 1 else 0
  }

  function Rejections(ops: seq<MappingOp>, q: MappingRow): nat {
    if ops == [] then 0
    else
      var rows, op := RunMappings(ops[..|ops|-1]), ops[|ops|-1];
      Rejections(ops[..|ops|-1], q)
      + if op.RejectOp? && RejectSpec(rows, op.firm, op.id).1.None? && SamePair(rows[op.id], q) then 1 else 0
  }

  function One(b: bool): nat { if b then 1 else 0 }

  lemma ApproveEffect(rows: seq<MappingRow>, id: nat, q: MappingRow)
    requires UniqueKeys(rows) && ApproveSpec(rows, true, id).1.None?
    ensures var next := ApproveSpec(rows, true, id).0;
            && Has(next, q, Approved) == (Has(rows, q, Approved) || SamePair(rows[id], q))
            && Has(next, q, Superseded)
               == (Has(rows, q, Superseded) || (SamePair(rows[id], q) && Has(rows, q, Approved)))
            && Has(next, q, Rejected) == Has(rows, q, Rejected)
  {
    var next := ApproveSpec(rows, true, id).0;
    assert SamePair(next[id], q) == SamePair(rows[id], q);
    HasCarried(rows, next, id, q, Approved);
    HasCarried(rows, next, id, q, Superseded);
    HasCarried(rows, next, id, q, Rejected);
    if SamePair(rows[id], q) && Has(rows, q, Approved) {
      var k :| 0 <= k < |rows| && SamePair(rows[k], q) && rows[k].status == Approved;
      assert IsPrior(rows, id, k) && SamePair(next[k], q) && next[k].status == Superseded;
    }
  }

  /** What an approval does to the statuses seen by one pair. */
  lemma HasCarried(rows: seq<MappingRow>, next: seq<MappingRow>, id: nat, q: MappingRow, s: Status)
    requires id < |rows| && rows[id].status == Draft && |next| == |rows|
    requires forall i :: 0 <= i < |rows| && i != id ==> next[i] == Replaced(rows, id, i)
    requires next[id] == rows[id].(status := Approved) && s != Draft
    ensures Has(rows, q, s) && (s != Approved || !SamePair(rows[id], q)) ==> Has(next, q, s)
    ensures Has(next, q, s) ==> Has(rows, q, s) || (SamePair(rows[id], q) && s == Approved)
                                || (SamePair(rows[id], q) && s == Superseded && Has(rows, q, Approved))
  {
    if Has(rows, q, s) && (s != Approved || !SamePair(rows[id], q)) {
      var k :| 0 <= k < |rows| && SamePair(rows[k], q) && rows[k].status == s;
      assert next[k] == rows[k];
    }
    if Has(next, q, s) {
      var k :| 0 <= k < |next| && SamePair(next[k], q) && next[k].status == s;
      assert SamePair(rows[k], q);
    }
  }

  /** Successful approvals of a pair are its approved and superseded rows; by the unique key there
      are never more than two, and never more than one rejection. */
  lemma {:induction false} AtMostTwoApprovals(ops: seq<MappingOp>, q: MappingRow)
    ensures Approvals(ops, q) == One(Has(RunMappings(ops), q, Approved)) + One(Has(RunMappings(ops), q, Superseded))
    ensures Rejections(ops, q) == One(Has(RunMappings(ops), q, Rejected))
    ensures Approvals(ops, q) <= 2 && Rejections(ops, q) <= 1
  {
    if ops != [] {
      var init, op := ops[..|ops|-1], ops[|ops|-1];
      var rows := RunMappings(init);
      AtMostTwoApprovals(init, q);
      KeysStayUnique(init);
      match op
      case ProposeOp(firm, form, m) =>
        ProposeEffect(rows, firm, form, m, q);
      case ApproveOp(firm, id) =>
        if ApproveSpec(rows, firm, id).1.None? {
          ApproveOutcome(rows, id);
          ApproveEffect(rows, id, q);
          SamePairHas(rows, rows[id], q);
        }
      case RejectOp(firm, id) =>
        if RejectSpec(rows, firm, id).1.None? {
          RejectOutcome(rows, id);
          RejectEffect(rows, id, q);
          SamePairHas(rows, rows[id], q);
        }
    }
  }

  lemma SamePairHas(rows: seq<MappingRow>, p: MappingRow, q: MappingRow)
    ensures SamePair(p, q) ==> forall s :: Has(rows, p, s) == Has(rows, q, s)
  {
    if SamePair(p, q) {
      assert forall r: MappingRow :: SamePair(r, p) == SamePair(r, q);
    }
  }

  lemma ProposeEffect(rows: seq<MappingRow>, firm: bool, form: nat, m: Mapping, q: MappingRow)
    ensures forall s :: s != Draft ==> Has(ProposeSpec(rows, firm, form, m).0, q, s) == Has(rows, q, s)
  {
    var next := ProposeSpec(rows, firm, form, m).0;
    forall s | s != Draft ensures Has(next, q, s) == Has(rows, q, s) {
      assert forall k :: 0 <= k < |rows| ==> next[k] == rows[k];
      if Has(rows, q, s) {
        var k :| 0 <= k < |rows| && SamePair(rows[k], q) && rows[k].status == s;
        assert SamePair(next[k], q);
      }
    }
  }

  lemma RejectEffect(rows: seq<MappingRow>, id: nat, q: MappingRow)
    requires RejectSpec(rows, true, id).1.None?
    ensures var next := RejectSpec(rows, true, id).0;
            && Has(next, q, Rejected) == (Has(rows, q, Rejected) || SamePair(rows[id], q))
            && Has(next, q, Approved) == Has(rows, q, Approved)
            && Has(next, q, Superseded) == Has(rows, q, Superseded)
  {
    var next := RejectSpec(rows, true, id).0;
    assert SamePair(next[id], q) == SamePair(rows[id], q);
    forall s | s != Draft ensures Has(rows, q, s) ==> Has(next, q, s) {
      if Has(rows, q, s) {
        var k :| 0 <= k < |rows| && SamePair(rows[k], q) && rows[k].status == s;
        assert next[k] == rows[k];
      }
    }
    forall s | s != Draft ensures Has(next, q, s) ==> Has(rows, q, s) || (s == Rejected && SamePair(rows[id], q)) {
      if Has(next, q, s) {
        var k :| 0 <= k < |next| && SamePair(next[k], q) && next[k].status == s;
        assert k != id ==> next[k] == rows[k];
      }
    }
  }

  lemma OneMoreMapping(ops: seq<MappingOp>, op: MappingOp)
    ensures RunMappings(ops + [op]) == Step(RunMappings(ops), op)
  {
    assert (ops + [op])[..|ops|] == ops;
  }

  /** Propose, approve, propose again. */
  function ApprovedOnce(form: nat, m: Mapping): seq<MappingOp> {
    [ProposeOp(true, form, m)] + [ApproveOp(true, 0)] + [ProposeOp(true, form, m)]
  }

  lemma ApprovedOnceRows(form: nat, m: Mapping)
    ensures RunMappings(ApprovedOnce(form, m)) == [MappingRow(form, m, Approved), MappingRow(form, m, Draft)]
  {
    var p, a := ProposeOp(true, form, m), ApproveOp(true, 0);
    OneMoreMapping([], p);
    assert [] + [p] == [p] && RunMappings([p]) == [MappingRow(form, m, Draft)];
    OneMoreMapping([p], a);
    assert RunMappings([p] + [a]) == [MappingRow(form, m, Approved)];
    OneMoreMapping([p] + [a], p);
  }

  /** The first approval goes through, the second one supersedes it, the third one fails. */
  lemma ThirdApprovalFails(form: nat, m: Mapping)
    ensures var rows := RunMappings(ApprovedOnce(form, m) + [ApproveOp(true, 1)] + [ProposeOp(true, form, m)]);
            && rows == [MappingRow(form, m, Superseded), MappingRow(form, m, Approved), MappingRow(form, m, Draft)]
            && ApproveSpec(rows, true, 2) == (rows, Some(UniqueViolation))
  {
    var once, a, p := ApprovedOnce(form, m), ApproveOp(true, 1), ProposeOp(true, form, m);
    ApprovedOnceRows(form, m);
    OneMoreMapping(once, a);
    var two := RunMappings(once + [a]);
    assert two == [MappingRow(form, m, Superseded), MappingRow(form, m, Approved)];
    OneMoreMapping(once + [a], p);
    var rows := two + [MappingRow(form, m, Draft)];
    assert RunMappings(once + [a] + [p]) == rows;
    assert rows[0].status == Superseded && rows[1].status == Approved;
    ApproveOutcome(rows, 2);
  }

  /** The approved mappings of a form, as the worksheet reads them. */
  function ApprovedOf(rows: seq<MappingRow>, form: nat): seq<Mapping> {
    if rows == [] then []
    else if rows[|rows|-1].form == form && rows[|rows|-1].status == Approved then
      ApprovedOf(rows[..|rows|-1], form) + [rows[|rows|-1].mapping]
    else ApprovedOf(rows[..|rows|-1], form)
  }

  lemma {:induction false} ApprovedOfHave(rows: seq<MappingRow>, form: nat)
    ensures forall m :: m in ApprovedOf(rows, form) ==>
              exists i :: 0 <= i < |rows| && rows[i] == MappingRow(form, m, Approved)
  {
    if rows != [] {
      var init, last := rows[..|rows|-1], rows[|rows|-1];
      ApprovedOfHave(init, form);
      forall m | m in ApprovedOf(rows, form)
        ensures exists i :: 0 <= i < |rows| && rows[i] == MappingRow(form, m, Approved)
      {
        if m in ApprovedOf(init, form) {
          var i :| 0 <= i < |init| && init[i] == MappingRow(form, m, Approved);
          assert rows[i] == MappingRow(form, m, Approved);
        } else {
          assert rows[|rows|-1] == MappingRow(form, m, Approved);
        }
      }
    }
  }

  /** In every reachable table an account has at most one approved mapping on a form, which is
      what worksheet generation relies on. */
  lemma {:induction false} OneApprovedMapping(rows: seq<MappingRow>, form: nat)
    requires UniqueKeys(rows)
    ensures DistinctAccounts(ApprovedOf(rows, form))
  {
    if rows != [] {
      var init, last := rows[..|rows|-1], rows[|rows|-1];
      assert forall i :: 0 <= i < |init| ==> init[i] == rows[i];
      OneApprovedMapping(init, form);
      if last.form == form && last.status == Approved {
        ApprovedOfHave(init, form);
        forall k | 0 <= k < |ApprovedOf(init, form)| ensures ApprovedOf(init, form)[k].account != last.mapping.account {
          var m := ApprovedOf(init, form)[k];
          assert m in ApprovedOf(init, form);
          var i :| 0 <= i < |init| && init[i] == MappingRow(form, m, Approved);
          assert i < |rows| - 1 && rows[i] == init[i];
          assert SamePair(rows[i], rows[|rows|-1]) <==> m.account == last.mapping.account;
        }
      }
    }
  }

  // ----- worksheets ----------------------------------------------------------------------------

  datatype SheetStatus = Computed | SheetApproved | SheetRejected | SheetSuperseded

  datatype Sheet = Sheet(period: nat, form: nat, status: SheetStatus)

  datatype SheetError = SheetForbidden | SheetNotFound | NotComputed

  predicate Active(s: Sheet) { s.status == Computed || s.status == SheetApproved }

  predicate SameKey(s: Sheet, period: nat, form: nat) { s.period == period && s.form == form }

  function Retired(s: Sheet, period: nat, form: nat): Sheet {
    if SameKey(s, period, form) && Active(s) then s.(status := SheetSuperseded) else s
  }

  function AllRetired(sheets: seq<Sheet>, period: nat, form: nat): (r: seq<Sheet>)
    ensures |r| == |sheets| && forall i :: 0 <= i < |sheets| ==> r[i] == Retired(sheets[i], period, form)
  {
    seq(|sheets|, i requires 0 <= i < |sheets| => Retired(sheets[i], period, form))
  }

  function Reviewed(sheets: seq<Sheet>, firm: bool, id: nat, verdict: SheetStatus): (seq<Sheet>, Option<SheetError>) {
    if !firm then (sheets, Some(SheetForbidden))
    else if id >= |sheets| then (sheets, Some(SheetNotFound))
    else if sheets[id].status != Computed then (sheets, Some(NotComputed))
    else (sheets[id := sheets[id].(status := verdict)], None)
  }

  class WorksheetService {
    var sheets: seq<Sheet>

    constructor ()
      ensures sheets == []
    {
      sheets := [];
    }

    /** The gates have passed: retire the active worksheets of the key and add the new one. */
    method Store(period: nat, form: nat) returns (id: nat)
      modifies this
      ensures sheets == AllRetired(old(sheets), period, form) + [Sheet(period, form, Computed)]
      ensures id == |old(sheets)|
    {
      var before := sheets;
      for i := 0 to |sheets|
        invariant |sheets| == |before|
        invariant forall k :: 0 <= k < i ==> sheets[k] == Retired(before[k], period, form)
        invariant forall k :: i <= k < |sheets| ==> sheets[k] == before[k]
      {
        if SameKey(sheets[i], period, form) && Active(sheets[i]) {
          sheets := sheets[i := sheets[i].(status := SheetSuperseded)];
        }
      }
      assert sheets == AllRetired(before, period, form);
      sheets := sheets + [Sheet(period, form, Computed)];
      id := |sheets| - 1;
    }

    method Approve(firm: bool, id: nat) returns (e: Option<SheetError>)
      modifies this
      ensures (sheets, e) == Reviewed(old(sheets), firm, id, SheetApproved)
    {
      if !firm { return Some(SheetForbidden); }
      if id >= |sheets| { return Some(SheetNotFound); }
      if sheets[id].status != Computed { return Some(NotComputed); }
      sheets := sheets[id := sheets[id].(status := SheetApproved)];
      return None;
    }

    method Reject(firm: bool, id: nat) returns (e: Option<SheetError>)
      modifies this
      ensures (sheets, e) == Reviewed(old(sheets), firm, id, SheetRejected)
    {
      if !firm { return Some(SheetForbidden); }
      if id >= |sheets| { return Some(SheetNotFound); }
      if sheets[id].status != Computed { return Some(NotComputed); }
      sheets := sheets[id := sheets[id].(status := SheetRejected)];
      return None;
    }
  }

  datatype SheetOp =
    | StoreOp(period: nat, form: nat)
    | ApproveSheet(firm: bool, id: nat)
    | RejectSheet(firm: bool, id: nat)

  function SheetStep(sheets: seq<Sheet>, op: SheetOp): seq<Sheet> {
    match op
    case StoreOp(period, form) => AllRetired(sheets, period, form) + [Sheet(period, form, Computed)]
    case ApproveSheet(firm, id) => Reviewed(sheets, firm, id, SheetApproved).0
    case RejectSheet(firm, id) => Reviewed(sheets, firm, id, SheetRejected).0
  }

  function RunSheets(ops: seq<SheetOp>): seq<Sheet> {
    if ops == [] then [] else SheetStep(RunSheets(ops[..|ops|-1]), ops[|ops|-1])
  }

  /** An active worksheet is the latest of its key. */
  ghost predicate OnlyLatestActive(sheets: seq<Sheet>) {
    forall i, j :: 0 <= i < j < |sheets| && SameKey(sheets[i], sheets[j].period, sheets[j].form) ==> !Active(sheets[i])
  }

  /** Over all runs: at most one worksheet of a (period, form) is computed or approved, and it is
      the one generated last. */
  lemma {:induction false} LatestActive(ops: seq<SheetOp>)
    ensures OnlyLatestActive(RunSheets(ops))
  {
    if ops != [] {
      LatestActive(ops[..|ops|-1]);
      LatestActiveStep(RunSheets(ops[..|ops|-1]), ops[|ops|-1]);
    }
  }

  lemma LatestActiveStep(sheets: seq<Sheet>, op: SheetOp)
    requires OnlyLatestActive(sheets)
    ensures OnlyLatestActive(SheetStep(sheets, op))
  {
    var next := SheetStep(sheets, op);
    forall i, j | 0 <= i < j < |next| && SameKey(next[i], next[j].period, next[j].form) ensures !Active(next[i]) {
      if j < |sheets| {
        assert SameKey(sheets[i], sheets[j].period, sheets[j].form);
      }
    }
  }

  predicate Closed(s: Sheet) { s.status == SheetRejected || s.status == SheetSuperseded }

  /** A later worksheet of the key of `s`. */
  ghost predicate HasLater(sheets: seq<Sheet>, id: nat, s: Sheet) {
    exists j :: id < j < |sheets| && SameKey(sheets[j], s.period, s.form)
  }

  /** What one call does to one worksheet. */
  ghost predicate Follows(was: Sheet, now: Sheet, sheets: seq<Sheet>, id: nat) {
    && SameKey(now, was.period, was.form)
    && (Closed(was) ==> now == was)
    && (was.status == SheetApproved ==> now == was || (now.status == SheetSuperseded && HasLater(sheets, id, was)))
  }

  lemma SheetStepFollows(sheets: seq<Sheet>, op: SheetOp, id: nat)
    requires id < |sheets|
    ensures |SheetStep(sheets, op)| >= |sheets|
    ensures Follows(sheets[id], SheetStep(sheets, op)[id], SheetStep(sheets, op), id)
    ensures forall s :: HasLater(sheets, id, s) ==> HasLater(SheetStep(sheets, op), id, s)
  {
    var next := SheetStep(sheets, op);
    assert forall j :: 0 <= j < |sheets| ==> SameKey(next[j], sheets[j].period, sheets[j].form);
    if sheets[id].status == SheetApproved && next[id] != sheets[id] {
      assert SameKey(next[|sheets|], sheets[id].period, sheets[id].form);
    }
    forall s | HasLater(sheets, id, s) ensures HasLater(next, id, s) {
      var j :| id < j < |sheets| && SameKey(sheets[j], s.period, s.form);
      assert SameKey(next[j], s.period, s.form);
    }
  }

  /** Worksheets are snapshots: no later call touches period or form, a rejected or superseded one
      never changes, and an approved one can only be superseded by a later worksheet of its key. */
  lemma {:induction false} SheetsAreHistory(ops: seq<SheetOp>, more: seq<SheetOp>, id: nat)
    requires id < |RunSheets(ops)|
    ensures id < |RunSheets(ops + more)|
    ensures Follows(RunSheets(ops)[id], RunSheets(ops + more)[id], RunSheets(ops + more), id)
    decreases |more|
  {
    if more == [] {
      assert ops + more == ops;
    } else {
      var init := more[..|more|-1];
      SheetsAreHistory(ops, init, id);
      assert (ops + more)[..|ops + more|-1] == ops + init;
      SheetStepFollows(RunSheets(ops + init), more[|more|-1], id);
    }
  }

  // ----- gates -----------------------------------------------------------------------------------

  /** A proposal adds a draft unless the account already has a draft on the form. */
  lemma ProposeFields(rows: seq<MappingRow>, firm: bool, form: nat, m: Mapping)
    requires UniqueKeys(rows)
    ensures var (after, r) := ProposeSpec(rows, firm, form, m);
            var open := exists i :: 0 <= i < |rows| && rows[i].form == form && rows[i].mapping.account == m.account
                                    && rows[i].status == Draft;
            && (r == Ok(|rows|) <==> firm && !open) && (r.Ok? <==> firm && !open)
            && (!firm ==> r == Err(Forbidden)) && (firm && open ==> r == Err(DraftExists))
            && after == rows + if r.Ok? then [MappingRow(form, m, Draft)] else []
  {
    var q := MappingRow(form, m, Draft);
    ProposeOutcome(rows, firm, form, m);
    if i :| 0 <= i < |rows| && rows[i].form == form && rows[i].mapping.account == m.account && rows[i].status == Draft {
      assert SamePair(rows[i], q);
    }
  }

  /** What a review asks first; a refusal changes nothing. */
  lemma ReviewGates(rows: seq<MappingRow>, firm: bool, id: nat)
    ensures var (approved, e) := ApproveSpec(rows, firm, id);
            var (rejected, f) := RejectSpec(rows, firm, id);
            && (e.Some? ==> approved == rows) && (f.Some? ==> rejected == rows)
            && (!firm ==> e == f == Some(Forbidden))
            && (firm && id >= |rows| ==> e == f == Some(NotFound))
            && (firm && id < |rows| && rows[id].status != Draft ==> e == f == Some(NotDraft))
  {
  }

  /** An approval turns the draft into the approved row and supersedes the approved rows of the same form and
      account; a rejection touches the draft alone. */
  lemma ReviewFields(rows: seq<MappingRow>, firm: bool, id: nat)
    ensures var (after, e) := ApproveSpec(rows, firm, id);
            e.None? ==>
              && id < |rows| && |after| == |rows| && after[id] == rows[id].(status := Approved)
              && forall k :: 0 <= k < |rows| && k != id ==>
                   after[k] == if && rows[k].form == rows[id].form && rows[k].mapping.account == rows[id].mapping.account
                                  && rows[k].status == Approved
                               then rows[k].(status := Superseded) else rows[k]
    ensures var (after, e) := RejectSpec(rows, firm, id);
            e.None? ==> id < |rows| && after == rows[id := rows[id].(status := Rejected)]
  {
  }

  /** A new worksheet supersedes the computed and approved ones of its period and form, and no other. */
  lemma StoreFields(sheets: seq<Sheet>, period: nat, form: nat)
    ensures var after := SheetStep(sheets, StoreOp(period, form));
            && |after| == |sheets| + 1 && after[|sheets|] == Sheet(period, form, Computed)
            && forall k :: 0 <= k < |sheets| ==>
                 after[k] == if && sheets[k].period == period && sheets[k].form == form
                                && (sheets[k].status == Computed || sheets[k].status == SheetApproved)
                             then sheets[k].(status := SheetSuperseded) else sheets[k]
  {
  }

  /** Only a computed worksheet can be reviewed, by the firm, and only its status changes. */
  lemma SheetOutcome(sheets: seq<Sheet>, firm: bool, id: nat, verdict: SheetStatus)
    ensures var (after, e) := Reviewed(sheets, firm, id, verdict);
            && (e.None? <==> firm && id < |sheets| && sheets[id].status == Computed)
            && (!firm ==> e == Some(SheetForbidden)) && (firm && id >= |sheets| ==> e == Some(SheetNotFound))
            && (firm && id < |sheets| && sheets[id].status != Computed ==> e == Some(NotComputed))
            && after == if e.None? then sheets[id := sheets[id].(status := verdict)] else sheets
  {
  }
}
