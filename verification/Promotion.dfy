/** From reviewed drafts to the ledger: a single draft becomes one entry, a bank-statement draft
    one entry a transaction. Every request runs in one transaction. */
module Promotion {
  import opened Accounts
  import opened Ledger
  import opened LedgerRuns
  import opened NarrativeText

  datatype Direction = Deposit | Payment | OtherDirection

  /** A transaction of a statement, its fields already parsed where they parse. */
  datatype Txn = Txn(code: string, amount: Option<real>, direction: Direction, date: Option<int>, needsReview: bool)

  datatype SkipReason = NoCode | NeedsReview | UnknownCode | BadAmount | NotPositive | UnknownDirection

  datatype DraftStatus = Pending | Promoted | Rejected

  datatype Draft = Draft(
    status: DraftStatus, isStatement: bool, txns: seq<Txn>,
    entry: Option<nat>, posted: seq<nat>, skipped: seq<(nat, SkipReason)>)

  datatype Desk = Desk(book: Book, drafts: seq<Draft>)

  datatype PromotionError = Forbidden | AlreadyPromoted | LedgerRefused(error: Error)

  // ----- one transaction of a statement -----------------------------------------------------

  function Strip(s: string): string
    decreases |s|
  {
    if s != "" && IsSpace(s[0]) then Strip(s[1..])
    else if s != "" && IsSpace(s[|s|-1]) then Strip(s[..|s|-1])
    else s
  }

  /** The active accounts among the first `n` by code; a later row of the same code wins. */
  function ActiveByCode(accounts: seq<Account>, n: nat): map<string, nat>
    requires n <= |accounts|
  {
    if n == 0 then map[]
    else if accounts[n-1].isActive then ActiveByCode(accounts, n - 1)[accounts[n-1].code := n - 1]
    else ActiveByCode(accounts, n - 1)
  }

  /** An empty override falls back to the proposed code. */
  function ChosenCode(overrides: map<nat, string>, i: nat, t: Txn): string {
    Strip(if i in overrides && overrides[i] != "" then overrides[i] else t.code)
  }

  function Clamp(d: int, p: Period): int { if d < p.start then p.start else if d > p.end then p.end else d }

  datatype Decision = Skipped(reason: SkipReason) | Ready(debit: nat, credit: nat, amount: real, date: int)

  function Decide(codes: map<string, nat>, p: Period, cash: nat, overrides: map<nat, string>, i: nat, t: Txn): Decision {
    var code := ChosenCode(overrides, i, t);
    if code == "" then Skipped(NoCode)
    else if i !in overrides && t.needsReview then Skipped(NeedsReview)
    else if code !in codes then Skipped(UnknownCode)
    else if t.amount.None? then Skipped(BadAmount)
    else if t.amount.value <= 0.0 then Skipped(NotPositive)
    else if t.direction == OtherDirection then Skipped(UnknownDirection)
    else
      var date := if t.date.Some? then Clamp(t.date.value, p) else p.start;
      if t.direction == Deposit then Ready(cash, codes[code], t.amount.value, date)
      else Ready(codes[code], cash, t.amount.value, date)
  }

  // ----- the loop over the transactions ---------------------------------------------------------

  /** The book so far, the rows posted with their entries, the rows skipped. */
  datatype Tally = Tally(book: Book, posted: seq<(nat, nat)>, skipped: seq<(nat, SkipReason)>)

  /** What is fixed while the loop runs. */
  datatype Job = Job(period: nat, cash: nat, codes: map<string, nat>, overrides: map<nat, string>, txns: seq<Txn>)

  function DecisionOf(b: Book, j: Job, i: nat): Decision
    requires i < |j.txns| && j.period < |b.periods|
  {
    Decide(j.codes, b.periods[j.period], j.cash, j.overrides, i, j.txns[i])
  }

  /** The first `n` transactions; a refusal of the ledger stops the loop. */
  function PostRows(b: Book, j: Job, n: nat): (r: (Tally, Option<Error>))
    requires n <= |j.txns| && j.period < |b.periods|
    ensures r.0.book.periods == b.periods && r.0.book.accounts == b.accounts
  {
    if n == 0 then (Tally(b, [], []), None)
    else
      var (t, e) := PostRows(b, j, n - 1);
      if e.Some? then (t, e)
      else
        match DecisionOf(b, j, n - 1)
        case Skipped(reason) => (t.(skipped := t.skipped + [(n - 1, reason)]), None)
        case Ready(d, c, x, date) =>
          var (b2, r) := PostSpec(t.book, j.period, date, TwoLines(d, c, x));
          if r.Err? then (t.(book := b2), Some(r.error))
          else (t.(book := b2, posted := t.posted + [(n - 1, r.value)]), None)
  }

  function Entries(posted: seq<(nat, nat)>): (r: seq<nat>)
    ensures |r| == |posted| && forall i :: 0 <= i < |posted| ==> r[i] == posted[i].1
  {
    seq(|posted|, i requires 0 <= i < |posted| => posted[i].1)
  }

  // ----- requests ----------------------------------------------------------------------------------

  function PromoteSpec(d: Desk, firm: bool, id: nat, period: nat, date: int, ls: seq<LineInput>)
    : (Desk, Result<nat, PromotionError>)
  {
    if !firm then (d, Err(Forbidden))
    else if id >= |d.drafts| || d.drafts[id].status != Pending then (d, Err(AlreadyPromoted))
    else
      var (b, r) := PostSpec(d.book, period, date, ls);
      if r.Err? then (d, Err(LedgerRefused(r.error)))
      else (Desk(b, d.drafts[id := d.drafts[id].(status := Promoted, entry := Some(r.value))]), Ok(r.value))
  }

  function RejectSpec(d: Desk, firm: bool, id: nat): (Desk, Option<PromotionError>) {
    if !firm then (d, Some(Forbidden))
    else if id >= |d.drafts| || d.drafts[id].status != Pending then (d, Some(AlreadyPromoted))
    else (d.(drafts := d.drafts[id := d.drafts[id].(status := Rejected)]), None)
  }

  function StatementSpec(d: Desk, firm: bool, id: nat, period: nat, cashCode: string, overrides: map<nat, string>)
    : (Desk, Result<Tally, PromotionError>)
  {
    if !firm then (d, Err(Forbidden))
    else if id >= |d.drafts| || d.drafts[id].status != Pending then (d, Err(AlreadyPromoted))
    else if !d.drafts[id].isStatement || d.drafts[id].txns == [] then (d, Err(AlreadyPromoted))
    else if period >= |d.book.periods| || d.book.periods[period].isLocked then (d, Err(Forbidden))
    else
      var codes := ActiveByCode(d.book.accounts, |d.book.accounts|);
      if cashCode !in codes then (d, Err(Forbidden))
      else
        var j := Job(period, codes[cashCode], codes, overrides, d.drafts[id].txns);
        var (t, e) := PostRows(d.book, j, |j.txns|);
        if e.Some? then (d, Err(LedgerRefused(e.value)))
        else if t.posted == [] then (d, Err(AlreadyPromoted))
        else
          (Desk(t.book, d.drafts[id := d.drafts[id].(status := Promoted, entry := Some(t.posted[0].1),
                                                     posted := Entries(t.posted), skipped := t.skipped)]), Ok(t))
  }

  class PromotionService {
    const ledger: LedgerService
    var drafts: seq<Draft>

    function Contents(): Desk
      reads this, ledger
    {
      Desk(ledger.Contents(), drafts)
    }

    constructor (l: LedgerService)
      ensures ledger == l && drafts == []
    {
      ledger, drafts := l, [];
    }

    method PromoteDraft(firm: bool, id: nat, period: nat, date: int, ls: seq<LineInput>)
      returns (r: Result<nat, PromotionError>)
      modifies this, ledger
      ensures (Contents(), r) == PromoteSpec(old(Contents()), firm, id, period, date, ls)
    {
      if !firm { return Err(Forbidden); }
      if id >= |drafts| { return Err(AlreadyPromoted); }
      if drafts[id].status != Pending { return Err(AlreadyPromoted); }
      var posted := ledger.PostInTransaction(period, date, ls);
      if posted.Err? { return Err(LedgerRefused(posted.error)); }
      drafts := drafts[id := drafts[id].(status := Promoted, entry := Some(posted.value))];
      return Ok(posted.value);
    }

    method RejectDraft(firm: bool, id: nat) returns (e: Option<PromotionError>)
      modifies this
      ensures (Contents(), e) == RejectSpec(old(Contents()), firm, id)
    {
      if !firm { return Some(Forbidden); }
      if id >= |drafts| { return Some(AlreadyPromoted); }
      if drafts[id].status != Pending { return Some(AlreadyPromoted); }
      drafts := drafts[id := drafts[id].(status := Rejected)];
      return None;
    }

    method CodesOf() returns (codes: map<string, nat>)
      ensures codes == ActiveByCode(ledger.accounts, |ledger.accounts|)
    {
      codes := map[];
      for i := 0 to |ledger.accounts|
        invariant codes == ActiveByCode(ledger.accounts, i)
      {
        if ledger.accounts[i].isActive {
          codes := codes[ledger.accounts[i].code := i];
        }
      }
    }

    method PromoteStatement(firm: bool, id: nat, period: nat, cashCode: string, overrides: map<nat, string>)
      returns (r: Result<Tally, PromotionError>)
      modifies this, ledger
      ensures (Contents(), r) == StatementSpec(old(Contents()), firm, id, period, cashCode, overrides)
    {
      if !firm { return Err(Forbidden); }
      if id >= |drafts| || drafts[id].status != Pending { return Err(AlreadyPromoted); }
      if !drafts[id].isStatement || |drafts[id].txns| == 0 { return Err(AlreadyPromoted); }
      if period >= |ledger.periods| || ledger.periods[period].isLocked { return Err(Forbidden); }
      var codes := CodesOf();
      if cashCode !in codes { return Err(Forbidden); }
      var j := Job(period, codes[cashCode], codes, overrides, drafts[id].txns);
      var a, p, es := ledger.accounts, ledger.periods, ledger.entries;
      var t, e := Loop(j);
      if e.Some? {
        ledger.accounts, ledger.periods, ledger.entries := a, p, es;
        return Err(LedgerRefused(e.value));
      }
      if |t.posted| == 0 {
        ledger.accounts, ledger.periods, ledger.entries := a, p, es;
        return Err(AlreadyPromoted);
      }
      drafts := drafts[id := drafts[id].(status := Promoted, entry := Some(t.posted[0].1),
                                         posted := Entries(t.posted), skipped := t.skipped)];
      return Ok(t);
    }

    /** The transaction loop; on a refusal the session holds whatever was written so far. */
    method Loop(j: Job) returns (t: Tally, e: Option<Error>)
      requires j.period < |ledger.periods|
      modifies ledger
      ensures (t, e) == PostRows(old(ledger.Contents()), j, |j.txns|) && ledger.Contents() == t.book
    {
      ghost var b := ledger.Contents();
      var posted: seq<(nat, nat)> := [];
      var skipped: seq<(nat, SkipReason)> := [];
      for i := 0 to |j.txns|
        invariant ledger.periods == b.periods
        invariant PostRows(b, j, i) == (Tally(ledger.Contents(), posted, skipped), None)
      {
        var decision := Decide(j.codes, ledger.periods[j.period], j.cash, j.overrides, i, j.txns[i]);
        RowUnfolded(b, j, i);
        if decision.Skipped? {
          skipped := skipped + [(i, decision.reason)];
        } else {
          var r := ledger.Post(j.period, decision.date, TwoLines(decision.debit, decision.credit, decision.amount));
          if r.Err? {
            PostRowsStuck(b, j, i + 1, |j.txns|);
            return Tally(ledger.Contents(), posted, skipped), Some(r.error);
          }
          posted := posted + [(i, r.value)];
        }
      }
      return Tally(ledger.Contents(), posted, skipped), None;
    }
  }

  /** One more row after a loop that ran through so far. */
  lemma RowUnfolded(b: Book, j: Job, i: nat)
    requires i < |j.txns| && j.period < |b.periods| && PostRows(b, j, i).1.None?
    ensures var t, d := PostRows(b, j, i).0, DecisionOf(b, j, i);
            PostRows(b, j, i + 1) ==
              if d.Skipped? then (t.(skipped := t.skipped + [(i, d.reason)]), None)
              else
                var (book, r) := PostSpec(t.book, j.period, d.date, TwoLines(d.debit, d.credit, d.amount));
                if r.Err? then (t.(book := book), Some(r.error))
                else (t.(book := book, posted := t.posted + [(i, r.value)]), None)
  {
  }

  lemma {:induction false} PostRowsStuck(b: Book, j: Job, m: nat, n: nat)
    requires m <= n <= |j.txns| && j.period < |b.periods| && PostRows(b, j, m).1.Some?
    ensures PostRows(b, j, n) == PostRows(b, j, m)
  {
    if m < n { PostRowsStuck(b, j, m, n - 1); }
  }
}
