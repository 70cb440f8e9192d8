/** Which rows of a statement are posted, why the others are not, and what the entries say, told on the
    fields of the rows and of the chart. */
module PromotionFacts {
  import opened Accounts
  import opened Ledger
  import opened LedgerRuns
  import opened NarrativeText
  import opened Promotion
  import opened PromotionProofs

  // ----- codes ------------------------------------------------------------------------

  predicate Blank(c: char) {
    c in {' ', '\t', '\n', '\U{B}', '\U{C}', '\r', '\U{1C}', '\U{1D}', '\U{1E}', '\U{1F}'}
  }

  lemma BlankIs(c: char)
    ensures IsSpace(c) <==> Blank(c)
  {
  }

  predicate TrimmedAt(s: string, t: string, i: int, j: int) {
    && 0 <= i <= j <= |s| && t == s[i..j]
    && (forall k :: 0 <= k < i ==> IsSpace(s[k])) && (forall k :: j <= k < |s| ==> IsSpace(s[k]))
    && (i < j ==> !IsSpace(s[i]) && !IsSpace(s[j-1]))
  }

  /** `t` is `s` without the blanks around it. */
  ghost predicate Trimmed(s: string, t: string) { exists i, j :: TrimmedAt(s, t, i, j) }

  lemma TrimFirst(s: string, t: string, i: int, j: int)
    requires s != "" && IsSpace(s[0]) && TrimmedAt(s[1..], t, i, j)
    ensures TrimmedAt(s, t, i + 1, j + 1)
  {
    assert s[i+1..j+1] == s[1..][i..j];
    assert forall k :: 0 < k < |s| ==> s[k] == s[1..][k-1];
  }

  lemma TrimLast(s: string, t: string, i: int, j: int)
    requires s != "" && IsSpace(s[|s|-1]) && TrimmedAt(s[..|s|-1], t, i, j)
    ensures TrimmedAt(s, t, i, j)
  {
    assert s[i..j] == s[..|s|-1][i..j];
  }

  lemma {:induction false} StripTrims(s: string)
    ensures Trimmed(s, Strip(s))
    decreases |s|
  {
    if s != "" && IsSpace(s[0]) {
      StripTrims(s[1..]);
      var i, j :| TrimmedAt(s[1..], Strip(s), i, j);
      TrimFirst(s, Strip(s), i, j);
    } else if s != "" && IsSpace(s[|s|-1]) {
      StripTrims(s[..|s|-1]);
      var i, j :| TrimmedAt(s[..|s|-1], Strip(s), i, j);
      TrimLast(s, Strip(s), i, j);
    } else {
      assert s[0..|s|] == s;
      assert TrimmedAt(s, s, 0, |s|);
    }
  }

  lemma TrimmedOnce(s: string, t: string, u: string)
    requires Trimmed(s, t) && Trimmed(s, u)
    ensures t == u
  {
    var i, j :| TrimmedAt(s, t, i, j);
    var p, q :| TrimmedAt(s, u, p, q);
  }

  /** Stripping takes off exactly the blanks around a text. */
  lemma StripIs(s: string, t: string)
    ensures t == Strip(s) <==> Trimmed(s, t)
  {
    StripTrims(s);
    if Trimmed(s, t) { TrimmedOnce(s, t, Strip(s)); }
  }

  /** Account `a` is active and is the last active one of this code. */
  ghost predicate LastActive(accounts: seq<Account>, code: string, a: int) {
    && 0 <= a < |accounts| && accounts[a].isActive && accounts[a].code == code
    && forall k :: a < k < |accounts| && accounts[k].isActive ==> accounts[k].code != code
  }

  ghost predicate SomeActive(accounts: seq<Account>, code: string) {
    exists a :: 0 <= a < |accounts| && accounts[a].isActive && accounts[a].code == code
  }

  /** The code table holds the active accounts, the last one under a code that is used twice. */
  lemma {:induction false} CodesAre(accounts: seq<Account>, n: nat, code: string)
    requires n <= |accounts|
    ensures code in ActiveByCode(accounts, n) <==> SomeActive(accounts[..n], code)
    ensures code in ActiveByCode(accounts, n) ==> LastActive(accounts[..n], code, ActiveByCode(accounts, n)[code])
  {
    if n > 0 {
      CodesAre(accounts, n - 1, code);
      var was, now := accounts[..n-1], accounts[..n];
      assert now == was + [accounts[n-1]];
      if SomeActive(was, code) {
        var a :| 0 <= a < |was| && was[a].isActive && was[a].code == code;
        assert now[a].isActive && now[a].code == code;
      }
      if accounts[n-1].isActive && accounts[n-1].code == code {
        assert now[n-1].isActive && now[n-1].code == code;
      }
    }
  }

  // ----- rows -------------------------------------------------------------------------------

  /** The code asked for: an override that is not empty, or else the proposal. */
  function Asked(j: Job, i: nat): string
    requires i < |j.txns|
  {
    Strip(if i in j.overrides && j.overrides[i] != "" then j.overrides[i] else j.txns[i].code)
  }

  /** The reviewer answered for the row, or nothing was asked. */
  predicate Reviewed(j: Job, i: nat)
    requires i < |j.txns|
  {
    i in j.overrides || !j.txns[i].needsReview
  }

  /** The first test that the row fails. */
  ghost predicate Fails(b: Book, j: Job, i: nat, reason: SkipReason)
    requires i < |j.txns|
  {
    var code, x := Asked(j, i), j.txns[i].amount;
    match reason
    case NoCode => code == ""
    case NeedsReview => code != "" && !Reviewed(j, i)
    case UnknownCode => code != "" && Reviewed(j, i) && !SomeActive(b.accounts, code)
    case BadAmount => code != "" && Reviewed(j, i) && SomeActive(b.accounts, code) && x.None?
    case NotPositive =>
      code != "" && Reviewed(j, i) && SomeActive(b.accounts, code) && x.Some? && x.value <= 0.0
    case UnknownDirection =>
      && code != "" && Reviewed(j, i) && SomeActive(b.accounts, code) && x.Some? && x.value > 0.0
      && j.txns[i].direction != Deposit && j.txns[i].direction != Payment
  }

  /** The day of the row moved into the period, or the first day of the period. */
  predicate DatedInto(p: Period, wanted: Option<int>, date: int) {
    match wanted
    case None => date == p.start
    case Some(d) =>
      (d < p.start ==> date == p.start) && (p.start <= d <= p.end ==> date == d)
      && (p.start <= d && p.end < d ==> date == p.end)
  }

  /** What the decision on a row says, on its fields. */
  lemma DecisionFields(b: Book, j: Job, i: nat)
    requires i < |j.txns| && j.period < |b.periods| && j.codes == ActiveByCode(b.accounts, |b.accounts|)
    ensures var d, row, code := DecisionOf(b, j, i), j.txns[i], Asked(j, i);
            && (forall reason :: Fails(b, j, i, reason) <==> d == Skipped(reason))
            && (d.Ready? ==>
                  && code != "" && Reviewed(j, i) && SomeActive(b.accounts, code)
                  && row.amount.Some? && row.amount.value > 0.0 && d.amount == row.amount.value
                  && (row.direction == Deposit || row.direction == Payment)
                  && DatedInto(b.periods[j.period], row.date, d.date)
                  && (row.direction == Deposit ==> d.debit == j.cash && LastActive(b.accounts, code, d.credit))
                  && (row.direction == Payment ==> d.credit == j.cash && LastActive(b.accounts, code, d.debit)))
  {
    var n := |b.accounts|;
    assert b.accounts[..n] == b.accounts;
    CodesAre(b.accounts, n, Asked(j, i));
    match DecisionOf(b, j, i)
    case Skipped(reason) => assert Fails(b, j, i, reason);
    case Ready(_, _, _, _) =>
  }

  /** After a loop that runs through, a row is posted if and only if its code is there and belongs to an
      active account, the row was reviewed or not flagged, its amount parses and is positive, and its
      direction is deposit or payment. */
  lemma PostedExactly(b: Book, j: Job, n: nat, i: nat)
    requires i < n <= |j.txns| && j.period < |b.periods| && j.codes == ActiveByCode(b.accounts, |b.accounts|)
    requires PostRows(b, j, n).1.None?
    ensures var row, code := j.txns[i], Asked(j, i);
            IsPosted(PostRows(b, j, n).0, i) <==>
              && code != ""
              && (exists a :: 0 <= a < |b.accounts| && b.accounts[a].isActive && b.accounts[a].code == code)
              && (i in j.overrides || !row.needsReview)
              && row.amount.Some? && row.amount.value > 0.0
              && (row.direction == Deposit || row.direction == Payment)
  {
    RowsPartition(b, j, n);
    DecisionFields(b, j, i);
  }

  lemma SkippedRow(b: Book, j: Job, n: nat, i: nat, reason: SkipReason)
    requires 0 < n <= |j.txns| && j.period < |b.periods| && PostRows(b, j, n).1.None?
    ensures (i, reason) in PostRows(b, j, n).0.skipped <==>
              || (PostRows(b, j, n - 1).1.None? && (i, reason) in PostRows(b, j, n - 1).0.skipped)
              || (i == n - 1 && DecisionOf(b, j, n - 1) == Skipped(reason))
  {
    RowStep(b, j, n);
  }

  /** A skipped row carries the first test it fails. */
  lemma {:induction false} SkippedExactly(b: Book, j: Job, n: nat, i: nat, reason: SkipReason)
    requires n <= |j.txns| && j.period < |b.periods| && j.codes == ActiveByCode(b.accounts, |b.accounts|)
    requires PostRows(b, j, n).1.None?
    ensures (i, reason) in PostRows(b, j, n).0.skipped <==> i < n && Fails(b, j, i, reason)
  {
    if n > 0 {
      RowStep(b, j, n);
      SkippedExactly(b, j, n - 1, i, reason);
      SkippedRow(b, j, n, i, reason);
      if i == n - 1 { DecisionFields(b, j, i); }
    }
  }

  // ----- entries -------------------------------------------------------------------------------

  /** The entry of row `i`: two lines of its amount, cash on the side of the direction. */
  ghost predicate EntryOfRow(b: Book, j: Job, i: nat, e: Entry)
    requires i < |j.txns| && j.period < |b.periods|
  {
    var row := j.txns[i];
    && e.status == Posted && e.period == j.period && DatedInto(b.periods[j.period], row.date, e.date)
    && |e.lines| == 2 && row.amount.Some?
    && e.lines[0].credit == 0 && e.lines[1].debit == 0
    && e.lines[0].debit as real == e.lines[1].credit as real == row.amount.value * 10000.0
    && (row.direction == Deposit ==>
          e.lines[0].account == j.cash && LastActive(b.accounts, Asked(j, i), e.lines[1].account))
    && (row.direction == Payment ==>
          e.lines[1].account == j.cash && LastActive(b.accounts, Asked(j, i), e.lines[0].account))
  }

  lemma RowEntry(b: Book, period: nat, date: int, d: nat, c: nat, x: real)
    requires x > 0.0 && PostSpec(b, period, date, TwoLines(d, c, x)).1.Ok?
    ensures PostSpec(b, period, date, TwoLines(d, c, x)).0.entries
         == b.entries + [Entry(period, date, [Line(d, Store(x), 0), Line(c, 0, Store(x))], Posted)]
    ensures PostSpec(b, period, date, TwoLines(d, c, x)).1.value == |b.entries|
    ensures Store(x) as real == x * 10000.0
  {
    RowOutcome(b, period, date, d, c, x);
    StoreFacts(x);
    assert StoredLines(TwoLines(d, c, x)) == [Line(d, Store(x), 0), Line(c, 0, Store(x))];
  }

  /** The entry that a posted row points to. */
  lemma {:induction false} PostedEntry(b: Book, j: Job, n: nat, k: nat)
    requires n <= |j.txns| && j.period < |b.periods| && j.codes == ActiveByCode(b.accounts, |b.accounts|)
    requires PostRows(b, j, n).1.None? && k < |PostRows(b, j, n).0.posted|
    ensures var t := PostRows(b, j, n).0;
            var (i, id) := t.posted[k];
            i < n && id < |t.book.entries| && EntryOfRow(b, j, i, t.book.entries[id])
  {
    RowStep(b, j, n);
    PostedAreNew(b, j, n - 1);
    var was, now, d := PostRows(b, j, n - 1).0, PostRows(b, j, n).0, DecisionOf(b, j, n - 1);
    if k < |was.posted| {
      PostedEntry(b, j, n - 1, k);
    } else {
      DecisionFields(b, j, n - 1);
    }
    if d.Ready? {
      DecidedPositive(b, j, n - 1);
      RowEntry(was.book, j.period, d.date, d.debit, d.credit, d.amount);
    }
  }

  // ----- the request -------------------------------------------------------------------------------

  /** Who may promote, what, and into which period; nothing changes on a refusal. */
  lemma StatementGates(d: Desk, firm: bool, id: nat, period: nat, cashCode: string, overrides: map<nat, string>)
    ensures var (after, r) := StatementSpec(d, firm, id, period, cashCode, overrides);
            var pending := id < |d.drafts| && d.drafts[id].status == Pending;
            var ready := pending && d.drafts[id].isStatement && d.drafts[id].txns != [];
            var open := period < |d.book.periods| && !d.book.periods[period].isLocked;
            && (r.Err? ==> after == d)
            && (!firm ==> r == Err(Forbidden))
            && (firm && !ready ==> r == Err(AlreadyPromoted))
            && (firm && ready && (!open || !SomeActive(d.book.accounts, cashCode)) ==> r == Err(Forbidden))
  {
    assert d.book.accounts[..|d.book.accounts|] == d.book.accounts;
    CodesAre(d.book.accounts, |d.book.accounts|, cashCode);
  }

  /** Past its gates a statement is refused by the ledger, or for want of a posted row, or promoted. */
  lemma StatementCompletes(d: Desk, id: nat, period: nat, cashCode: string, overrides: map<nat, string>, cash: nat)
    requires id < |d.drafts| && d.drafts[id].status == Pending && d.drafts[id].isStatement && d.drafts[id].txns != []
    requires period < |d.book.periods| && !d.book.periods[period].isLocked
    requires LastActive(d.book.accounts, cashCode, cash)
    ensures var r := StatementSpec(d, true, id, period, cashCode, overrides).1;
            var j := Job(period, cash, ActiveByCode(d.book.accounts, |d.book.accounts|), overrides, d.drafts[id].txns);
            var (t, e) := PostRows(d.book, j, |j.txns|);
            && (e.Some? ==> r == Err(LedgerRefused(e.value)))
            && (e.None? ==> (r.Ok? <==> exists i: nat :: IsPosted(t, i)) && (r.Err? ==> r == Err(AlreadyPromoted)))
  {
    var codes := ActiveByCode(d.book.accounts, |d.book.accounts|);
    assert d.book.accounts[..|d.book.accounts|] == d.book.accounts;
    CodesAre(d.book.accounts, |d.book.accounts|, cashCode);
    assert codes[cashCode] == cash;
    var j := Job(period, cash, codes, overrides, d.drafts[id].txns);
    var t := PostRows(d.book, j, |j.txns|).0;
    if t.posted != [] { assert IsPosted(t, t.posted[0].0); }
  }

  /** A statement promoted: the draft records the entries of its posted rows, the first of them as its own,
      and the reasons of the rows left out; at least one row was posted. */
  lemma StatementRecords(d: Desk, firm: bool, id: nat, period: nat, cashCode: string, overrides: map<nat, string>)
    requires StatementSpec(d, firm, id, period, cashCode, overrides).1.Ok?
    ensures var (after, r) := StatementSpec(d, firm, id, period, cashCode, overrides);
            && firm && id < |d.drafts| && |after.drafts| == |d.drafts| && period < |d.book.periods|
            && after.drafts[id].status == Promoted && after.drafts[id].txns == d.drafts[id].txns
            && after.drafts[id].skipped == r.value.skipped
            && |after.drafts[id].posted| == |r.value.posted| > 0
            && after.drafts[id].entry == Some(after.drafts[id].posted[0])
            && (forall k :: 0 <= k < |r.value.posted| ==> after.drafts[id].posted[k] == r.value.posted[k].1)
            && exists cash: nat ::
                 && LastActive(d.book.accounts, cashCode, cash)
                 && var j := Job(period, cash, ActiveByCode(d.book.accounts, |d.book.accounts|), overrides,
                                 d.drafts[id].txns);
                    (r.value, None) == PostRows(d.book, j, |j.txns|) && after.book == r.value.book
  {
    var codes := ActiveByCode(d.book.accounts, |d.book.accounts|);
    assert d.book.accounts[..|d.book.accounts|] == d.book.accounts;
    CodesAre(d.book.accounts, |d.book.accounts|, cashCode);
    assert LastActive(d.book.accounts, cashCode, codes[cashCode]);
  }

  /** A single draft: who may promote it, and what the promotion leaves behind. */
  lemma DraftOutcome(d: Desk, firm: bool, id: nat, period: nat, date: int, ls: seq<LineInput>)
    ensures var (after, r) := PromoteSpec(d, firm, id, period, date, ls);
            var pending := firm && id < |d.drafts| && d.drafts[id].status == Pending;
            && (r.Err? ==> after == d)
            && (!firm ==> r == Err(Forbidden)) && (firm && !pending ==> r == Err(AlreadyPromoted))
            && (r.Ok? ==>
                  && pending && after.book == PostSpec(d.book, period, date, ls).0 && r.value == |d.book.entries|
                  && after.drafts == d.drafts[id := d.drafts[id].(status := Promoted, entry := Some(r.value))])
            && (pending ==> (r.Ok? <==> PostSpec(d.book, period, date, ls).1.Ok?))
  {
  }

  /** Only the firm rejects, and only a pending draft; the book stays. */
  lemma RejectOutcome(d: Desk, firm: bool, id: nat)
    ensures var (after, e) := RejectSpec(d, firm, id);
            var pending := firm && id < |d.drafts| && d.drafts[id].status == Pending;
            && (e.None? <==> pending) && (!firm ==> e == Some(Forbidden))
            && (firm && !pending ==> e == Some(AlreadyPromoted))
            && after == if pending then d.(drafts := d.drafts[id := d.drafts[id].(status := Rejected)]) else d
  {
  }
}
