/** Which accounts each section of the classified cash flow shows, told by account type and code. */
module CashFlowSections {
  import opened Accounts
  import opened Ledger
  import opened LedgerRuns
  import opened Statements
  import opened StatementProofs
  import opened Rules
  import opened CashFlow
  import opened CashFlowProofs

  // ----- codes in order ----------------------------------------------------------------

  /** The strings agree before position `k`, and there `x` has the smaller character. */
  predicate LessAt(x: string, y: string, k: int) {
    0 <= k < |x| && k < |y| && x[..k] == y[..k] && x[k] < y[k]
  }

  /** Codes compare like words in a dictionary. */
  lemma {:induction false} CodesCompareAsWords(x: string, y: string)
    ensures AtMost(x, y) <==> x <= y || exists k :: LessAt(x, y, k)
  {
    if x != [] && y != [] {
      if x[0] != y[0] {
        if AtMost(x, y) { assert LessAt(x, y, 0); }
      } else {
        CodesCompareAsWords(x[1..], y[1..]);
        assert x <= y <==> x[1..] <= y[1..];
        if k :| LessAt(x[1..], y[1..], k) {
          assert x[..k+1] == [x[0]] + x[1..][..k] && y[..k+1] == [y[0]] + y[1..][..k];
          assert LessAt(x, y, k + 1);
        }
        if k :| LessAt(x, y, k) {
          assert x[1..][..k-1] == x[..k][1..] && y[1..][..k-1] == y[..k][1..];
          assert LessAt(x[1..], y[1..], k - 1);
        }
      }
    }
  }

  // ----- the three kinds of accounts ------------------------------------------------------

  /** A long-term asset. */
  predicate IsInvesting(a: Account, r: PresentationRules) {
    a.accountType == Asset && !AtMost(a.code, r.currentAssetMax) && AtMost(r.longTermAssetMin, a.code)
  }

  /** Equity, or a long-term liability. */
  predicate IsFinancing(a: Account, r: PresentationRules) {
    a.accountType == Equity
    || (a.accountType == Liability && !AtMost(a.code, r.currentLiabilityMax) && AtMost(r.longTermLiabilityMin, a.code))
  }

  predicate IsOperating(a: Account, r: PresentationRules) { !IsInvesting(a, r) && !IsFinancing(a, r) }

  function InvestingIds(accounts: seq<Account>, r: PresentationRules): set<nat> {
    set i: nat | i < |accounts| && IsInvesting(accounts[i], r)
  }

  function FinancingIds(accounts: seq<Account>, r: PresentationRules): set<nat> {
    set i: nat | i < |accounts| && IsFinancing(accounts[i], r)
  }

  function OperatingIds(accounts: seq<Account>, r: PresentationRules): set<nat> {
    set i: nat | i < |accounts| && IsOperating(accounts[i], r)
  }

  // ----- what a section lists ---------------------------------------------------------------

  /** Every item shows the code and the name of one of the accounts. */
  ghost predicate ShowsOnly(items: seq<Item>, accounts: seq<Account>, accs: set<nat>) {
    forall k :: 0 <= k < |items| ==> ShowsSome(items[k], accounts, accs)
  }

  ghost predicate ShowsSome(item: Item, accounts: seq<Account>, accs: set<nat>) {
    exists i :: i in accs && i < |accounts| && accounts[i].code == item.code && accounts[i].name == item.name
  }

  ghost predicate HasCode(items: seq<Item>, code: string) { exists k :: 0 <= k < |items| && items[k].code == code }

  lemma {:induction false} PutShows(rnd: real -> real, items: seq<Item>, accounts: seq<Account>, accs: set<nat>, i: nat,
                                    share: real)
    requires ShowsOnly(items, accounts, accs) && i in accs && i < |accounts|
    ensures ShowsOnly(Put(rnd, items, accounts[i].code, accounts[i].name, share), accounts, accs)
  {
    var code, name := accounts[i].code, accounts[i].name;
    var p := Put(rnd, items, code, name, share);
    var added := Item(code, name, rnd(0.0 + share));
    assert ShowsSome(added, accounts, accs);
    if items != [] {
      assert ShowsSome(items[0], accounts, accs);
      assert forall k :: 0 <= k < |items| - 1 ==> items[1..][k] == items[k+1];
      if items[0].code == code {
        assert ShowsSome(items[0].(amount := rnd(items[0].amount + share)), accounts, accs);
      } else if !AtMost(code, items[0].code) {
        PutShows(rnd, items[1..], accounts, accs, i, share);
      }
    }
  }

  lemma {:induction false} PutHas(rnd: real -> real, items: seq<Item>, code: string, name: string, share: real, c: string)
    ensures HasCode(Put(rnd, items, code, name, share), c) <==> HasCode(items, c) || c == code
  {
    var p := Put(rnd, items, code, name, share);
    if items == [] {
      assert p[0].code == code;
    } else {
      HasTail(items, c);
      HasTail(p, c);
      if items[0].code == code || AtMost(code, items[0].code) {
        assert p[1..] == items[1..] || p[1..] == items;
      } else {
        PutHas(rnd, items[1..], code, name, share, c);
        assert p[1..] == Put(rnd, items[1..], code, name, share);
      }
    }
  }

  lemma HasTail(items: seq<Item>, c: string)
    requires items != []
    ensures HasCode(items, c) <==> items[0].code == c || HasCode(items[1..], c)
  {
    assert forall k :: 0 <= k < |items| - 1 ==> items[1..][k] == items[k+1];
    if HasCode(items[1..], c) {
      var k :| 0 <= k < |items[1..]| && items[1..][k].code == c;
      assert items[k+1].code == c;
    }
    if HasCode(items, c) {
      var k :| 0 <= k < |items| && items[k].code == c;
      if k > 0 { assert items[1..][k-1].code == c; }
    }
  }

  /** Each section shows accounts of its own kind only. */
  ghost predicate Sorted(bk: Buckets, accounts: seq<Account>, r: PresentationRules) {
    && ShowsOnly(bk.op, accounts, OperatingIds(accounts, r))
    && ShowsOnly(bk.inv, accounts, InvestingIds(accounts, r))
    && ShowsOnly(bk.fin, accounts, FinancingIds(accounts, r))
  }

  /** The account has an item in the section of its kind. */
  ghost predicate Shown(bk: Buckets, a: Account, r: PresentationRules) {
    if IsInvesting(a, r) then HasCode(bk.inv, a.code)
    else if IsFinancing(a, r) then HasCode(bk.fin, a.code)
    else HasCode(bk.op, a.code)
  }

  /** A line's share goes to the section of the kind of its account. */
  lemma LineGoesHome(rnd: real -> real, r: PresentationRules, accounts: seq<Account>, bk: Buckets, l: Line, share: real)
    requires l.account < |accounts|
    ensures var a, q := accounts[l.account], AddLineShare(rnd, r, accounts, bk, l, share);
            q == if IsInvesting(a, r) then bk.(inv := Put(rnd, bk.inv, a.code, a.name, share))
                 else if IsFinancing(a, r) then bk.(fin := Put(rnd, bk.fin, a.code, a.name, share))
                 else bk.(op := Put(rnd, bk.op, a.code, a.name, share))
  {
  }

  lemma LineSorted(rnd: real -> real, r: PresentationRules, accounts: seq<Account>, bk: Buckets, l: Line, share: real)
    requires l.account < |accounts| && Sorted(bk, accounts, r)
    ensures Sorted(AddLineShare(rnd, r, accounts, bk, l, share), accounts, r)
  {
    var a := accounts[l.account];
    LineGoesHome(rnd, r, accounts, bk, l, share);
    if IsInvesting(a, r) {
      PutShows(rnd, bk.inv, accounts, InvestingIds(accounts, r), l.account, share);
    } else if IsFinancing(a, r) {
      PutShows(rnd, bk.fin, accounts, FinancingIds(accounts, r), l.account, share);
    } else {
      PutShows(rnd, bk.op, accounts, OperatingIds(accounts, r), l.account, share);
    }
  }

  lemma LineShown(rnd: real -> real, r: PresentationRules, accounts: seq<Account>, bk: Buckets, l: Line, share: real,
                  a: Account)
    requires l.account < |accounts| && (Shown(bk, a, r) || a == accounts[l.account])
    ensures Shown(AddLineShare(rnd, r, accounts, bk, l, share), a, r)
  {
    var home := accounts[l.account];
    LineGoesHome(rnd, r, accounts, bk, l, share);
    PutHas(rnd, bk.inv, home.code, home.name, share, a.code);
    PutHas(rnd, bk.fin, home.code, home.name, share, a.code);
    PutHas(rnd, bk.op, home.code, home.name, share, a.code);
  }

  lemma {:induction false} SpreadSorted(rnd: real -> real, r: PresentationRules, accounts: seq<Account>, bk: Buckets,
                                        ls: seq<Line>, share: Line -> real)
    requires LinesKnown(accounts, ls) && Sorted(bk, accounts, r)
    ensures Sorted(Spread(rnd, r, accounts, bk, ls, share), accounts, r)
  {
    if ls != [] {
      var k := |ls| - 1;
      SpreadSorted(rnd, r, accounts, bk, ls[..k], share);
      LineSorted(rnd, r, accounts, Spread(rnd, r, accounts, bk, ls[..k], share), ls[k], share(ls[k]));
    }
  }

  lemma {:induction false} SpreadShows(rnd: real -> real, r: PresentationRules, accounts: seq<Account>, bk: Buckets,
                                       ls: seq<Line>, share: Line -> real, a: Account)
    requires LinesKnown(accounts, ls)
    requires Shown(bk, a, r) || exists k :: 0 <= k < |ls| && accounts[ls[k].account] == a
    ensures Shown(Spread(rnd, r, accounts, bk, ls, share), a, r)
  {
    if ls != [] {
      var n := |ls| - 1;
      if a != accounts[ls[n].account] {
        if !Shown(bk, a, r) {
          var k :| 0 <= k < |ls| && accounts[ls[k].account] == a;
          assert ls[..n][k] == ls[k];
        }
        SpreadShows(rnd, r, accounts, bk, ls[..n], share, a);
      }
      LineShown(rnd, r, accounts, Spread(rnd, r, accounts, bk, ls[..n], share), ls[n], share(ls[n]), a);
    }
  }

  lemma {:induction false} ClassifiedSorted(rnd: real -> real, r: PresentationRules, accounts: seq<Account>,
                                            es: seq<Entry>, w: Window, ids: set<nat>)
    requires EntriesKnown(accounts, es)
    ensures Sorted(Classified(rnd, r, accounts, es, w, ids), accounts, r)
  {
    if es != [] {
      var e := es[|es|-1];
      ClassifiedSorted(rnd, r, accounts, es[..|es|-1], w, ids);
      if Spreads(e, w, ids) {
        NonCashIn(accounts, e.lines, ids);
        SpreadSorted(rnd, r, accounts, Classified(rnd, r, accounts, es[..|es|-1], w, ids), NonCash(e.lines, ids),
                     Sharer(rnd, Gross(NonCash(e.lines, ids)), LineNet(e.lines, ids) as real));
      }
    }
  }

  lemma {:induction false} NonCashHas(ls: seq<Line>, ids: set<nat>, i: nat)
    requires i < |ls| && ls[i].account !in ids
    ensures ls[i] in NonCash(ls, ids)
  {
    var n := |ls| - 1;
    if i < n { NonCashHas(ls[..n], ids, i); }
  }

  lemma EntryShows(rnd: real -> real, r: PresentationRules, accounts: seq<Account>, bk: Buckets, e: Entry, w: Window,
                   ids: set<nat>, a: Account)
    requires LinesKnown(accounts, e.lines)
    requires Shown(bk, a, r) || (Spreads(e, w, ids) && exists i :: 0 <= i < |e.lines| && e.lines[i].account !in ids
                                                               && accounts[e.lines[i].account] == a)
    ensures Shown(SpreadEntry(rnd, r, accounts, bk, e, w, ids), a, r)
  {
    if Spreads(e, w, ids) {
      var others := NonCash(e.lines, ids);
      NonCashIn(accounts, e.lines, ids);
      if !Shown(bk, a, r) {
        var i :| 0 <= i < |e.lines| && e.lines[i].account !in ids && accounts[e.lines[i].account] == a;
        NonCashHas(e.lines, ids, i);
        var k :| 0 <= k < |others| && others[k] == e.lines[i];
        assert accounts[others[k].account] == a;
      }
      SpreadShows(rnd, r, accounts, bk, others, Sharer(rnd, Gross(others), LineNet(e.lines, ids) as real), a);
    }
  }

  lemma {:induction false} ClassifiedShows(rnd: real -> real, r: PresentationRules, accounts: seq<Account>,
                                           es: seq<Entry>, w: Window, ids: set<nat>, k: nat, i: nat)
    requires EntriesKnown(accounts, es) && k < |es| && Spreads(es[k], w, ids)
    requires i < |es[k].lines| && es[k].lines[i].account !in ids
    ensures es[k].lines[i].account < |accounts|
    ensures Shown(Classified(rnd, r, accounts, es, w, ids), accounts[es[k].lines[i].account], r)
  {
    var n := |es| - 1;
    assert LinesKnown(accounts, es[k].lines);
    if k < n { ClassifiedShows(rnd, r, accounts, es[..n], w, ids, k, i); }
    EntryShows(rnd, r, accounts, Classified(rnd, r, accounts, es[..n], w, ids), es[n], w, ids,
               accounts[es[k].lines[i].account]);
  }

  // ----- exact section totals ------------------------------------------------------------------

  /** What an account's lines of one entry get of its cash: their part of the absolute movements. */
  function PartOf(ls: seq<Line>, accs: set<nat>, gross: real, cash: real): real
    requires gross > 0.0
  {
    if ls == [] then 0.0
    else
      PartOf(ls[..|ls|-1], accs, gross, cash)
      + if ls[|ls|-1].account in accs then Product(Ratio(Abs(LineMove(ls[|ls|-1])), gross), cash) else 0.0
  }

  /** The same over all entries that spread. */
  function Shares(es: seq<Entry>, w: Window, ids: set<nat>, accs: set<nat>): real {
    if es == [] then 0.0
    else
      var e := es[|es|-1];
      var others := NonCash(e.lines, ids);
      Shares(es[..|es|-1], w, ids, accs)
      + if Spreads(e, w, ids) && Gross(others) > 0.0 then PartOf(others, accs, Gross(others), LineNet(e.lines, ids) as real)
        else 0.0
  }

  lemma {:induction false} PutSum(items: seq<Item>, code: string, name: string, share: real)
    ensures ItemSum(Put(Identity(), items, code, name, share)) == ItemSum(items) + share
  {
    var p := Put(Identity(), items, code, name, share);
    HeadSum(p);
    if items == [] {
      assert p[1..] == [];
    } else {
      HeadSum(items);
      if items[0].code == code {
        assert p[1..] == items[1..];
      } else if AtMost(code, items[0].code) {
        assert p[1..] == items;
      } else {
        PutSum(items[1..], code, name, share);
        assert p[1..] == Put(Identity(), items[1..], code, name, share);
      }
    }
  }

  datatype Totals = Totals(op: real, inv: real, fin: real)

  function TotalsOf(bk: Buckets): Totals { Totals(ItemSum(bk.op), ItemSum(bk.inv), ItemSum(bk.fin)) }

  lemma LineTotals(r: PresentationRules, accounts: seq<Account>, bk: Buckets, l: Line, share: real)
    requires l.account < |accounts|
    ensures var t, q := TotalsOf(bk), TotalsOf(AddLineShare(Identity(), r, accounts, bk, l, share));
            && q.op == t.op + (if l.account in OperatingIds(accounts, r) then share else 0.0)
            && q.inv == t.inv + (if l.account in InvestingIds(accounts, r) then share else 0.0)
            && q.fin == t.fin + (if l.account in FinancingIds(accounts, r) then share else 0.0)
  {
    var a := accounts[l.account];
    LineGoesHome(Identity(), r, accounts, bk, l, share);
    PutSum(bk.op, a.code, a.name, share);
    PutSum(bk.inv, a.code, a.name, share);
    PutSum(bk.fin, a.code, a.name, share);
  }

  lemma {:induction false} SpreadTotals(r: PresentationRules, accounts: seq<Account>, bk: Buckets, ls: seq<Line>,
                                        gross: real, cash: real)
    requires LinesKnown(accounts, ls) && gross > 0.0
    ensures var t, q := TotalsOf(bk), TotalsOf(Spread(Identity(), r, accounts, bk, ls, Sharer(Identity(), gross, cash)));
            && q.op == t.op + PartOf(ls, OperatingIds(accounts, r), gross, cash)
            && q.inv == t.inv + PartOf(ls, InvestingIds(accounts, r), gross, cash)
            && q.fin == t.fin + PartOf(ls, FinancingIds(accounts, r), gross, cash)
  {
    if ls != [] {
      var k, share := |ls| - 1, Sharer(Identity(), gross, cash);
      SpreadTotals(r, accounts, bk, ls[..k], gross, cash);
      ShareUnfolded(Identity(), ls[k], gross, cash);
      LineTotals(r, accounts, Spread(Identity(), r, accounts, bk, ls[..k], share), ls[k], share(ls[k]));
    }
  }

  lemma EntryTotals(r: PresentationRules, b: Book, bk: Buckets, e: Entry, w: Window, ids: set<nat>)
    requires EntryOk(b, e) && LinesKnown(b.accounts, e.lines) && Spreads(e, w, ids)
    ensures Gross(NonCash(e.lines, ids)) > 0.0
    ensures var others, cash := NonCash(e.lines, ids), LineNet(e.lines, ids) as real;
            var t, q := TotalsOf(bk), TotalsOf(SpreadEntry(Identity(), r, b.accounts, bk, e, w, ids));
            && q.op == t.op + PartOf(others, OperatingIds(b.accounts, r), Gross(others), cash)
            && q.inv == t.inv + PartOf(others, InvestingIds(b.accounts, r), Gross(others), cash)
            && q.fin == t.fin + PartOf(others, FinancingIds(b.accounts, r), Gross(others), cash)
  {
    GrossIsPositive(b, e, ids);
    NonCashIn(b.accounts, e.lines, ids);
    SpreadUnfolded(Identity(), r, b.accounts, bk, e, w, ids);
    SpreadTotals(r, b.accounts, bk, NonCash(e.lines, ids), Gross(NonCash(e.lines, ids)), LineNet(e.lines, ids) as real);
  }

  lemma {:induction false} ClassifiedTotals(r: PresentationRules, b: Book, n: nat, w: Window, ids: set<nat>)
    requires BookOk(b) && n <= |b.entries| && EntriesKnown(b.accounts, b.entries[..n])
    ensures var es := b.entries[..n];
            TotalsOf(Classified(Identity(), r, b.accounts, es, w, ids))
            == Totals(Shares(es, w, ids, OperatingIds(b.accounts, r)), Shares(es, w, ids, InvestingIds(b.accounts, r)),
                      Shares(es, w, ids, FinancingIds(b.accounts, r)))
  {
    if n > 0 {
      var es, e := b.entries[..n-1], b.entries[n-1];
      assert b.entries[..n][..n-1] == es && b.entries[..n] == es + [e];
      BookLines(b, n - 1);
      ClassifiedTotals(r, b, n - 1, w, ids);
      assert EntryOk(b, e) && LinesKnown(b.accounts, b.entries[..n][n-1].lines);
      if Spreads(e, w, ids) {
        EntryTotals(r, b, Classified(Identity(), r, b.accounts, es, w, ids), e, w, ids);
      }
    }
  }

  // ----- the presented cash flow ----------------------------------------------------------------

  /** Whatever the rounding, investing shows long-term assets only, financing equity and long-term
      liabilities only, operating everything else, and no line beside cash is missing from its section. */
  lemma SectionsByKind(rnd: real -> real, r: PresentationRules, b: Book, start: int, end: int, codes: set<string>)
    requires EntriesKnown(b.accounts, b.entries) && Presented(rnd, r, b, start, end, codes).Ok?
    ensures var p, w, ids := Presented(rnd, r, b, start, end, codes).value, Window(Some(start), end), CashIds(b, codes);
            var bk := Buckets(p.operating, p.investing, p.financing);
            && Sorted(bk, b.accounts, r)
            && forall k, i :: 0 <= k < |b.entries| && Spreads(b.entries[k], w, ids)
                              && 0 <= i < |b.entries[k].lines| && b.entries[k].lines[i].account !in ids ==>
                 && b.entries[k].lines[i].account < |b.accounts|
                 && Shown(bk, b.accounts[b.entries[k].lines[i].account], r)
  {
    var p, w, ids := Presented(rnd, r, b, start, end, codes).value, Window(Some(start), end), CashIds(b, codes);
    ClassifiedSorted(rnd, r, b.accounts, b.entries, w, ids);
    forall k, i | 0 <= k < |b.entries| && Spreads(b.entries[k], w, ids)
                  && 0 <= i < |b.entries[k].lines| && b.entries[k].lines[i].account !in ids
      ensures b.entries[k].lines[i].account < |b.accounts|
      ensures Shown(Buckets(p.operating, p.investing, p.financing), b.accounts[b.entries[k].lines[i].account], r)
    {
      ClassifiedShows(rnd, r, b.accounts, b.entries, w, ids, k, i);
    }
  }

  lemma {:induction false} UntouchedShares(es: seq<Entry>, w: Window, ids: set<nat>, accs: set<nat>)
    requires forall k :: 0 <= k < |es| && Counts(es[k], w) ==> !Touches(es[k].lines, ids)
    ensures Shares(es, w, ids, accs) == 0.0
  {
    if es != [] { UntouchedShares(es[..|es|-1], w, ids, accs); }
  }

  lemma {:induction false} ExactSubtotal(items: seq<Item>)
    ensures Subtotal(Identity(), items) == ItemSum(items)
  {
    if items != [] { ExactSubtotal(items[..|items|-1]); }
  }

  /** In exact arithmetic each section total is the sum of the shares of the accounts of its kind. */
  lemma SectionTotalsByKind(r: PresentationRules, b: Book, start: int, end: int, codes: set<string>)
    requires BookOk(b) && EntriesKnown(b.accounts, b.entries)
    requires Presented(Identity(), r, b, start, end, codes).Ok?
    ensures var p := Presented(Identity(), r, b, start, end, codes).value;
            var w, ids := Window(Some(start), end), CashIds(b, codes);
            && p.opTotal == Shares(b.entries, w, ids, OperatingIds(b.accounts, r))
            && p.invTotal == Shares(b.entries, w, ids, InvestingIds(b.accounts, r))
            && p.finTotal == Shares(b.entries, w, ids, FinancingIds(b.accounts, r))
  {
    var p, w, ids := Presented(Identity(), r, b, start, end, codes).value, Window(Some(start), end), CashIds(b, codes);
    assert b.entries[..|b.entries|] == b.entries;
    if forall k :: 0 <= k < |b.entries| && Counts(b.entries[k], w) ==> !Touches(b.entries[k].lines, ids) {
      UntouchedShares(b.entries, w, ids, OperatingIds(b.accounts, r));
      UntouchedShares(b.entries, w, ids, InvestingIds(b.accounts, r));
      UntouchedShares(b.entries, w, ids, FinancingIds(b.accounts, r));
    } else {
      ClassifiedTotals(r, b, |b.entries|, w, ids);
      var bk := Classified(Identity(), r, b.accounts, b.entries, w, ids);
      ExactSubtotal(bk.op);
      ExactSubtotal(bk.inv);
      ExactSubtotal(bk.fin);
    }
  }
}
