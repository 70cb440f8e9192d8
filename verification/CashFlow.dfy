/** Operating / investing / financing cash flow: every entry that touches cash spreads
    its cash movement over its other lines in proportion to their size. */
module CashFlow {
  import opened Accounts
  import opened Ledger
  import opened Statements
  import opened Rules

  /** A bucket dictionary read in key order. */
  datatype Item = Item(code: string, name: string, amount: real)

  datatype Buckets = Buckets(op: seq<Item>, inv: seq<Item>, fin: seq<Item>)

  datatype PresentedCashFlow = PresentedCashFlow(
    opening: int, closing: int,
    operating: seq<Item>, investing: seq<Item>, financing: seq<Item>,
    opTotal: real, invTotal: real, finTotal: real, netChange: real, ties: bool)

  function Abs(x: real): real { if x < 0.0 then -x else x }

  function LineMove(l: Line): real { (l.debit - l.credit) as real }

  function NonCash(ls: seq<Line>, ids: set<nat>): seq<Line> {
    if ls == [] then []
    else if ls[|ls|-1].account in ids then NonCash(ls[..|ls|-1], ids)
    else NonCash(ls[..|ls|-1], ids) + [ls[|ls|-1]]
  }

  /** Total absolute movement of a list of lines. */
  function Gross(ls: seq<Line>): real {
    if ls == [] then 0.0 else Gross(ls[..|ls|-1]) + Abs(LineMove(ls[|ls|-1]))
  }

  function Ratio(x: real, y: real): real
    requires y != 0.0
  {
    x / y
  }

  function Product(x: real, y: real): real { x * y }

  /** One line's share of the entry's cash movement, each operation rounded by `rnd`. */
  function Share(rnd: real -> real, l: Line, gross: real, cash: real): real {
    if gross == 0.0 then cash else rnd(Product(rnd(Ratio(Abs(LineMove(l)), gross)), cash))
  }

  /** `bucket[code] = (prev_name, prev_amt + share)`. */
  function Put(rnd: real -> real, items: seq<Item>, code: string, name: string, share: real): seq<Item> {
    if items == [] then [Item(code, name, rnd(0.0 + share))]
    else if items[0].code == code then [items[0].(amount := rnd(items[0].amount + share))] + items[1..]
    else if AtMost(code, items[0].code) then [Item(code, name, rnd(0.0 + share))] + items
    else [items[0]] + Put(rnd, items[1..], code, name, share)
  }

  function AddShare(rnd: real -> real, bk: Buckets, section: Activity, code: string, name: string, share: real): Buckets {
    match section
    case Operating => bk.(op := Put(rnd, bk.op, code, name, share))
    case Investing => bk.(inv := Put(rnd, bk.inv, code, name, share))
    case Financing => bk.(fin := Put(rnd, bk.fin, code, name, share))
  }

  function AddLineShare(rnd: real -> real, r: PresentationRules, accounts: seq<Account>, bk: Buckets,
                        l: Line, share: real): Buckets
    requires l.account < |accounts|
  {
    var a := accounts[l.account];
    AddShare(rnd, bk, ClassifyContra(a.accountType, a.code, r), a.code, a.name, share)
  }

  /** The share as a function of the line. */
  function Sharer(rnd: real -> real, gross: real, cash: real): Line -> real {
    l => Share(rnd, l, gross, cash)
  }

  ghost predicate LinesKnown(accounts: seq<Account>, ls: seq<Line>) {
    forall i :: 0 <= i < |ls| ==> ls[i].account < |accounts|
  }

  function Spread(rnd: real -> real, r: PresentationRules, accounts: seq<Account>, bk: Buckets,
                  ls: seq<Line>, share: Line -> real): Buckets
    requires LinesKnown(accounts, ls)
  {
    if ls == [] then bk
    else AddLineShare(rnd, r, accounts, Spread(rnd, r, accounts, bk, ls[..|ls|-1], share),
                      ls[|ls|-1], share(ls[|ls|-1]))
  }

  predicate Touches(ls: seq<Line>, ids: set<nat>) {
    exists i :: 0 <= i < |ls| && ls[i].account in ids
  }

  predicate Spreads(e: Entry, w: Window, ids: set<nat>) {
    Counts(e, w) && Touches(e.lines, ids) && LineNet(e.lines, ids) != 0 && NonCash(e.lines, ids) != []
  }

  lemma {:induction false} NonCashIn(accounts: seq<Account>, ls: seq<Line>, ids: set<nat>)
    requires LinesKnown(accounts, ls)
    ensures LinesKnown(accounts, NonCash(ls, ids))
  {
    if ls != [] { NonCashIn(accounts, ls[..|ls|-1], ids); }
  }

  ghost predicate EntriesKnown(accounts: seq<Account>, es: seq<Entry>) {
    forall k :: 0 <= k < |es| ==> LinesKnown(accounts, es[k].lines)
  }

  function SpreadEntry(rnd: real -> real, r: PresentationRules, accounts: seq<Account>, bk: Buckets,
                       e: Entry, w: Window, ids: set<nat>): Buckets
    requires LinesKnown(accounts, e.lines)
  {
    if !Spreads(e, w, ids) then bk
    else
      var others := NonCash(e.lines, ids);
      NonCashIn(accounts, e.lines, ids);
      Spread(rnd, r, accounts, bk, others, Sharer(rnd, Gross(others), LineNet(e.lines, ids) as real))
  }

  function Classified(rnd: real -> real, r: PresentationRules, accounts: seq<Account>,
                      es: seq<Entry>, w: Window, ids: set<nat>): Buckets
    requires EntriesKnown(accounts, es)
  {
    if es == [] then Buckets([], [], [])
    else SpreadEntry(rnd, r, accounts, Classified(rnd, r, accounts, es[..|es|-1], w, ids), es[|es|-1], w, ids)
  }

  function Subtotal(rnd: real -> real, items: seq<Item>): real {
    if items == [] then 0.0 else rnd(Subtotal(rnd, items[..|items|-1]) + items[|items|-1].amount)
  }

  function NetChange(rnd: real -> real, bk: Buckets): real {
    rnd(rnd(Subtotal(rnd, bk.op) + Subtotal(rnd, bk.inv)) + Subtotal(rnd, bk.fin))
  }

  /** The tolerance is 0.0001, one stored unit. */
  predicate Ties(rnd: real -> real, net: real, opening: int, closing: int) {
    Abs(rnd(net - (closing - opening) as real)) <= 1.0
  }

  /** The presentation as a function; `AssertionFailed` is the source's raise. */
  function Presented(rnd: real -> real, r: PresentationRules, b: Book, start: int, end: int, codes: set<string>)
    : Result<PresentedCashFlow, StatementError>
    requires EntriesKnown(b.accounts, b.entries)
  {
    match CashFlowFor(b, start, end, codes)
    case Err(e) => Err(e)
    case Ok(raw) =>
      var w, ids := Window(Some(start), end), CashIds(b, codes);
      if forall k :: 0 <= k < |b.entries| && Counts(b.entries[k], w) ==> !Touches(b.entries[k].lines, ids) then
        Ok(PresentedCashFlow(raw.opening, raw.closing, [], [], [], 0.0, 0.0, 0.0, 0.0, raw.opening == raw.closing))
      else
        var bk := Classified(rnd, r, b.accounts, b.entries, w, ids);
        var net := NetChange(rnd, bk);
        if !Ties(rnd, net, raw.opening, raw.closing) then Err(AssertionFailed)
        else Ok(PresentedCashFlow(raw.opening, raw.closing, bk.op, bk.inv, bk.fin,
                                  Subtotal(rnd, bk.op), Subtotal(rnd, bk.inv), Subtotal(rnd, bk.fin), net, true))
  }

  method ClassifyEntries(rnd: real -> real, r: PresentationRules, b: Book, w: Window, ids: set<nat>)
    returns (touched: bool, bk: Buckets)
    requires EntriesKnown(b.accounts, b.entries)
    ensures bk == Classified(rnd, r, b.accounts, b.entries, w, ids)
    ensures touched <==> exists k :: 0 <= k < |b.entries| && Counts(b.entries[k], w) && Touches(b.entries[k].lines, ids)
  {
    touched, bk := false, Buckets([], [], []);
    for k := 0 to |b.entries|
      invariant touched <==> exists j :: 0 <= j < k && Counts(b.entries[j], w) && Touches(b.entries[j].lines, ids)
      invariant bk == Classified(rnd, r, b.accounts, b.entries[..k], w, ids)
    {
      var e := b.entries[k];
      assert b.entries[..k+1][..k] == b.entries[..k];
      if Counts(e, w) && Touches(e.lines, ids) {
        touched := true;
        bk := ClassifyEntry(rnd, r, b.accounts, bk, e, w, ids);
      }
    }
    assert b.entries[..|b.entries|] == b.entries;
  }

  method ClassifyEntry(rnd: real -> real, r: PresentationRules, accounts: seq<Account>, bk0: Buckets,
                       e: Entry, w: Window, ids: set<nat>)
    returns (bk: Buckets)
    requires LinesKnown(accounts, e.lines) && Counts(e, w) && Touches(e.lines, ids)
    ensures bk == SpreadEntry(rnd, r, accounts, bk0, e, w, ids)
  {
    var cash, gross, others := 0, 0.0, [];
    for i := 0 to |e.lines|
      invariant cash == LineNet(e.lines[..i], ids)
      invariant others == NonCash(e.lines[..i], ids)
      invariant gross == Gross(others)
    {
      var l := e.lines[i];
      assert e.lines[..i+1][..i] == e.lines[..i];
      if l.account in ids {
        cash := cash + (l.debit - l.credit);
      } else {
        assert (others + [l])[..|others|] == others;
        gross, others := gross + Abs(LineMove(l)), others + [l];
      }
    }
    assert e.lines[..|e.lines|] == e.lines;
    bk := bk0;
    if cash == 0 || others == [] {
      return;
    }
    NonCashIn(accounts, e.lines, ids);
    for i := 0 to |others|
      invariant bk == Spread(rnd, r, accounts, bk0, others[..i], Sharer(rnd, gross, cash as real))
    {
      assert others[..i+1][..i] == others[..i];
      bk := AddLineShare(rnd, r, accounts, bk, others[i], Share(rnd, others[i], gross, cash as real));
    }
    assert others[..|others|] == others;
  }

  method PresentCashFlow(rnd: real -> real, r: PresentationRules, b: Book, start: int, end: int, codes: set<string>)
    returns (res: Result<PresentedCashFlow, StatementError>)
    requires EntriesKnown(b.accounts, b.entries)
    ensures res == Presented(rnd, r, b, start, end, codes)
  {
    var raw := CashFlowFor(b, start, end, codes);
    if raw.Err? {
      return Err(raw.error);
    }
    var cf, w, ids := raw.value, Window(Some(start), end), CashIds(b, codes);
    var touched, bk := ClassifyEntries(rnd, r, b, w, ids);
    if !touched {
      return Ok(PresentedCashFlow(cf.opening, cf.closing, [], [], [], 0.0, 0.0, 0.0, 0.0, cf.opening == cf.closing));
    }
    var net := NetChange(rnd, bk);
    if !Ties(rnd, net, cf.opening, cf.closing) {
      return Err(AssertionFailed);
    }
    return Ok(PresentedCashFlow(cf.opening, cf.closing, bk.op, bk.inv, bk.fin,
                                Subtotal(rnd, bk.op), Subtotal(rnd, bk.inv), Subtotal(rnd, bk.fin), net, true));
  }
}
