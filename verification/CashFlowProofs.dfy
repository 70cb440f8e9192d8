/** The classified cash flow ties to the ledger: exactly without rounding, and within a
    stated bound when every decimal operation rounds. */
module CashFlowProofs {
  import opened Accounts
  import opened Ledger
  import opened LedgerRuns
  import opened Statements
  import opened StatementProofs
  import opened Rules
  import opened CashFlow

  // ----- rounding ------------------------------------------------------------

  /** Results of at most `limit` in size are off by at most `e`. */
  ghost predicate RoundsWithin(rnd: real -> real, limit: real, e: real) {
    forall x {:trigger Exact(x)} :: Exact(x) && -limit <= x <= limit ==> -e <= rnd(x) - x <= e
  }

  /** Names the exact result of an operation that gets rounded. */
  ghost predicate Exact(x: real) { true }

  lemma RoundAt(rnd: real -> real, limit: real, e: real, x: real)
    requires RoundsWithin(rnd, limit, e) && Abs(x) <= limit
    ensures Abs(rnd(x) - x) <= e
  {
    assert Exact(x);
  }

  /** Ratios are off by at most `e / total`, amounts up to eight times `total` by at most `e`. */
  ghost predicate Precise(rnd: real -> real, total: real, e1: real, e: real) {
    && 0.0 <= total && 0.0 <= e1 <= 1.0 && 0.0 <= e <= total && e1 * total <= e
    && RoundsWithin(rnd, 1.0, e1) && RoundsWithin(rnd, 8.0 * total, e)
  }

  /** `k` steps of size `d`. */
  function Steps(k: nat, d: real): real {
    if k == 0 then 0.0 else Steps(k - 1, d) + d
  }

  lemma {:induction false} StepsProduct(k: nat, d: real)
    ensures Steps(k, d) == k as real * d
  {
    if k > 0 {
      StepsProduct(k - 1, d);
      var j := (k - 1) as real;
      assert k as real == j + 1.0;
      assert (j + 1.0) * d == j * d + d;
    }
  }

  lemma {:induction false} StepsMonotone(j: nat, k: nat, d: real)
    requires j <= k && d >= 0.0
    ensures 0.0 <= Steps(j, d) <= Steps(k, d)
  {
    if k > j { StepsMonotone(j, k - 1, d); }
    else if j > 0 { StepsMonotone(j - 1, j - 1, d); }
  }

  // ----- sums of buckets -------------------------------------------------------

  function ItemSum(items: seq<Item>): real {
    if items == [] then 0.0 else ItemSum(items[..|items|-1]) + items[|items|-1].amount
  }

  function ItemAbs(items: seq<Item>): real {
    if items == [] then 0.0 else ItemAbs(items[..|items|-1]) + Abs(items[|items|-1].amount)
  }

  lemma {:induction false} HeadSum(items: seq<Item>)
    requires items != []
    ensures ItemSum(items) == items[0].amount + ItemSum(items[1..])
    ensures ItemAbs(items) == Abs(items[0].amount) + ItemAbs(items[1..])
  {
    var n := |items| - 1;
    if n > 0 {
      HeadSum(items[..n]);
      assert items[1..][..n-1] == items[..n][1..];
    }
  }

  lemma {:induction false} AbsSigns(items: seq<Item>)
    ensures ItemAbs(items) >= 0.0 && Abs(ItemSum(items)) <= ItemAbs(items)
  {
    if items != [] { AbsSigns(items[..|items|-1]); }
  }

  /** Adding a share moves the bucket's sum by the share, up to one rounding. */
  lemma {:induction false} PutEffect(rnd: real -> real, limit: real, e: real, items: seq<Item>,
                                     code: string, name: string, share: real)
    requires RoundsWithin(rnd, limit, e) && ItemAbs(items) + Abs(share) <= limit
    ensures var p := Put(rnd, items, code, name, share);
            && Abs(ItemSum(p) - (ItemSum(items) + share)) <= e
            && ItemAbs(p) <= ItemAbs(items) + Abs(share) + e
            && |p| <= |items| + 1
  {
    var p := Put(rnd, items, code, name, share);
    AbsSigns(items);
    HeadSum(p);
    if items == [] {
      RoundAt(rnd, limit, e, 0.0 + share);
      assert p[1..] == [];
    } else {
      HeadSum(items);
      AbsSigns(items[1..]);
      if items[0].code == code {
        RoundAt(rnd, limit, e, items[0].amount + share);
        assert p[1..] == items[1..];
      } else if AtMost(code, items[0].code) {
        RoundAt(rnd, limit, e, 0.0 + share);
        assert p[1..] == items;
      } else {
        assert p[1..] == Put(rnd, items[1..], code, name, share);
        PutEffect(rnd, limit, e, items[1..], code, name, share);
      }
    }
  }

  function Sum3(bk: Buckets): real { ItemSum(bk.op) + ItemSum(bk.inv) + ItemSum(bk.fin) }

  function Abs3(bk: Buckets): real { ItemAbs(bk.op) + ItemAbs(bk.inv) + ItemAbs(bk.fin) }

  function Count3(bk: Buckets): nat { |bk.op| + |bk.inv| + |bk.fin| }

  lemma AddShareEffect(rnd: real -> real, limit: real, e: real, bk: Buckets, section: Activity,
                       code: string, name: string, share: real)
    requires RoundsWithin(rnd, limit, e) && Abs3(bk) + Abs(share) <= limit
    ensures var q := AddShare(rnd, bk, section, code, name, share);
            && Abs(Sum3(q) - (Sum3(bk) + share)) <= e
            && Abs3(q) <= Abs3(bk) + Abs(share) + e
            && Count3(q) <= Count3(bk) + 1
  {
    AbsSigns(bk.op);
    AbsSigns(bk.inv);
    AbsSigns(bk.fin);
    match section
    case Operating => PutEffect(rnd, limit, e, bk.op, code, name, share);
    case Investing => PutEffect(rnd, limit, e, bk.inv, code, name, share);
    case Financing => PutEffect(rnd, limit, e, bk.fin, code, name, share);
  }

  // ----- one line's share ---------------------------------------------------------

  lemma ProductBound(q: real, c: real, qMax: real, cMax: real)
    requires Abs(q) <= qMax && Abs(c) <= cMax
    ensures Abs(q * c) <= qMax * cMax
  {
    assert Abs(q * c) == Abs(q) * Abs(c) by {
      if q >= 0.0 && c >= 0.0 { assert q * c >= 0.0; }
      else if q >= 0.0 { assert q * c == -(q * -c) && q * -c >= 0.0; }
      else if c >= 0.0 { assert q * c == -(-q * c) && -q * c >= 0.0; }
      else { assert q * c == -q * -c && -q * -c >= 0.0; }
    }
    assert Abs(q) * Abs(c) <= qMax * Abs(c);
    assert qMax * Abs(c) <= qMax * cMax;
  }

  lemma RatioBound(q: real, cash: real, total: real)
    requires 0.0 <= q <= 1.0 && Abs(cash) <= total
    ensures Abs(Product(q, cash)) <= total
  {
    ProductBound(q, cash, 1.0, total);
  }

  lemma RatioGap(q: real, q': real, cash: real, total: real, e1: real)
    requires Abs(q' - q) <= e1 && Abs(cash) <= total
    ensures Abs(Product(q', cash) - Product(q, cash)) <= e1 * total
  {
    ProductBound(q' - q, cash, e1, total);
    assert (q' - q) * cash == q' * cash - q * cash;
  }

  lemma AbsTriangle(x: real, y: real, e: real, m: real)
    requires Abs(x - y) <= e && Abs(y) <= m
    ensures Abs(x) <= m + e
  {
  }

  lemma RatioError(q: real, q': real, cash: real, total: real, e1: real, e: real)
    requires 0.0 <= q <= 1.0 && Abs(q' - q) <= e1 && Abs(cash) <= total && e1 * total <= e <= total
    ensures Abs(Product(q', cash) - Product(q, cash)) <= e && Abs(Product(q', cash)) <= 2.0 * total
  {
    RatioBound(q, cash, total);
    RatioGap(q, q', cash, total, e1);
    AbsTriangle(Product(q', cash), Product(q, cash), e, total);
  }

  /** The line's weight in its entry. */
  function Weight(l: Line, gross: real): real
    requires gross > 0.0
  {
    Ratio(Abs(LineMove(l)), gross)
  }

  lemma WeightBounds(l: Line, gross: real)
    requires gross > 0.0
    ensures 0.0 <= Weight(l, gross)
    ensures Abs(LineMove(l)) <= gross ==> Weight(l, gross) <= 1.0
  {
  }

  lemma ShareUnfolded(rnd: real -> real, l: Line, gross: real, cash: real)
    requires gross > 0.0
    ensures Sharer(rnd, gross, cash)(l) == rnd(Product(rnd(Weight(l, gross)), cash))
  {
  }

  lemma ShareError(rnd: real -> real, l: Line, gross: real, cash: real, total: real, e1: real, e: real)
    requires Precise(rnd, total, e1, e) && gross > 0.0 && Abs(LineMove(l)) <= gross && Abs(cash) <= total
    ensures Abs(Sharer(rnd, gross, cash)(l) - Product(Weight(l, gross), cash)) <= 2.0 * e
  {
    var q := Weight(l, gross);
    WeightBounds(l, gross);
    RoundAt(rnd, 1.0, e1, q);
    var q' := rnd(q);
    RatioError(q, q', cash, total, e1, e);
    RoundAt(rnd, 8.0 * total, e, Product(q', cash));
    ShareUnfolded(rnd, l, gross, cash);
  }

  lemma {:induction false} GrossBounds(ls: seq<Line>, i: nat)
    requires i < |ls|
    ensures Abs(LineMove(ls[i])) <= Gross(ls)
  {
    var n := |ls| - 1;
    if i < n {
      GrossBounds(ls[..n], i);
    } else {
      GrossSign(ls[..n]);
    }
  }

  lemma {:induction false} GrossSign(ls: seq<Line>)
    ensures Gross(ls) >= 0.0
  {
    if ls != [] { GrossSign(ls[..|ls|-1]); }
  }

  // ----- the exact shares of an entry -----------------------------------------------

  function RealSum(xs: seq<real>): real {
    if xs == [] then 0.0 else RealSum(xs[..|xs|-1]) + xs[|xs|-1]
  }

  function RealAbs(xs: seq<real>): real {
    if xs == [] then 0.0 else RealAbs(xs[..|xs|-1]) + Abs(xs[|xs|-1])
  }

  function Weights(ls: seq<Line>, gross: real): (r: seq<real>)
    requires gross > 0.0
    ensures |r| == |ls|
  {
    if ls == [] then [] else Weights(ls[..|ls|-1], gross) + [Weight(ls[|ls|-1], gross)]
  }

  function Scaled(xs: seq<real>, c: real): (r: seq<real>)
    ensures |r| == |xs|
  {
    if xs == [] then [] else Scaled(xs[..|xs|-1], c) + [Product(xs[|xs|-1], c)]
  }

  lemma {:induction false} ShareAt(ls: seq<Line>, gross: real, cash: real, i: nat)
    requires gross > 0.0 && i < |ls|
    ensures Weights(ls, gross)[i] == Weight(ls[i], gross)
    ensures Scaled(Weights(ls, gross), cash)[i] == Product(Weight(ls[i], gross), cash)
  {
    var n := |ls| - 1;
    assert Weights(ls, gross)[..n] == Weights(ls[..n], gross);
    if i < n {
      ShareAt(ls[..n], gross, cash, i);
    }
  }

  lemma AddRatios(g: real, a: real, gross: real)
    requires gross > 0.0
    ensures Ratio(g + a, gross) == Ratio(g, gross) + Ratio(a, gross)
  {
  }

  lemma {:induction false} WeightsSum(ls: seq<Line>, gross: real)
    requires gross > 0.0
    ensures RealSum(Weights(ls, gross)) == Ratio(Gross(ls), gross)
  {
    if ls != [] {
      var n := |ls| - 1;
      WeightsSum(ls[..n], gross);
      assert Weights(ls, gross)[..n] == Weights(ls[..n], gross);
      AddRatios(Gross(ls[..n]), Abs(LineMove(ls[n])), gross);
    }
  }

  lemma AddProducts(a: real, b: real, c: real)
    ensures Product(a + b, c) == Product(a, c) + Product(b, c)
  {
  }

  lemma ScaledStep(xs: seq<real>, c: real)
    requires xs != []
    ensures RealSum(Scaled(xs, c)) == RealSum(Scaled(xs[..|xs|-1], c)) + Product(xs[|xs|-1], c)
    ensures RealAbs(Scaled(xs, c)) == RealAbs(Scaled(xs[..|xs|-1], c)) + Abs(Product(xs[|xs|-1], c))
  {
    assert Scaled(xs, c)[..|xs|-1] == Scaled(xs[..|xs|-1], c);
  }

  lemma {:induction false} ScaledSum(xs: seq<real>, c: real)
    ensures RealSum(Scaled(xs, c)) == Product(RealSum(xs), c)
  {
    if xs != [] {
      var n := |xs| - 1;
      ScaledSum(xs[..n], c);
      ScaledStep(xs, c);
      AddProducts(RealSum(xs[..n]), xs[n], c);
    }
  }

  lemma AbsProduct(x: real, c: real)
    requires x >= 0.0
    ensures Abs(Product(x, c)) == Product(x, Abs(c))
  {
    if c >= 0.0 {
      assert x * c >= 0.0;
    } else {
      assert x * -c == -(x * c) && x * -c >= 0.0;
    }
  }

  lemma {:induction false} ScaledAbs(xs: seq<real>, c: real)
    requires forall i :: 0 <= i < |xs| ==> xs[i] >= 0.0
    ensures RealAbs(Scaled(xs, c)) == RealSum(Scaled(xs, Abs(c)))
  {
    if xs != [] {
      var n := |xs| - 1;
      ScaledAbs(xs[..n], c);
      ScaledStep(xs, c);
      ScaledStep(xs, Abs(c));
      AbsProduct(xs[n], c);
    }
  }

  lemma Units(x: real)
    ensures Product(1.0, x) == x
    ensures x != 0.0 ==> Ratio(x, x) == 1.0
  {
  }

  lemma WeightsAreWhole(ls: seq<Line>)
    requires Gross(ls) > 0.0
    ensures RealSum(Weights(ls, Gross(ls))) == 1.0
    ensures forall i :: 0 <= i < |ls| ==> Weights(ls, Gross(ls))[i] >= 0.0
  {
    WeightsSum(ls, Gross(ls));
    Units(Gross(ls));
    forall i | 0 <= i < |ls| ensures Weights(ls, Gross(ls))[i] >= 0.0 {
      ShareAt(ls, Gross(ls), 0.0, i);
      WeightBounds(ls[i], Gross(ls));
    }
  }

  /** All the shares of an entry's lines together are its whole cash movement. */
  lemma SharesAddUp(ls: seq<Line>, cash: real)
    requires Gross(ls) > 0.0
    ensures RealSum(Scaled(Weights(ls, Gross(ls)), cash)) == cash
    ensures RealAbs(Scaled(Weights(ls, Gross(ls)), cash)) == Abs(cash)
  {
    var ws := Weights(ls, Gross(ls));
    WeightsAreWhole(ls);
    ScaledSum(ws, cash);
    Units(cash);
    ScaledAbs(ws, cash);
    ScaledSum(ws, Abs(cash));
    Units(Abs(cash));
  }

  // ----- the running state -----------------------------------------------------------

  /** `x` is at most `t` in size. */
  ghost predicate Bounded(x: real, t: real) { -t <= x <= t }

  /** The buckets after `n` lines: `exact` and `size` are the exact sums of the shares so
      far and of their absolute values. */
  ghost predicate Near(bk: Buckets, exact: real, size: real, n: nat, d: real) {
    && Bounded(Sum3(bk) - exact, Steps(n, d))
    && Abs3(bk) <= size + Steps(n, d)
    && Count3(bk) <= n
  }

  lemma LineEffect(rnd: real -> real, r: PresentationRules, accounts: seq<Account>, bk: Buckets,
                   l: Line, share: real, s: real, exact: real, size: real, n: nat, total: real, e: real, d: real)
    requires RoundsWithin(rnd, 8.0 * total, e) && 0.0 <= e <= total && d == 3.0 * e
    requires l.account < |accounts| && Abs(share - s) <= 2.0 * e
    requires Near(bk, exact, size, n, d)
    requires size + Abs(s) <= total && Steps(n, d) <= total
    ensures Near(AddLineShare(rnd, r, accounts, bk, l, share), exact + s, size + Abs(s), n + 1, d)
  {
    var a := accounts[l.account];
    AddShareEffect(rnd, 8.0 * total, e, bk, ClassifyContra(a.accountType, a.code, r), a.code, a.name, share);
    assert Steps(n + 1, d) == Steps(n, d) + d;
  }

  /** Every computed share is within `t` of the exact one. */
  ghost predicate Close(share: Line -> real, ls: seq<Line>, shares: seq<real>, t: real)
    requires |ls| == |shares|
  {
    ls == [] ||
    var k := |ls| - 1;
    Close(share, ls[..k], shares[..k], t) && Abs(share(ls[k]) - shares[k]) <= t
  }

  lemma {:induction false} CloseAt(share: Line -> real, ls: seq<Line>, shares: seq<real>, t: real, k: nat)
    requires |ls| == |shares| && Close(share, ls, shares, t) && k < |ls|
    ensures Abs(share(ls[k]) - shares[k]) <= t
  {
    if k < |ls| - 1 { CloseAt(share, ls[..|ls|-1], shares[..|ls|-1], t, k); }
  }

  /** The buckets after the first `k` of the lines. */
  ghost predicate SpreadNear(rnd: real -> real, r: PresentationRules, accounts: seq<Account>, bk: Buckets, ls: seq<Line>,
                             share: Line -> real, shares: seq<real>, exact: real, size: real, n: nat, d: real, k: nat)
    requires LinesKnown(accounts, ls) && k <= |ls| == |shares|
  {
    Near(Spread(rnd, r, accounts, bk, ls[..k], share), exact + RealSum(shares[..k]), size + RealAbs(shares[..k]), n + k, d)
  }

  lemma {:induction false} RealAbsGrows(xs: seq<real>, k: nat)
    requires k < |xs|
    ensures RealAbs(xs[..k+1]) == RealAbs(xs[..k]) + Abs(xs[k]) <= RealAbs(xs)
    ensures RealSum(xs[..k+1]) == RealSum(xs[..k]) + xs[k]
  {
    assert xs[..k+1][..k] == xs[..k];
    if k + 1 == |xs| {
      assert xs[..k+1] == xs;
    } else {
      RealAbsGrows(xs[..|xs|-1], k);
      assert xs[..|xs|-1][..k+1] == xs[..k+1] && xs[..|xs|-1][..k] == xs[..k];
    }
  }

  lemma SpreadStep(rnd: real -> real, r: PresentationRules, accounts: seq<Account>, bk: Buckets, ls: seq<Line>,
                   share: Line -> real, shares: seq<real>, exact: real, size: real, n: nat, total: real, e: real,
                   d: real, k: nat)
    requires RoundsWithin(rnd, 8.0 * total, e) && 0.0 <= e <= total && d == 3.0 * e
    requires LinesKnown(accounts, ls) && k < |ls| == |shares|
    requires Abs(share(ls[k]) - shares[k]) <= 2.0 * e
    requires size + RealAbs(shares) <= total && Steps(n + k, d) <= total
    requires SpreadNear(rnd, r, accounts, bk, ls, share, shares, exact, size, n, d, k)
    ensures SpreadNear(rnd, r, accounts, bk, ls, share, shares, exact, size, n, d, k + 1)
  {
    RealAbsGrows(shares, k);
    assert ls[..k+1][..k] == ls[..k];
    LineEffect(rnd, r, accounts, Spread(rnd, r, accounts, bk, ls[..k], share), ls[k], share(ls[k]), shares[k],
               exact + RealSum(shares[..k]), size + RealAbs(shares[..k]), n + k, total, e, d);
  }

  lemma SpreadNone(rnd: real -> real, r: PresentationRules, accounts: seq<Account>, bk: Buckets, ls: seq<Line>,
                   share: Line -> real, shares: seq<real>, exact: real, size: real, n: nat, d: real)
    requires LinesKnown(accounts, ls) && |ls| == |shares| && Near(bk, exact, size, n, d)
    ensures SpreadNear(rnd, r, accounts, bk, ls, share, shares, exact, size, n, d, 0)
  {
    assert ls[..0] == [] && shares[..0] == [];
  }

  lemma SpreadMore(rnd: real -> real, r: PresentationRules, accounts: seq<Account>, bk: Buckets, ls: seq<Line>,
                   share: Line -> real, shares: seq<real>, exact: real, size: real, n: nat, total: real, e: real,
                   d: real, k: nat)
    requires RoundsWithin(rnd, 8.0 * total, e) && 0.0 <= e <= total && d == 3.0 * e
    requires LinesKnown(accounts, ls) && k < |ls| == |shares|
    requires Close(share, ls, shares, 2.0 * e)
    requires size + RealAbs(shares) <= total && Steps(n + |ls|, d) <= total
    requires SpreadNear(rnd, r, accounts, bk, ls, share, shares, exact, size, n, d, k)
    ensures SpreadNear(rnd, r, accounts, bk, ls, share, shares, exact, size, n, d, k + 1)
  {
    CloseAt(share, ls, shares, 2.0 * e, k);
    StepsMonotone(n + k, n + |ls|, d);
    SpreadStep(rnd, r, accounts, bk, ls, share, shares, exact, size, n, total, e, d, k);
  }

  lemma {:induction false} SpreadTo(rnd: real -> real, r: PresentationRules, accounts: seq<Account>, bk: Buckets,
                                    ls: seq<Line>, share: Line -> real, shares: seq<real>, exact: real, size: real,
                                    n: nat, total: real, e: real, d: real, k: nat)
    requires RoundsWithin(rnd, 8.0 * total, e) && 0.0 <= e <= total && d == 3.0 * e
    requires LinesKnown(accounts, ls) && k <= |ls| == |shares|
    requires Close(share, ls, shares, 2.0 * e)
    requires Near(bk, exact, size, n, d)
    requires size + RealAbs(shares) <= total && Steps(n + |ls|, d) <= total
    ensures SpreadNear(rnd, r, accounts, bk, ls, share, shares, exact, size, n, d, k)
    decreases k
  {
    if k == 0 {
      SpreadNone(rnd, r, accounts, bk, ls, share, shares, exact, size, n, d);
    } else {
      SpreadTo(rnd, r, accounts, bk, ls, share, shares, exact, size, n, total, e, d, k - 1);
      SpreadMore(rnd, r, accounts, bk, ls, share, shares, exact, size, n, total, e, d, k - 1);
    }
  }

  lemma SpreadEffect(rnd: real -> real, r: PresentationRules, accounts: seq<Account>, bk: Buckets, ls: seq<Line>,
                     share: Line -> real, shares: seq<real>, exact: real, size: real, n: nat, total: real, e: real, d: real)
    requires RoundsWithin(rnd, 8.0 * total, e) && 0.0 <= e <= total && d == 3.0 * e
    requires LinesKnown(accounts, ls) && |shares| == |ls|
    requires Close(share, ls, shares, 2.0 * e)
    requires Near(bk, exact, size, n, d)
    requires size + RealAbs(shares) <= total && Steps(n + |ls|, d) <= total
    ensures Near(Spread(rnd, r, accounts, bk, ls, share), exact + RealSum(shares), size + RealAbs(shares), n + |ls|, d)
  {
    SpreadTo(rnd, r, accounts, bk, ls, share, shares, exact, size, n, total, e, d, |ls|);
    assert ls[..|ls|] == ls && shares[..|ls|] == shares;
  }

  // ----- all entries ---------------------------------------------------------------------

  /** Number of lines that receive a share, their total exact cash, and its absolute size. */
  function SpreadCount(es: seq<Entry>, w: Window, ids: set<nat>): nat {
    if es == [] then 0
    else SpreadCount(es[..|es|-1], w, ids)
         + if Spreads(es[|es|-1], w, ids) then |NonCash(es[|es|-1].lines, ids)| else 0
  }

  function SpreadCash(es: seq<Entry>, w: Window, ids: set<nat>): int {
    if es == [] then 0
    else SpreadCash(es[..|es|-1], w, ids)
         + if Spreads(es[|es|-1], w, ids) then LineNet(es[|es|-1].lines, ids) else 0
  }

  function SpreadSize(es: seq<Entry>, w: Window, ids: set<nat>): real {
    if es == [] then 0.0
    else SpreadSize(es[..|es|-1], w, ids)
         + if Spreads(es[|es|-1], w, ids) then Abs(LineNet(es[|es|-1].lines, ids) as real) else 0.0
  }

  lemma {:induction false} NonCashMembers(ls: seq<Line>, ids: set<nat>, i: nat)
    requires i < |NonCash(ls, ids)|
    ensures NonCash(ls, ids)[i] in ls
  {
    var n := |ls| - 1;
    if i < |NonCash(ls[..n], ids)| {
      NonCashMembers(ls[..n], ids, i);
    }
  }

  /** In a sound book the zero-denominator branch is never taken. */
  lemma GrossIsPositive(b: Book, e: Entry, ids: set<nat>)
    requires EntryOk(b, e) && NonCash(e.lines, ids) != []
    ensures Gross(NonCash(e.lines, ids)) > 0.0
  {
    var others := NonCash(e.lines, ids);
    NonCashMembers(e.lines, ids, 0);
    var i :| 0 <= i < |e.lines| && e.lines[i] == others[0];
    assert OneSided(e.lines[i]);
    GrossBounds(others, 0);
  }

  /** The shares in exact arithmetic. */
  function ExactShares(ls: seq<Line>, cash: real): (r: seq<real>)
    requires Gross(ls) > 0.0
    ensures |r| == |ls|
  {
    Scaled(Weights(ls, Gross(ls)), cash)
  }

  /** They add up to the entry's cash, and the computed shares approximate them. */
  lemma EntryShares(rnd: real -> real, ls: seq<Line>, cash: real, total: real, e1: real, e: real)
    requires Precise(rnd, total, e1, e) && Gross(ls) > 0.0 && Abs(cash) <= total
    ensures RealSum(ExactShares(ls, cash)) == cash && RealAbs(ExactShares(ls, cash)) == Abs(cash)
    ensures Close(Sharer(rnd, Gross(ls), cash), ls, ExactShares(ls, cash), 2.0 * e)
  {
    SharesAddUp(ls, cash);
    SharesClose(rnd, ls, Gross(ls), cash, total, e1, e);
  }

  lemma {:induction false} SharesClose(rnd: real -> real, ls: seq<Line>, gross: real, cash: real,
                                       total: real, e1: real, e: real)
    requires Precise(rnd, total, e1, e) && gross > 0.0 && Gross(ls) <= gross && Abs(cash) <= total
    ensures Close(Sharer(rnd, gross, cash), ls, Scaled(Weights(ls, gross), cash), 2.0 * e)
  {
    if ls != [] {
      var k := |ls| - 1;
      GrossBounds(ls, k);
      SharesClose(rnd, ls[..k], gross, cash, total, e1, e);
      ShareError(rnd, ls[k], gross, cash, total, e1, e);
      assert Weights(ls, gross)[..k] == Weights(ls[..k], gross);
      assert Scaled(Weights(ls, gross), cash)[..k] == Scaled(Weights(ls[..k], gross), cash);
    }
  }

  lemma EntryEffect(rnd: real -> real, r: PresentationRules, b: Book, bk: Buckets, entry: Entry, w: Window,
                    ids: set<nat>, exact: real, size: real, n: nat, total: real, e1: real, e: real, d: real)
    requires EntryOk(b, entry) && Spreads(entry, w, ids) && LinesKnown(b.accounts, entry.lines)
    requires Precise(rnd, total, e1, e) && d == 3.0 * e
    requires Near(bk, exact, size, n, d) && 0.0 <= size
    requires size + Abs(LineNet(entry.lines, ids) as real) <= total
    requires Steps(n + |NonCash(entry.lines, ids)|, d) <= total
    ensures Near(SpreadEntry(rnd, r, b.accounts, bk, entry, w, ids),
                 exact + LineNet(entry.lines, ids) as real, size + Abs(LineNet(entry.lines, ids) as real),
                 n + |NonCash(entry.lines, ids)|, d)
  {
    var cash := LineNet(entry.lines, ids) as real;
    var others := NonCash(entry.lines, ids);
    NonCashIn(b.accounts, entry.lines, ids);
    GrossIsPositive(b, entry, ids);
    EntryShares(rnd, others, cash, total, e1, e);
    var shares := ExactShares(others, cash);
    var share := Sharer(rnd, Gross(others), cash);
    EntrySpread(rnd, r, b.accounts, bk, others, share, shares, cash, exact, size, n, total, e, d);
    SpreadUnfolded(rnd, r, b.accounts, bk, entry, w, ids);
  }

  lemma SpreadUnfolded(rnd: real -> real, r: PresentationRules, accounts: seq<Account>, bk: Buckets, e: Entry,
                       w: Window, ids: set<nat>)
    requires LinesKnown(accounts, e.lines) && LinesKnown(accounts, NonCash(e.lines, ids)) && Spreads(e, w, ids)
    ensures SpreadEntry(rnd, r, accounts, bk, e, w, ids) ==
              Spread(rnd, r, accounts, bk, NonCash(e.lines, ids),
                     Sharer(rnd, Gross(NonCash(e.lines, ids)), LineNet(e.lines, ids) as real))
  {
  }

  lemma EntrySpread(rnd: real -> real, r: PresentationRules, accounts: seq<Account>, bk: Buckets, ls: seq<Line>,
                    share: Line -> real, shares: seq<real>, cash: real,
                    exact: real, size: real, n: nat, total: real, e: real, d: real)
    requires LinesKnown(accounts, ls)
    requires RoundsWithin(rnd, 8.0 * total, e) && 0.0 <= e <= total && d == 3.0 * e
    requires |shares| == |ls| && RealSum(shares) == cash && RealAbs(shares) == Abs(cash)
    requires Close(share, ls, shares, 2.0 * e)
    requires Near(bk, exact, size, n, d) && size + Abs(cash) <= total && Steps(n + |ls|, d) <= total
    ensures Near(Spread(rnd, r, accounts, bk, ls, share), exact + cash, size + Abs(cash), n + |ls|, d)
  {
    SpreadEffect(rnd, r, accounts, bk, ls, share, shares, exact, size, n, total, e, d);
  }

  lemma {:induction false} SpreadSizeSign(es: seq<Entry>, w: Window, ids: set<nat>)
    ensures SpreadSize(es, w, ids) >= 0.0
  {
    if es != [] { SpreadSizeSign(es[..|es|-1], w, ids); }
  }

  lemma {:induction false} BookLines(b: Book, k: nat)
    requires BookOk(b) && k <= |b.entries|
    ensures EntriesKnown(b.accounts, b.entries[..k])
  {
    forall j | 0 <= j < k ensures LinesKnown(b.accounts, b.entries[..k][j].lines) {
      assert EntryOk(b, b.entries[j]);
    }
  }

  /** What the first `k` entries of a book spread. */
  ghost predicate PrefixNear(rnd: real -> real, r: PresentationRules, b: Book, k: nat, w: Window, ids: set<nat>, d: real)
    requires k <= |b.entries| && EntriesKnown(b.accounts, b.entries[..k])
  {
    var es := b.entries[..k];
    Near(Classified(rnd, r, b.accounts, es, w, ids),
         SpreadCash(es, w, ids) as real, SpreadSize(es, w, ids), SpreadCount(es, w, ids), d)
  }

  lemma PrefixUnfolded(rnd: real -> real, r: PresentationRules, accounts: seq<Account>, es: seq<Entry>, e: Entry,
                       w: Window, ids: set<nat>)
    requires EntriesKnown(accounts, es) && EntriesKnown(accounts, es + [e]) && LinesKnown(accounts, e.lines)
    ensures Classified(rnd, r, accounts, es + [e], w, ids)
            == SpreadEntry(rnd, r, accounts, Classified(rnd, r, accounts, es, w, ids), e, w, ids)
    ensures !Spreads(e, w, ids) ==> SpreadEntry(rnd, r, accounts, Classified(rnd, r, accounts, es, w, ids), e, w, ids)
                                    == Classified(rnd, r, accounts, es, w, ids)
    ensures SpreadCount(es + [e], w, ids) == SpreadCount(es, w, ids) + Added(e, w, ids).0
    ensures SpreadCash(es + [e], w, ids) == SpreadCash(es, w, ids) + Added(e, w, ids).1
    ensures SpreadSize(es + [e], w, ids) == SpreadSize(es, w, ids) + Abs(Added(e, w, ids).1 as real)
  {
    assert (es + [e])[..|es|] == es;
  }

  /** The lines and the cash an entry adds to the classification. */
  function Added(e: Entry, w: Window, ids: set<nat>): (nat, int) {
    if Spreads(e, w, ids) then (|NonCash(e.lines, ids)|, LineNet(e.lines, ids)) else (0, 0)
  }

  lemma PrefixStep(rnd: real -> real, r: PresentationRules, b: Book, k: nat, w: Window, ids: set<nat>,
                   total: real, e1: real, e: real, d: real)
    requires BookOk(b) && k < |b.entries|
    requires EntriesKnown(b.accounts, b.entries[..k]) && EntriesKnown(b.accounts, b.entries[..k+1])
    requires Precise(rnd, total, e1, e) && d == 3.0 * e
    requires SpreadSize(b.entries[..k+1], w, ids) <= total
    requires Steps(SpreadCount(b.entries[..k+1], w, ids), d) <= total
    requires PrefixNear(rnd, r, b, k, w, ids, d)
    ensures PrefixNear(rnd, r, b, k + 1, w, ids, d)
  {
    var es, entry := b.entries[..k], b.entries[k];
    assert b.entries[..k+1] == es + [entry];
    assert LinesKnown(b.accounts, b.entries[..k+1][k].lines);
    PrefixUnfolded(rnd, r, b.accounts, es, entry, w, ids);
    if Spreads(entry, w, ids) {
      assert EntryOk(b, entry);
      SpreadSizeSign(es, w, ids);
      EntryEffect(rnd, r, b, Classified(rnd, r, b.accounts, es, w, ids), entry, w, ids,
                  SpreadCash(es, w, ids) as real, SpreadSize(es, w, ids), SpreadCount(es, w, ids), total, e1, e, d);
    }
  }

  lemma PrefixMonotone(b: Book, k: nat, w: Window, ids: set<nat>, d: real)
    requires k < |b.entries| && d >= 0.0
    ensures SpreadSize(b.entries[..k], w, ids) <= SpreadSize(b.entries[..k+1], w, ids)
    ensures Steps(SpreadCount(b.entries[..k], w, ids), d) <= Steps(SpreadCount(b.entries[..k+1], w, ids), d)
  {
    assert b.entries[..k+1][..k] == b.entries[..k];
    StepsMonotone(SpreadCount(b.entries[..k], w, ids), SpreadCount(b.entries[..k+1], w, ids), d);
  }

  lemma {:induction false} ClassifiedNear(rnd: real -> real, r: PresentationRules, b: Book, k: nat, w: Window,
                                          ids: set<nat>, total: real, e1: real, e: real, d: real)
    requires BookOk(b) && k <= |b.entries| && EntriesKnown(b.accounts, b.entries[..k])
    requires Precise(rnd, total, e1, e) && d == 3.0 * e
    requires SpreadSize(b.entries[..k], w, ids) <= total
    requires Steps(SpreadCount(b.entries[..k], w, ids), d) <= total
    ensures PrefixNear(rnd, r, b, k, w, ids, d)
  {
    if k > 0 {
      BookLines(b, k - 1);
      PrefixMonotone(b, k - 1, w, ids, d);
      ClassifiedNear(rnd, r, b, k - 1, w, ids, total, e1, e, d);
      PrefixStep(rnd, r, b, k - 1, w, ids, total, e1, e, d);
    }
  }

  // ----- the ledger side --------------------------------------------------------------------

  lemma {:induction false} NoCash(ls: seq<Line>, ids: set<nat>)
    requires !Touches(ls, ids)
    ensures LineNet(ls, ids) == 0
  {
    if ls != [] {
      NoCash(ls[..|ls|-1], ids);
    }
  }

  lemma {:induction false} AllCash(ls: seq<Line>, ids: set<nat>)
    requires NonCash(ls, ids) == []
    ensures forall i :: 0 <= i < |ls| ==> ls[i].account in ids
  {
    if ls != [] { AllCash(ls[..|ls|-1], ids); }
  }

  /** Entries that spread nothing move no cash, so what is spread is the ledger's change. */
  lemma {:induction false} SpreadCashIsNet(b: Book, k: nat, w: Window, ids: set<nat>)
    requires BookOk(b) && k <= |b.entries|
    ensures SpreadCash(b.entries[..k], w, ids) == Net(b.entries[..k], w, ids)
  {
    if k > 0 {
      assert b.entries[..k][..k-1] == b.entries[..k-1];
      SpreadCashIsNet(b, k - 1, w, ids);
      var e := b.entries[k-1];
      assert EntryOk(b, e);
      if Counts(e, w) && !Spreads(e, w, ids) {
        if !Touches(e.lines, ids) {
          NoCash(e.lines, ids);
        } else if NonCash(e.lines, ids) == [] {
          AllCash(e.lines, ids);
          LineSumAll(e.lines, ids, Debit);
          LineSumAll(e.lines, ids, Credit);
        }
      }
    }
  }

  // ----- subtotals and the final check ---------------------------------------------------------

  lemma {:induction false} SubtotalNear(rnd: real -> real, items: seq<Item>, total: real, e: real, d: real)
    requires RoundsWithin(rnd, 8.0 * total, e) && 0.0 <= e <= d && ItemAbs(items) + Steps(|items|, d) <= 8.0 * total
    ensures Bounded(Subtotal(rnd, items) - ItemSum(items), Steps(|items|, d))
  {
    if items != [] {
      var n := |items| - 1;
      SubtotalNear(rnd, items[..n], total, e, d);
      AbsSigns(items[..n]);
      RoundAt(rnd, 8.0 * total, e, Subtotal(rnd, items[..n]) + items[n].amount);
    }
  }

  lemma {:induction false} StepsAdd(j: nat, k: nat, d: real)
    ensures Steps(j + k, d) == Steps(j, d) + Steps(k, d)
  {
    if k > 0 { StepsAdd(j, k - 1, d); }
  }

  lemma StepsBudget(i: nat, j: nat, k: nat, n: nat, d: real)
    requires i + j + k <= n && d >= 0.0
    ensures 0.0 <= Steps(i, d) && 0.0 <= Steps(j, d) && 0.0 <= Steps(k, d) && 0.0 <= Steps(n, d)
    ensures Steps(i, d) + Steps(j, d) + Steps(k, d) <= Steps(n, d)
    ensures Steps(2 * n + 2, d) == Steps(n, d) + Steps(n, d) + d + d
  {
    StepsAdd(i, j, d);
    StepsAdd(i + j, k, d);
    StepsAdd(n, n, d);
    StepsMonotone(i + j + k, n, d);
    StepsMonotone(0, i, d);
    StepsMonotone(0, j, d);
    StepsMonotone(0, k, d);
  }

  /** Every section's subtotal is near its sum, and not too large. */
  lemma SectionsNear(rnd: real -> real, bk: Buckets, size: real, n: nat, total: real, e: real, d: real)
    requires RoundsWithin(rnd, 8.0 * total, e) && 0.0 <= e <= d
    requires Abs3(bk) <= size + Steps(n, d) && size <= total && Steps(n, d) + d <= total / 2.0
    requires Steps(|bk.op|, d) + Steps(|bk.inv|, d) + Steps(|bk.fin|, d) <= Steps(n, d)
    requires Steps(|bk.op|, d) >= 0.0 && Steps(|bk.inv|, d) >= 0.0 && Steps(|bk.fin|, d) >= 0.0
    requires ItemAbs(bk.op) >= 0.0 && ItemAbs(bk.inv) >= 0.0 && ItemAbs(bk.fin) >= 0.0
    ensures Bounded(Subtotal(rnd, bk.op) - ItemSum(bk.op), Steps(|bk.op|, d))
    ensures Bounded(Subtotal(rnd, bk.inv) - ItemSum(bk.inv), Steps(|bk.inv|, d))
    ensures Bounded(Subtotal(rnd, bk.fin) - ItemSum(bk.fin), Steps(|bk.fin|, d))
    ensures Bounded(Subtotal(rnd, bk.op), 2.0 * total - e) && Bounded(Subtotal(rnd, bk.inv), 2.0 * total - e)
    ensures Bounded(Subtotal(rnd, bk.fin), 2.0 * total - e)
  {
    SectionNear(rnd, bk.op, total, e, d);
    SectionNear(rnd, bk.inv, total, e, d);
    SectionNear(rnd, bk.fin, total, e, d);
  }

  lemma NetNear(rnd: real -> real, bk: Buckets, exact: real, size: real, n: nat, total: real, e: real, d: real)
    requires RoundsWithin(rnd, 8.0 * total, e) && 0.0 <= e <= d
    requires Near(bk, exact, size, n, d) && size <= total && Steps(2 * n + 2, d) <= total
    ensures Bounded(NetChange(rnd, bk) - exact, Steps(2 * n + 2, d))
  {
    StepsBudget(|bk.op|, |bk.inv|, |bk.fin|, n, d);
    AbsSigns(bk.op);
    AbsSigns(bk.inv);
    AbsSigns(bk.fin);
    SectionsNear(rnd, bk, size, n, total, e, d);
    ThreeSections(rnd, total, e, d, Subtotal(rnd, bk.op), Subtotal(rnd, bk.inv), Subtotal(rnd, bk.fin),
                  ItemSum(bk.op), ItemSum(bk.inv), ItemSum(bk.fin),
                  Steps(|bk.op|, d), Steps(|bk.inv|, d), Steps(|bk.fin|, d), exact, Steps(n, d));
  }

  lemma ThreeSections(rnd: real -> real, total: real, e: real, d: real, a: real, b: real, c: real,
                      a0: real, b0: real, c0: real, ea: real, eb: real, ec: real, exact: real, t: real)
    requires RoundsWithin(rnd, 8.0 * total, e) && 0.0 <= e <= d && t + t + d + d <= total
    requires Bounded(a, 2.0 * total - e) && Bounded(b, 2.0 * total - e) && Bounded(c, 2.0 * total - e)
    requires Bounded(a - a0, ea) && Bounded(b - b0, eb) && Bounded(c - c0, ec) && ea + eb + ec <= t
    requires Bounded(a0 + b0 + c0 - exact, t)
    ensures Bounded(rnd(rnd(a + b) + c) - exact, t + t + d + d)
  {
    TwoAdditions(rnd, 8.0 * total, e, a, b, c);
  }

  lemma SectionNear(rnd: real -> real, items: seq<Item>, total: real, e: real, d: real)
    requires RoundsWithin(rnd, 8.0 * total, e) && 0.0 <= e <= d && ItemAbs(items) + Steps(|items|, d) <= 8.0 * total
    ensures Bounded(Subtotal(rnd, items) - ItemSum(items), Steps(|items|, d))
    ensures Bounded(Subtotal(rnd, items), ItemAbs(items) + Steps(|items|, d))
  {
    AbsSigns(items);
    SubtotalNear(rnd, items, total, e, d);
  }

  lemma TwoAdditions(rnd: real -> real, limit: real, e: real, a: real, b: real, c: real)
    requires RoundsWithin(rnd, limit, e) && 0.0 <= e
    requires Bounded(a, limit / 4.0 - e) && Bounded(b, limit / 4.0 - e) && Bounded(c, limit / 4.0 - e)
    ensures Bounded(rnd(rnd(a + b) + c) - (a + b + c), e + e)
  {
    RoundAt(rnd, limit, e, a + b);
    RoundAt(rnd, limit, e, rnd(a + b) + c);
  }

  /** The gap between the classified net and the ledger's change in cash is at most
      2n + 2 steps of three roundings, n being the number of lines that got a share. */
  lemma ClassificationGap(rnd: real -> real, r: PresentationRules, b: Book, w: Window, ids: set<nat>,
                          total: real, e1: real, e: real)
    requires BookOk(b) && EntriesKnown(b.accounts, b.entries)
    requires Precise(rnd, total, e1, e) && SpreadSize(b.entries, w, ids) <= total
    requires Steps(2 * SpreadCount(b.entries, w, ids) + 2, 3.0 * e) <= total
    ensures Bounded(NetChange(rnd, Classified(rnd, r, b.accounts, b.entries, w, ids)) - Net(b.entries, w, ids) as real,
                Steps(2 * SpreadCount(b.entries, w, ids) + 2, 3.0 * e))
  {
    var n, d := SpreadCount(b.entries, w, ids), 3.0 * e;
    assert b.entries[..|b.entries|] == b.entries;
    StepsMonotone(n, 2 * n + 2, d);
    ClassifiedNear(rnd, r, b, |b.entries|, w, ids, total, e1, e, d);
    SpreadCashIsNet(b, |b.entries|, w, ids);
    NetNear(rnd, Classified(rnd, r, b.accounts, b.entries, w, ids), Net(b.entries, w, ids) as real,
            SpreadSize(b.entries, w, ids), n, total, e, d);
  }

  // ----- the theorems ---------------------------------------------------------------------------

  lemma EntriesOfBook(b: Book)
    requires BookOk(b)
    ensures EntriesKnown(b.accounts, b.entries)
  {
    BookLines(b, |b.entries|);
    assert b.entries[..|b.entries|] == b.entries;
  }

  lemma {:induction false} UntouchedCash(es: seq<Entry>, w: Window, ids: set<nat>)
    requires forall k :: 0 <= k < |es| && Counts(es[k], w) ==> !Touches(es[k].lines, ids)
    ensures Net(es, w, ids) == 0
  {
    if es != [] {
      UntouchedCash(es[..|es|-1], w, ids);
      if Counts(es[|es|-1], w) {
        NoCash(es[|es|-1].lines, ids);
      }
    }
  }

  /** The classified net minus the ledger's change in cash. */
  function Gap(rnd: real -> real, r: PresentationRules, b: Book, w: Window, ids: set<nat>): real
    requires EntriesKnown(b.accounts, b.entries)
  {
    NetChange(rnd, Classified(rnd, r, b.accounts, b.entries, w, ids)) - Net(b.entries, w, ids) as real
  }

  /** The presentation goes through, and its flag is set, once the gap is small enough. */
  lemma SmallGapTies(rnd: real -> real, r: PresentationRules, b: Book, start: int, end: int, codes: set<string>)
    requires BookOk(b) && EntriesKnown(b.accounts, b.entries) && CashFlowFor(b, start, end, codes).Ok?
    requires Abs(rnd(Gap(rnd, r, b, Window(Some(start), end), CashIds(b, codes)))) <= 1.0
    ensures Presented(rnd, r, b, start, end, codes).Ok? && Presented(rnd, r, b, start, end, codes).value.ties
  {
    var w, ids := Window(Some(start), end), CashIds(b, codes);
    if forall k :: 0 <= k < |b.entries| && Counts(b.entries[k], w) ==> !Touches(b.entries[k].lines, ids) {
      UntouchedCash(b.entries, w, ids);
    }
  }

  function Identity(): real -> real { x => x }

  lemma IdentityPrecise(total: real)
    requires total >= 0.0
    ensures Precise(Identity(), total, 0.0, 0.0)
  {
    assert 0.0 * total == 0.0;
  }

  lemma IdentityGap(r: PresentationRules, b: Book, w: Window, ids: set<nat>)
    requires BookOk(b) && EntriesKnown(b.accounts, b.entries)
    ensures Gap(Identity(), r, b, w, ids) == 0.0
  {
    var total, n := SpreadSize(b.entries, w, ids), SpreadCount(b.entries, w, ids);
    SpreadSizeSign(b.entries, w, ids);
    IdentityPrecise(total);
    StepsProduct(2 * n + 2, 0.0);
    ClassificationGap(Identity(), r, b, w, ids, total, 0.0, 0.0);
  }

  /** In exact arithmetic, for every sound book, cash selection and rule set, the three
      sections together are exactly the closing minus the opening cash. */
  lemma ExactSectionsTie(b: Book, r: PresentationRules, start: int, end: int, codes: set<string>)
    requires BookOk(b) && CashFlowFor(b, start, end, codes).Ok?
    ensures EntriesKnown(b.accounts, b.entries)
    ensures var p := Presented(Identity(), r, b, start, end, codes);
            && p.Ok? && p.value.ties
            && p.value.netChange == (p.value.closing - p.value.opening) as real
            && p.value.opTotal + p.value.invTotal + p.value.finTotal == p.value.netChange
  {
    var w, ids := Window(Some(start), end), CashIds(b, codes);
    EntriesOfBook(b);
    IdentityGap(r, b, w, ids);
    SmallGapTies(Identity(), r, b, start, end, codes);
    if forall k :: 0 <= k < |b.entries| && Counts(b.entries[k], w) ==> !Touches(b.entries[k].lines, ids) {
      UntouchedCash(b.entries, w, ids);
    }
  }

  /** Decimal arithmetic: every result is off by at most `u` relative to its exact value. */
  ghost predicate RelativeRounding(rnd: real -> real, u: real) {
    0.0 <= u <= 1.0 && forall x {:trigger Exact(x)} :: Exact(x) ==> Abs(rnd(x) - x) <= Product(u, Abs(x))
  }

  lemma ProductMonotone(u: real, x: real, y: real)
    requires u >= 0.0 && x <= y
    ensures Product(u, x) <= Product(u, y)
  {
  }

  lemma RelativeWithin(rnd: real -> real, u: real, limit: real)
    requires RelativeRounding(rnd, u)
    ensures RoundsWithin(rnd, limit, Product(u, limit))
  {
    forall x | Exact(x) && -limit <= x <= limit
      ensures -Product(u, limit) <= rnd(x) - x <= Product(u, limit)
    {
      ProductMonotone(u, Abs(x), limit);
    }
  }

  /** With relative rounding error `u`, `n` lines sharing and `total` units of gross cash, the
      0.0001 check cannot fire while 48 (n + 1) u and 96 (n + 1) u total are at most 1. */
  lemma RoundedSectionsTie(rnd: real -> real, u: real, b: Book, r: PresentationRules,
                           start: int, end: int, codes: set<string>, total: real)
    requires BookOk(b) && RelativeRounding(rnd, u) && CashFlowFor(b, start, end, codes).Ok?
    requires SmallEnough(u, SpreadCount(b.entries, Window(Some(start), end), CashIds(b, codes)), total)
    requires SpreadSize(b.entries, Window(Some(start), end), CashIds(b, codes)) <= total
    ensures EntriesKnown(b.accounts, b.entries)
    ensures Presented(rnd, r, b, start, end, codes).Ok? && Presented(rnd, r, b, start, end, codes).value.ties
  {
    EntriesOfBook(b);
    RoundedGap(rnd, u, r, b, Window(Some(start), end), CashIds(b, codes), total);
    SmallGapTies(rnd, r, b, start, end, codes);
  }

  predicate SmallEnough(u: real, n: nat, total: real) {
    48.0 * (n as real + 1.0) * u <= 1.0 && 96.0 * (n as real + 1.0) * u * total <= 1.0
  }

  lemma RoundedGap(rnd: real -> real, u: real, r: PresentationRules, b: Book, w: Window, ids: set<nat>, total: real)
    requires BookOk(b) && EntriesKnown(b.accounts, b.entries) && RelativeRounding(rnd, u)
    requires SpreadSize(b.entries, w, ids) <= total && SmallEnough(u, SpreadCount(b.entries, w, ids), total)
    ensures Abs(rnd(Gap(rnd, r, b, w, ids))) <= 1.0
  {
    SpreadSizeSign(b.entries, w, ids);
    RelativePrecision(rnd, u, total, SpreadCount(b.entries, w, ids));
    ClassificationGap(rnd, r, b, w, ids, total, u, Product(u, 8.0 * total));
    HalfUnit(rnd, u, Gap(rnd, r, b, w, ids));
  }

  lemma HalfUnit(rnd: real -> real, u: real, gap: real)
    requires RelativeRounding(rnd, u) && Bounded(gap, 0.5)
    ensures Abs(rnd(gap)) <= 1.0
  {
    RelativeWithin(rnd, u, 0.5);
    RoundAt(rnd, 0.5, Product(u, 0.5), gap);
  }

  lemma RelativePrecision(rnd: real -> real, u: real, total: real, n: nat)
    requires RelativeRounding(rnd, u) && total >= 0.0 && SmallEnough(u, n, total)
    ensures var e := Product(u, 8.0 * total);
            Precise(rnd, total, u, e) && Steps(2 * n + 2, 3.0 * e) <= total && Steps(2 * n + 2, 3.0 * e) <= 0.5
  {
    var e := Product(u, 8.0 * total);
    RelativeWithin(rnd, u, 1.0);
    RelativeWithin(rnd, u, 8.0 * total);
    StepsProduct(2 * n + 2, 3.0 * e);
    Bounds(n as real + 1.0, u, total);
    assert (2 * n + 2) as real == 2.0 * (n as real + 1.0);
    assert Product(u, 1.0) == u;
  }

  lemma Bounds(m: real, u: real, total: real)
    requires m >= 1.0 && u >= 0.0 && total >= 0.0 && 48.0 * m * u <= 1.0 && 96.0 * m * u * total <= 1.0
    ensures var e := Product(u, 8.0 * total);
            && 2.0 * m * (3.0 * e) <= total && 2.0 * m * (3.0 * e) <= 0.5
            && 0.0 <= e <= total && u * total <= e && u <= 1.0
  {
    var x, y := m * u, u * total;
    assert u <= x;
    assert 48.0 * x <= 1.0;
    assert y >= 0.0;
    assert x * total == m * y;
    assert 48.0 * x * total <= 1.0 * total;
    assert y <= m * y;
    assert Product(u, 8.0 * total) == 8.0 * y;
    assert 2.0 * m * (3.0 * (8.0 * y)) == 48.0 * (m * y);
  }

  const DECIMAL_ERROR: real := 0.0000000000000000000000000005

  /** Python's 28-digit decimals, up to a million lines and 10^15 currency units of gross cash. */
  lemma DecimalSectionsTie(rnd: real -> real, b: Book, r: PresentationRules, start: int, end: int, codes: set<string>)
    requires BookOk(b) && RelativeRounding(rnd, DECIMAL_ERROR) && CashFlowFor(b, start, end, codes).Ok?
    requires SpreadCount(b.entries, Window(Some(start), end), CashIds(b, codes)) < 1_000_000
    requires SpreadSize(b.entries, Window(Some(start), end), CashIds(b, codes)) <= 10_000_000_000_000_000_000.0
    ensures EntriesKnown(b.accounts, b.entries)
    ensures Presented(rnd, r, b, start, end, codes).Ok?
  {
    RoundedSectionsTie(rnd, DECIMAL_ERROR, b, r, start, end, codes, 10_000_000_000_000_000_000.0);
  }
}
