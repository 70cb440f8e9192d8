/** The safety check on figures as people write them: brackets for a negative amount, and magnitudes. */
module NarrativeFacts {
  import opened Accounts
  import opened NarrativeText
  import opened NarrativeTextProofs
  import opened NarrativeScan
  import opened Narrative
  import opened Presentation
  import CashFlow

  // ----- brackets -------------------------------------------------------------------------

  function Bracketed(cents: int): string { ['('] + (Fmt(cents, "USD") + [')']) }

  lemma CleanBracketed(cents: int)
    ensures Clean(Bracketed(cents)) == Bracketed(cents)
  {
    var rest := Fmt(cents, "USD") + [')'];
    CleanFirst(')', "");
    CleanFmt(cents, [')']);
    assert Clean("") == "";
    assert [')'] + "" == [')'];
    CleanFirst('(', rest);
  }

  lemma BracketedShape(cents: int)
    ensures Bracketed(cents)
         == (['('] + Dollar(cents)) + (Group(Abs(cents) / 100) + (['.'] + (Pad2(Abs(cents) % 100) + [')'])))
    ensures '%' !in Bracketed(cents)
  {
    var d, g, pad := Dollar(cents), Group(Abs(cents) / 100), Pad2(Abs(cents) % 100);
    FmtShape(cents, [')']);
    assert ['('] + (d + (g + (['.'] + (pad + [')'])))) == (['('] + d) + (g + (['.'] + (pad + [')'])));
    NoMarksInNumbers(Abs(cents) / 100, Abs(cents) % 100);
    assert (g + (['.'] + (pad + [')']))) == (g + (['.'] + pad)) + [')'];
  }

  predicate Opening(head: string) { head == "($" || head == "(-$" }

  lemma BracketedPlace(t: string, head: string, g: string, pad: string)
    requires Opening(head) && g != "" && IsDigit(g[0]) && AllBody(g) && |pad| == 2 && AllDigits(pad)
    requires t == head + (g + (['.'] + (pad + [')'])))
    ensures var a := |head|;
            && NumberAt(t, a, a + |g|, g, pad) && t[..a] == head && IsDigit(t[a])
            && |t| == a + |g| + 4 && t[a + |g| + 3] == ')'
  {
    var a := |head|;
    Layout(head, g, pad, [')']);
    assert t[a] == t[a..a+|g|][0];
    assert t[a + |g| + 3] == t[a + |g| + 3..][0] == ')';
  }

  lemma DollarIn(t: string, head: string)
    requires Opening(head) && |head| < |t| && t[..|head|] == head && IsDigit(t[|head|])
    ensures DollarAt(t) == |head| - 1 && MoneyAt(t) && t[0] == '('
  {
    assert forall i :: 0 <= i < |head| ==> t[i] == head[i];
  }

  lemma BracketedLength(t: string, c: nat)
    requires MoneyAt(t) && c == FractionEnd(t, BodyEnd(t, DollarAt(t) + 1)) && c + 1 == |t| && t[c] == ')'
    ensures MoneyLength(t) == |t|
  {
  }

  lemma BracketedSign(t: string, a: nat)
    requires t != "" && t[0] == '(' && t[|t|-1] == ')' && MoneyLength(t) == |t| && DollarAt(t) + 1 == a
    ensures MoneyRaw(t) == RawAt(Money, true, t, a)
  {
  }

  lemma BracketedMatches(t: string, head: string, g: string, pad: string)
    requires Opening(head) && g != "" && IsDigit(g[0]) && AllBody(g) && |pad| == 2 && AllDigits(pad)
    requires t == head + (g + (['.'] + (pad + [')'])))
    ensures MoneyLength(t) == |t| && MoneyRaw(t) == Raw(Money, true, NoCommas(g), pad)
  {
    var a := |head|;
    BracketedPlace(t, head, g, pad);
    DollarIn(t, head);
    RawExact(Money, true, t, a, a + |g|, g, pad);
    BracketedLength(t, a + |g| + 3);
    BracketedSign(t, a);
  }

  lemma FoundAlone(t: string, raw: Raw)
    requires t != "" && MoneyLength(t) == |t| && MoneyRaw(t) == raw
    ensures Find(Dollars(), MoneyToken(), t) == [raw]
  {
    assert t + "" == t;
    FindTakes(Dollars(), MoneyToken(), t, "");
  }

  lemma OneMoney(t: string, raw: Raw)
    requires t != "" && Clean(t) == t && '%' !in t && MoneyLength(t) == |t| && MoneyRaw(t) == raw
    ensures Extracted(t) == [Normalised(raw)]
  {
    assert t + "" == t;
    PctSkips(t, "");
    FoundAlone(t, raw);
    assert [] + [raw] == [raw] && [raw][..0] == [];
    assert NormalisedAll([raw][..0]) == [];
  }

  lemma BracketedValue(cents: int)
    ensures Normalised(Raw(Money, true, NoCommas(Group(Abs(cents) / 100)), Pad2(Abs(cents) % 100)))
         == Token(Money, if cents < 0 then cents else -cents)
  {
    GroupShape(Abs(cents) / 100);
    CentsExact(NoCommas(Group(Abs(cents) / 100)), Abs(cents) % 100);
  }

  lemma BracketedScans(t: string, head: string, g: string, pad: string, v: Token)
    requires Opening(head) && g != "" && IsDigit(g[0]) && AllBody(g) && |pad| == 2 && AllDigits(pad)
    requires t == head + (g + (['.'] + (pad + [')']))) && Clean(t) == t && '%' !in t
    requires Normalised(Raw(Money, true, NoCommas(g), pad)) == v
    ensures Extracted(t) == [v]
  {
    BracketedMatches(t, head, g, pad);
    OneMoney(t, Raw(Money, true, NoCommas(g), pad));
  }

  lemma BracketedOpening(cents: int)
    ensures Opening(['('] + Dollar(cents))
  {
    assert ['('] + Dollar(cents) == if cents < 0 then "(-$" else "($";
  }

  /** An amount in accounting brackets scans as a negative one, with or without a sign inside. */
  lemma BracketsNegate(cents: int)
    ensures Extracted(Bracketed(cents)) == [Token(Money, if cents < 0 then cents else -cents)]
  {
    CleanBracketed(cents);
    BracketedShape(cents);
    BracketedOpening(cents);
    GroupShape(Abs(cents) / 100);
    BracketedValue(cents);
    BracketedScans(Bracketed(cents), ['('] + Dollar(cents), Group(Abs(cents) / 100), Pad2(Abs(cents) % 100),
                   Token(Money, if cents < 0 then cents else -cents));
  }

  // ----- what may be mentioned ------------------------------------------------------------------

  /** Zero, an allowed number, or the magnitude of one may be mentioned. */
  lemma MayMention(allowed: set<int>, v: int)
    ensures v in Widened(allowed) <==> v == 0 || v in allowed || (v > 0 && -v in allowed)
  {
    if v > 0 && -v in allowed { assert Abs(-v) == v; }
  }

  /** The report lists, in order, the figures of the text that may not be mentioned. */
  lemma {:induction false} ForeignIs(found: seq<Token>, allowed: set<int>, t: Token)
    ensures multiset(Foreign(found, allowed))[t] == if t.cents in allowed then 0 else multiset(found)[t]
  {
    if found != [] {
      var n := |found| - 1;
      ForeignIs(found[..n], allowed, t);
      assert found == found[..n] + [found[n]];
    }
  }

  // ----- the allowed numbers are the engine's ---------------------------------------------------------

  predicate VarianceHas(v: Option<Variance>, x: int) {
    v.Some? && (x == Cents(v.value.current) || x == Cents(v.value.prior) || x == Cents(v.value.delta)
                || (v.value.pct.Some? && x == PctCents(v.value.pct.value)))
  }

  predicate LinesHave(ls: seq<PresentedLine>, x: int) {
    exists l :: l in ls && (x == Cents(l.amount) || VarianceHas(l.variance, x))
  }

  predicate SectionHas(s: PresentedSection, x: int) {
    x == Cents(s.subtotal) || VarianceHas(s.variance, x) || LinesHave(s.lines, x)
  }

  predicate ItemsHave(items: seq<CashFlow.Item>, x: int) { exists i :: i in items && x == Cents(i.amount) }

  predicate PlHas(pl: PresentedPl, x: int) {
    || SectionHas(pl.revenue, x) || SectionHas(pl.cogs, x) || SectionHas(pl.operatingExpenses, x)
    || SectionHas(pl.otherIncome, x) || SectionHas(pl.otherExpenses, x)
    || x == Cents(pl.grossProfit) || x == Cents(pl.operatingIncome) || x == Cents(pl.netIncome)
    || VarianceHas(pl.grossProfitVariance, x) || VarianceHas(pl.operatingIncomeVariance, x)
    || VarianceHas(pl.netIncomeVariance, x)
  }

  predicate BsHas(bs: PresentedBs, x: int) {
    || SectionHas(bs.currentAssets, x) || SectionHas(bs.nonCurrentAssets, x)
    || SectionHas(bs.currentLiabilities, x) || SectionHas(bs.longTermLiabilities, x) || SectionHas(bs.equity, x)
    || x == Cents(bs.totalAssets) || x == Cents(bs.totalLiabilities) || x == Cents(bs.retained)
    || x == Cents(bs.totalEquity) || x == Cents(bs.totalLiabilitiesAndEquity)
    || VarianceHas(bs.totalAssetsVariance, x) || VarianceHas(bs.retainedVariance, x)
  }

  predicate CfHas(cf: CashFlow.PresentedCashFlow, x: int) {
    || x == Cents(cf.opening as real) || x == Cents(cf.closing as real) || x == Cents(cf.netChange)
    || ItemsHave(cf.operating, x) || ItemsHave(cf.investing, x) || ItemsHave(cf.financing, x)
    || x == Cents(cf.opTotal) || x == Cents(cf.invTotal) || x == Cents(cf.finTotal)
  }

  lemma VarianceExactly(v: Option<Variance>, x: int)
    ensures x in VarianceNumbers(v) <==> VarianceHas(v, x)
  {
  }

  lemma {:induction false} LinesExactly(ls: seq<PresentedLine>, x: int)
    ensures x in LineNumbers(ls) <==> LinesHave(ls, x)
  {
    if ls != [] {
      var init, last := ls[..|ls|-1], ls[|ls|-1];
      LinesExactly(init, x);
      VarianceExactly(last.variance, x);
      assert forall l :: l in ls <==> l in init || l == last;
    }
  }

  lemma SectionExactly(s: PresentedSection, x: int)
    ensures x in SectionNumbers(s) <==> SectionHas(s, x)
  {
    LinesExactly(s.lines, x);
    VarianceExactly(s.variance, x);
  }

  lemma {:induction false} ItemsExactly(items: seq<CashFlow.Item>, x: int)
    ensures x in ItemNumbers(items) <==> ItemsHave(items, x)
  {
    if items != [] {
      var init, last := items[..|items|-1], items[|items|-1];
      ItemsExactly(init, x);
      assert forall i :: i in items <==> i in init || i == last;
    }
  }

  lemma PlExactly(pl: PresentedPl, x: int)
    ensures x in PlNumbers(pl) <==> PlHas(pl, x)
  {
    SectionExactly(pl.revenue, x);
    SectionExactly(pl.cogs, x);
    SectionExactly(pl.operatingExpenses, x);
    SectionExactly(pl.otherIncome, x);
    SectionExactly(pl.otherExpenses, x);
    VarianceExactly(pl.grossProfitVariance, x);
    VarianceExactly(pl.operatingIncomeVariance, x);
    VarianceExactly(pl.netIncomeVariance, x);
  }

  lemma BsExactly(bs: PresentedBs, x: int)
    ensures x in BsNumbers(bs) <==> BsHas(bs, x)
  {
    SectionExactly(bs.currentAssets, x);
    SectionExactly(bs.nonCurrentAssets, x);
    SectionExactly(bs.currentLiabilities, x);
    SectionExactly(bs.longTermLiabilities, x);
    SectionExactly(bs.equity, x);
    VarianceExactly(bs.totalAssetsVariance, x);
    VarianceExactly(bs.retainedVariance, x);
  }

  lemma CfExactly(cf: CashFlow.PresentedCashFlow, x: int)
    ensures x in CfNumbers(cf) <==> CfHas(cf, x)
  {
    ItemsExactly(cf.operating, x);
    ItemsExactly(cf.investing, x);
    ItemsExactly(cf.financing, x);
  }

  /** A number is allowed if and only if it is a line amount, a subtotal, a headline or one of the comparative
      figures of the statements at hand, in cents. */
  lemma AllowedExactly(st: Reports, x: int)
    ensures x in AllowedNumbers(st) <==>
              PlHas(st.pl, x) || (st.bs.Some? && BsHas(st.bs.value, x)) || (st.cf.Some? && CfHas(st.cf.value, x))
  {
    PlExactly(st.pl, x);
    if st.bs.Some? { BsExactly(st.bs.value, x); }
    if st.cf.Some? { CfExactly(st.cf.value, x); }
  }

  // ----- decimals in prose --------------------------------------------------------------------------

  /** Any decimal is read to the nearest cent, a half to the even one. */
  lemma ReadToTheCent(whole: string, fraction: string)
    requires AllDigits(whole) && AllDigits(fraction)
    ensures AllDigits(whole + fraction)
    ensures var n, d, c := ToNat(whole + fraction) * 100, Pow10(|fraction|), ToCents(whole, fraction);
            && 2 * n <= (2 * c + 1) * d && (2 * c - 1) * d <= 2 * n
            && (2 * n == (2 * c + 1) * d || 2 * n == (2 * c - 1) * d ==> c % 2 == 0)
  {
    NearestOf(ToNat(whole + fraction) * 100, Pow10(|fraction|));
  }

  lemma NearestOf(n: nat, d: nat)
    requires d > 0
    ensures var c := HalfEven(n, d);
            && 2 * n <= (2 * c + 1) * d && (2 * c - 1) * d <= 2 * n
            && (2 * n == (2 * c + 1) * d || 2 * n == (2 * c - 1) * d ==> c % 2 == 0)
  {
    var q, r := n / d, n % d;
    assert n == q * d + r;
    assert (2 * q + 1) * d == 2 * (q * d) + d && (2 * q + 3) * d == 2 * (q * d) + 3 * d;
    assert (2 * q - 1) * d == 2 * (q * d) - d;
  }

  // ----- years ----------------------------------------------------------------------------------------

  /** A bare year is 19 or 20 and two digits, and no letter, digit or underscore follows. */
  lemma YearIsThePattern(s: string)
    ensures YearAt(s) <==>
              && |s| >= 4 && ((s[0] == '1' && s[1] == '9') || (s[0] == '2' && s[1] == '0'))
              && '0' <= s[2] <= '9' && '0' <= s[3] <= '9'
              && (|s| > 4 ==> !('0' <= s[4] <= '9' || 'a' <= s[4] <= 'z' || 'A' <= s[4] <= 'Z' || s[4] == '_'))
  {
    if |s| >= 4 {
      assert s[..2] == [s[0], s[1]];
    }
  }
}
