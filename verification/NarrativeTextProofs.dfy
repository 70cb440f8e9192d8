/** Scanning printed text gives back exactly the numbers that were printed. */
module NarrativeTextProofs {
  import opened NarrativeText

  // ----- numbers survive printing -----------------------------------------------------

  lemma AppendDigit(s: string, d: nat)
    requires AllDigits(s) && d < 10
    ensures AllDigits(s + [DigitChar(d)]) && ToNat(s + [DigitChar(d)]) == ToNat(s) * 10 + d
  {
    assert (s + [DigitChar(d)])[..|s|] == s;
  }

  lemma AppendPad2(s: string, m: nat)
    requires AllDigits(s) && m < 100
    ensures AllDigits(s + Pad2(m)) && ToNat(s + Pad2(m)) == ToNat(s) * 100 + m
  {
    AppendDigit(s, m / 10);
    AppendDigit(s + [DigitChar(m / 10)], m % 10);
    assert s + Pad2(m) == s + [DigitChar(m / 10)] + [DigitChar(m % 10)];
  }

  lemma AppendPad3(s: string, m: nat)
    requires AllDigits(s) && m < 1000
    ensures AllDigits(s + Pad3(m)) && ToNat(s + Pad3(m)) == ToNat(s) * 1000 + m
  {
    AppendDigit(s, m / 100);
    AppendDigit(s + [DigitChar(m / 100)], m / 10 % 10);
    AppendDigit(s + [DigitChar(m / 100)] + [DigitChar(m / 10 % 10)], m % 10);
    assert s + Pad3(m) == s + [DigitChar(m / 100)] + [DigitChar(m / 10 % 10)] + [DigitChar(m % 10)];
    assert m == m / 100 * 100 + m / 10 % 10 * 10 + m % 10;
  }

  lemma {:induction false} DigitsValue(n: nat)
    ensures ToNat(Digits(n)) == n
  {
    if n < 10 {
      AppendDigit("", n);
      assert "" + [DigitChar(n)] == Digits(n);
    } else {
      DigitsValue(n / 10);
      AppendDigit(Digits(n / 10), n % 10);
    }
  }

  lemma {:induction false} NoCommasAppend(a: string, b: string)
    ensures NoCommas(a + b) == NoCommas(a) + NoCommas(b)
  {
    if b == "" {
      assert a + b == a;
    } else {
      NoCommasAppend(a, b[..|b|-1]);
      assert (a + b)[..|a + b|-1] == a + b[..|b|-1];
    }
  }

  lemma {:induction false} NoCommasDigits(s: string)
    requires AllDigits(s)
    ensures NoCommas(s) == s
  {
    if s != "" { NoCommasDigits(s[..|s|-1]); }
  }

  predicate AllBody(s: string) { forall i :: 0 <= i < |s| ==> InBody(s[i]) }

  lemma {:induction false} GroupShape(n: nat)
    ensures |Group(n)| > 0 && IsDigit(Group(n)[0]) && AllBody(Group(n))
    ensures AllDigits(NoCommas(Group(n))) && ToNat(NoCommas(Group(n))) == n
  {
    if n < 1000 {
      NoCommasDigits(Digits(n));
      DigitsValue(n);
    } else {
      GroupShape(n / 1000);
      var head := Group(n / 1000) + ",";
      NoCommasAppend(Group(n / 1000), ",");
      assert NoCommas(",") == "";
      NoCommasAppend(head, Pad3(n % 1000));
      NoCommasDigits(Pad3(n % 1000));
      AppendPad3(NoCommas(Group(n / 1000)), n % 1000);
    }
  }

  lemma CentsExact(whole: string, m: nat)
    requires AllDigits(whole) && m < 100
    ensures ToCents(whole, Pad2(m)) == ToNat(whole) * 100 + m
  {
    AppendPad2(whole, m);
    assert Pow10(2) == 100 by { assert Pow10(1) == 10; }
    var x := ToNat(whole) * 100 + m;
    assert x * 100 / 100 == x && x * 100 % 100 == 0;
  }

  lemma CentsWhole(whole: string)
    requires AllDigits(whole)
    ensures ToCents(whole, "") == ToNat(whole) * 100
  {
    assert whole + "" == whole;
  }

  // ----- the patterns, as the regular expressions read ------------------------------------

  /** `\d{4}-\d{1,2}-\d{1,2}\b` matches with `a` month and `b` day digits. */
  predicate IsoMatch(s: string, a: nat, b: nat) {
    && 1 <= a <= 2 && 1 <= b <= 2 && 6 + a + b <= |s|
    && AllDigits(s[..4]) && s[4] == '-' && AllDigits(s[5..5+a]) && s[5+a] == '-' && AllDigits(s[6+a..6+a+b])
    && WordEnds(s, 6 + a + b)
  }

  /** The date pattern matches in at most one way, the one the scanner takes. */
  lemma IsoIsThePattern(s: string)
    ensures IsoLength(s) > 0 <==> exists a: nat, b: nat :: IsoMatch(s, a, b)
    ensures forall a: nat, b: nat :: IsoMatch(s, a, b) ==> IsoLength(s) == 6 + a + b
  {
    forall a: nat, b: nat | IsoMatch(s, a, b) ensures IsoLength(s) == 6 + a + b {
      assert s[5] == s[5..5+a][0] && s[5+a-1] == s[5..5+a][a-1];
      assert s[6+a] == s[6+a..6+a+b][0] && s[6+a+b-1] == s[6+a..6+a+b][b-1];
    }
    if IsoLength(s) > 0 {
      var a := if s[6] == '-' then 1 else 2;
      assert IsoMatch(s, a, IsoLength(s) - 6 - a);
    }
  }

  /** `[-+]?\d[\d,]*(?:\.\d+)?\s*%` matches with its body, fraction and blanks ending there. */
  predicate PctMatch(s: string, a: nat, b: nat, c: nat, d: nat) {
    && (a == 0 || (a == 1 && s != "" && IsSign(s[0])))
    && a < b <= c <= d < |s| && IsDigit(s[a]) && (forall i :: a <= i < b ==> InBody(s[i]))
    && (c == b || (b + 2 <= c && s[b] == '.' && forall i :: b < i < c ==> IsDigit(s[i])))
    && (forall i :: c <= i < d ==> IsSpace(s[i])) && s[d] == '%'
  }

  lemma BodyEndUnique(s: string, a: nat, b: nat)
    requires a <= b < |s| && (forall i :: a <= i < b ==> InBody(s[i])) && !InBody(s[b])
    ensures BodyEnd(s, a) == b
  {
    var u := s[a..];
    assert u[b-a] == s[b];
    assert forall i :: 0 <= i < b - a ==> u[i] == s[a+i];
  }

  lemma FractionEndUnique(s: string, b: nat, c: nat)
    requires b <= c < |s| && !IsDigit(s[c])
    requires c == b || (b + 2 <= c && s[b] == '.' && forall i :: b < i < c ==> IsDigit(s[i]))
    requires c == b ==> s[b] != '.'
    ensures FractionEnd(s, b) == c
  {
    var u := s[b..];
    assert u[0] == s[b] && u[c-b] == s[c];
    assert forall i :: 0 <= i < c - b ==> u[i] == s[b+i];
    var n := FractionRun(u);
    assert n > 0 ==> forall i :: 0 <= i < n - 1 ==> u[1..n][i] == u[1+i];
  }

  lemma SpaceEndUnique(s: string, c: nat, d: nat)
    requires c <= d < |s| && (forall i :: c <= i < d ==> IsSpace(s[i])) && !IsSpace(s[d])
    ensures SpaceEnd(s, c) == d
  {
    var u := s[c..];
    assert u[d-c] == s[d];
    assert forall i :: 0 <= i < d - c ==> u[i] == s[c+i];
  }

  /** The percent pattern matches in at most one way, however the search backtracks, and it is
      the way the scanner takes. */
  lemma PctIsThePattern(s: string, a: nat, b: nat, c: nat, d: nat)
    requires PctMatch(s, a, b, c, d)
    ensures PctLength(s) == d + 1 && PctStart(s) == a && BodyEnd(s, a) == b && FractionEnd(s, b) == c
  {
    BodyEndUnique(s, a, b);
    FractionEndUnique(s, b, c);
    SpaceEndUnique(s, c, d);
  }

  lemma BodyIsRun(s: string, a: nat)
    requires a < |s| && IsDigit(s[a])
    ensures a < BodyEnd(s, a) && forall i :: a <= i < BodyEnd(s, a) ==> InBody(s[i])
  {
    assert s[a..][0] == s[a];
    assert forall i :: a <= i < BodyEnd(s, a) ==> s[i] == s[a..][i-a];
  }

  lemma FractionIsRun(s: string, b: nat)
    requires b <= |s|
    ensures var c := FractionEnd(s, b);
            c == b || (b + 2 <= c && s[b] == '.' && forall i :: b < i < c ==> IsDigit(s[i]))
  {
    var n := FractionRun(s[b..]);
    assert forall i :: b < i < FractionEnd(s, b) ==> s[i] == s[b..][1..n][i-b-1];
    if b < FractionEnd(s, b) {
      assert s[b..][0] == s[b];
    }
  }

  lemma SpacesAreRun(s: string, c: nat)
    requires c <= |s|
    ensures forall i :: c <= i < SpaceEnd(s, c) ==> IsSpace(s[i])
  {
    assert forall i :: c <= i < SpaceEnd(s, c) ==> s[i] == s[c..][i-c];
  }

  lemma PctOnlyThePattern(s: string)
    requires PctLength(s) > 0
    ensures var a := PctStart(s); var b := BodyEnd(s, a); var c := FractionEnd(s, b);
            PctMatch(s, a, b, c, PctLength(s) - 1)
  {
    var a := PctStart(s);
    var b := BodyEnd(s, a);
    BodyIsRun(s, a);
    FractionIsRun(s, b);
    SpacesAreRun(s, FractionEnd(s, b));
  }

  // ----- runs ------------------------------------------------------------------------------

  lemma BodyEndIs(s: string, a: nat, b: nat)
    requires a <= b <= |s| && AllBody(s[a..b]) && (b < |s| ==> !InBody(s[b]))
    ensures BodyEnd(s, a) == b
  {
    var u := s[a..];
    assert forall i :: 0 <= i < b - a ==> u[i] == s[a..b][i];
    assert b < |s| ==> u[b-a] == s[b];
  }

  lemma FractionEndIs(s: string, b: nat)
    requires b + 3 <= |s| && s[b] == '.' && IsDigit(s[b+1]) && IsDigit(s[b+2]) && (b + 3 < |s| ==> !IsDigit(s[b+3]))
    ensures FractionEnd(s, b) == b + 3
  {
    var u := s[b..];
    assert u[0] == '.' && u[1] == s[b+1] && u[2] == s[b+2] && (b + 3 < |s| ==> u[3] == s[b+3]);
  }

  /** Where a printed number lies in a text. */
  predicate NumberAt(t: string, a: nat, b: nat, body: string, pad: string) {
    && a < b && b + 3 <= |t| && t[a..b] == body && AllBody(body) && t[b] == '.' && t[b+1..b+3] == pad && AllDigits(pad)
    && (b + 3 < |t| ==> !IsDigit(t[b+3]))
  }

  lemma Layout(head: string, body: string, pad: string, r: string)
    requires |pad| == 2
    ensures var t, b := head + (body + (['.'] + (pad + r))), |head| + |body|;
            && |t| == b + 3 + |r| && t[..|head|] == head && t[|head|..b] == body
            && t[b] == '.' && t[b+1..b+3] == pad && t[b+3..] == r
  {
  }

  /** A body printed as grouped (or plain) digits and two decimals is matched whole. */
  lemma RawExact(kind: Kind, negative: bool, s: string, a: nat, b: nat, body: string, pad: string)
    requires NumberAt(s, a, b, body, pad)
    ensures BodyEnd(s, a) == b && FractionEnd(s, b) == b + 3
    ensures RawAt(kind, negative, s, a) == Raw(kind, negative, NoCommas(body), pad)
  {
    assert s[b+1] == pad[0] && s[b+2] == pad[1];
    BodyEndIs(s, a, b);
    FractionEndIs(s, b);
  }

  // ----- substitution splits at characters no date can contain ----------------------------

  /** Neither a word character nor a dash. */
  predicate Break(c: char) { !IsWord(c) && c != '-' }

  predicate EndsBroken(s: string) { s != "" && Break(s[|s|-1]) }

  /** No match of the pattern reaches the end of a text that ends in a break. */
  ghost predicate StopsAtBreaks(len: string -> nat) {
    forall a: string, b: string {:trigger Joint(a, b)} :: Joint(a, b) && EndsBroken(a) ==> len(a + b) == len(a) < |a|
  }

  /** Marks a place where a text is cut in two. */
  ghost predicate Joint(a: string, b: string) { true }

  lemma CutJoin(a: string, b: string, n: nat)
    requires n < |a| && EndsBroken(a)
    ensures (a + b)[n..] == a[n..] + b && EndsBroken(a[n..]) && (a + b)[0] == a[0]
    ensures a[n..][|a[n..]|-1] == a[|a|-1]
  {
  }

  lemma SubStep(len: string -> nat, w: bool, s: string)
    requires s != ""
    ensures !w && 0 < len(s) <= |s| ==> Sub(len, w, s) == " " + Sub(len, true, s[len(s)..])
    ensures w || len(s) == 0 ==> Sub(len, w, s) == [s[0]] + Sub(len, IsWord(s[0]), s[1..])
  {
  }

  lemma Prepended(c: string, x: string, y: string)
    requires |c| == 1 && EndsBroken(x)
    ensures c + (x + y) == (c + x) + y && EndsBroken(c + x) && (c + x)[|c + x|-1] == x[|x|-1]
  {
  }

  lemma {:induction false} SubSplit(len: string -> nat, w: bool, a: string, b: string)
    requires StopsAtBreaks(len) && EndsBroken(a)
    ensures Sub(len, w, a + b) == Sub(len, w, a) + Sub(len, false, b)
    ensures EndsBroken(Sub(len, w, a)) && Sub(len, w, a)[|Sub(len, w, a)|-1] == a[|a|-1]
    decreases |a|
  {
    assert Joint(a, b);
    assert len(a + b) == len(a) < |a|;
    SubStep(len, w, a + b);
    SubStep(len, w, a);
    CutJoin(a, b, 0);
    if !w && len(a) > 0 {
      CutJoin(a, b, len(a));
      SubSplit(len, true, a[len(a)..], b);
      Prepended(" ", Sub(len, true, a[len(a)..]), Sub(len, false, b));
    } else if |a| == 1 {
      LastCut(a, b);
    } else {
      CutJoin(a, b, 1);
      SubSplit(len, IsWord(a[0]), a[1..], b);
      Prepended([a[0]], Sub(len, IsWord(a[0]), a[1..]), Sub(len, false, b));
    }
  }

  lemma LastCut(a: string, b: string)
    requires |a| == 1
    ensures (a + b)[1..] == b && a[1..] == "" && a == [a[0]]
  {
  }

  lemma {:induction false} SubPlain(len: string -> nat, w: bool, s: string)
    requires Plain(s)
    ensures Plain(Sub(len, w, s))
    decreases |s|
  {
    if s != "" {
      var n := len(s);
      if !w && 0 < n <= |s| {
        SubPlain(len, true, s[n..]);
      } else {
        SubPlain(len, IsWord(s[0]), s[1..]);
      }
    }
  }

  lemma IsoTailLocal(a: string, b: string, p: nat)
    requires EndsBroken(a) && p < |a|
    ensures IsoTail(a + b, p) == IsoTail(a, p) && IsoTail(a, p) < |a|
  {
    var s := a + b;
    assert forall i :: 0 <= i < |a| ==> s[i] == a[i];
    assert !IsDigit(a[|a|-1]);
  }

  lemma IsoLengthLocal(a: string, b: string)
    requires EndsBroken(a)
    ensures IsoLength(a + b) == IsoLength(a) && IsoLength(a) < |a|
  {
    var s := a + b;
    assert forall i :: 0 <= i < |a| ==> s[i] == a[i];
    var last := a[|a|-1];
    assert !IsDigit(last) && last != '-';
    if |a| >= 8 {
      assert s[..4] == a[..4];
      IsoTailLocal(a, b, 7);
      if |a| > 8 {
        IsoTailLocal(a, b, 8);
      }
    } else if |s| >= 8 {
      assert s[|a|-1] == last;
      if |a| <= 4 {
        assert s[..4][|a|-1] == last;
      }
    }
  }

  lemma YearAtLocal(a: string, b: string)
    requires EndsBroken(a)
    ensures YearAt(a + b) == YearAt(a) && (YearAt(a) ==> |a| > 4)
  {
    var s := a + b;
    assert forall i :: 0 <= i < |a| ==> s[i] == a[i];
    if |s| >= 4 {
      if |a| >= 2 {
        assert s[..2] == a[..2];
      } else {
        assert s[..2][0] == a[0];
      }
    }
  }

  lemma DatesStopAtBreaks()
    ensures StopsAtBreaks(Iso()) && StopsAtBreaks(Year())
  {
    forall a: string, b: string | EndsBroken(a)
      ensures Iso()(a + b) == Iso()(a) < |a| && Year()(a + b) == Year()(a) < |a|
    {
      IsoLengthLocal(a, b);
      YearAtLocal(a, b);
    }
  }

  lemma CleanSplit(a: string, b: string)
    requires EndsBroken(a)
    ensures Clean(a + b) == Clean(a) + Clean(b)
    ensures EndsBroken(Clean(a)) && Clean(a)[|Clean(a)|-1] == a[|a|-1]
  {
    DatesStopAtBreaks();
    SubSplit(Iso(), false, a, b);
    SubSplit(Year(), false, Sub(Iso(), false, a), Sub(Iso(), false, b));
  }

  lemma CleanPlain(s: string)
    requires Plain(s)
    ensures Plain(Clean(s))
  {
    SubPlain(Iso(), false, s);
    SubPlain(Year(), false, Sub(Iso(), false, s));
  }

  // ----- substitution over a run of digits ---------------------------------------------------

  /** The digits of a year from 1900 to 2099. */
  predicate YearDigits(d: string) {
    |d| == 4 && (d[..2] == "19" || d[..2] == "20")
  }

  function YearBlanked(d: string): string { if YearDigits(d) then " " else d }

  predicate Stopped(s: string) { s == "" || Break(s[0]) }

  lemma SubStopped(len: string -> nat, w: bool, s: string)
    requires StopsAtBreaks(len) && Stopped(s)
    ensures Sub(len, w, s) == Sub(len, false, s) && Stopped(Sub(len, w, s))
    ensures s != "" ==> Sub(len, w, s) == [s[0]] + Sub(len, false, s[1..])
  {
    if s != "" {
      assert s == [s[0]] + s[1..];
      assert Joint([s[0]], s[1..]);
      assert len([s[0]] + s[1..]) == len([s[0]]) < 1;
    }
  }

  /** Inside a word nothing matches. */
  lemma {:induction false} SubInWord(len: string -> nat, d: string, s: string)
    requires StopsAtBreaks(len) && AllDigits(d) && Stopped(s)
    ensures Sub(len, true, d + s) == d + Sub(len, false, s)
    decreases |d|
  {
    if d == "" {
      assert d + s == s;
      SubStopped(len, true, s);
    } else {
      assert (d + s)[1..] == d[1..] + s;
      SubInWord(len, d[1..], s);
    }
  }

  lemma SubAfterFirst(len: string -> nat, d: string, s: string)
    requires StopsAtBreaks(len) && AllDigits(d) && d != "" && Stopped(s) && len(d + s) == 0
    ensures Sub(len, false, d + s) == d + Sub(len, false, s)
  {
    var t, rest := d + s, Sub(len, false, s);
    assert t[1..] == d[1..] + s && t[0] == d[0] && IsWord(d[0]);
    SubInWord(len, d[1..], s);
    SubStep(len, false, t);
    assert [d[0]] + (d[1..] + rest) == d + rest;
  }

  lemma IsoAtDigits(d: string, s: string)
    requires AllDigits(d) && d != "" && Stopped(s)
    ensures IsoLength(d + s) == 0
  {
    var t := d + s;
    if |t| >= 8 {
      if |d| > 4 {
        assert t[4] == d[4];
      } else if |d| == 4 {
        assert t[4] == s[0];
      } else {
        assert t[..4][|d|] == s[0];
      }
    }
  }

  lemma YearAtDigits(d: string, s: string)
    requires AllDigits(d) && d != "" && Stopped(s)
    ensures YearAt(d + s) <==> YearDigits(d)
  {
    var t := d + s;
    if |d| >= 4 {
      assert t[..2] == d[..2];
      assert |d| > 4 ==> t[4] == d[4];
      assert |d| == 4 && s != "" ==> t[4] == s[0];
    } else if |t| >= 4 {
      assert t[|d|] == s[0];
      if |d| < 2 {
        assert t[..2][|d|] == s[0];
      }
    }
  }

  lemma SubSign(len: string -> nat, sign: string, s: string)
    requires |sign| <= 1 && (sign != "" ==> IsSign(sign[0]) && len(sign + s) == 0)
    ensures Sub(len, false, sign + s) == sign + Sub(len, false, s)
  {
    if sign == "" {
      assert sign + s == s;
    } else {
      assert (sign + s)[1..] == s && [sign[0]] == sign;
    }
  }

  lemma NoDateAtSign(sign: string, s: string)
    requires |sign| == 1 && IsSign(sign[0])
    ensures IsoLength(sign + s) == 0 && !YearAt(sign + s)
  {
    var t := sign + s;
    assert t[0] == sign[0];
    if |t| >= 4 {
      assert t[..4][0] == sign[0] && t[..2][0] == sign[0];
    }
  }

  /** A digit run loses only a whole year; a sign in front does not matter. */
  lemma CleanDigits(sign: string, d: string, s: string)
    requires |sign| <= 1 && (sign != "" ==> IsSign(sign[0]))
    requires d != "" && AllDigits(d) && Stopped(s)
    ensures Clean(sign + (d + s)) == sign + (YearBlanked(d) + Clean(s))
  {
    DatesStopAtBreaks();
    var s' := Sub(Iso(), false, s);
    SubStopped(Iso(), false, s);
    if sign != "" {
      NoDateAtSign(sign, d + s);
      NoDateAtSign(sign, d + s');
    }
    SubSign(Iso(), sign, d + s);
    IsoAtDigits(d, s);
    SubAfterFirst(Iso(), d, s);
    SubSign(Year(), sign, d + s');
    YearRun(d, s');
  }

  lemma YearRun(d: string, s: string)
    requires d != "" && AllDigits(d) && Stopped(s)
    ensures Sub(Year(), false, d + s) == YearBlanked(d) + Sub(Year(), false, s)
  {
    DatesStopAtBreaks();
    YearAtDigits(d, s);
    if YearDigits(d) {
      assert (d + s)[4..] == s;
      SubStopped(Year(), true, s);
    } else {
      SubAfterFirst(Year(), d, s);
    }
  }

  lemma CleanFirst(c: char, s: string)
    requires Break(c)
    ensures Clean([c] + s) == [c] + Clean(s)
  {
    DatesStopAtBreaks();
    var t := [c] + s;
    assert t[1..] == s;
    SubStopped(Iso(), false, t);
    var u := [c] + Sub(Iso(), false, s);
    assert u[1..] == Sub(Iso(), false, s);
    SubStopped(Year(), false, u);
  }

  // ----- cleaning printed money and percents ----------------------------------------------------

  /** What the cleaning step does to printed text, as far as the proofs below need it. */
  ghost predicate CleansLike(clean: string -> string) {
    && (forall c: char, s: string {:trigger clean([c] + s)} :: Break(c) ==> clean([c] + s) == [c] + clean(s))
    && (forall d: string, s: string {:trigger clean(d + s)} ::
          0 < |d| <= 3 && AllDigits(d) && Stopped(s) ==> clean(d + s) == d + clean(s))
  }

  function Cleaner(): string -> string { s => Clean(s) }

  lemma CleanerCleans()
    ensures CleansLike(Cleaner())
  {
    forall c: char, s: string | Break(c) ensures Cleaner()([c] + s) == [c] + Cleaner()(s) {
      CleanFirst(c, s);
    }
    forall d: string, s: string | 0 < |d| <= 3 && AllDigits(d) && Stopped(s)
      ensures Cleaner()(d + s) == d + Cleaner()(s)
    {
      CleanDigits("", d, s);
      assert "" + (d + s) == d + s;
    }
  }

  lemma {:induction false} DigitsLength(n: nat)
    ensures |Digits(n)| == 1 <==> n <= 9
    ensures |Digits(n)| == 2 <==> 10 <= n <= 99
    ensures |Digits(n)| == 3 <==> 100 <= n <= 999
    ensures |Digits(n)| == 4 <==> 1000 <= n <= 9999
  {
    if n >= 10 { DigitsLength(n / 10); }
  }

  lemma FirstTwoDigits(n: nat)
    requires 1000 <= n <= 9999
    ensures |Digits(n)| == 4 && Digits(n)[..2] == [DigitChar(n / 1000), DigitChar(n / 100 % 10)]
  {
    DigitsLength(n);
    assert Digits(n / 10) == Digits(n / 100) + [DigitChar(n / 10 % 10)];
    assert Digits(n / 100) == Digits(n / 1000) + [DigitChar(n / 100 % 10)];
    assert Digits(n / 1000) == [DigitChar(n / 1000)];
  }

  lemma Nineteen(x: nat, y: nat)
    requires x < 10 && y < 10
    ensures [DigitChar(x), DigitChar(y)] == "19" <==> x == 1 && y == 9
    ensures [DigitChar(x), DigitChar(y)] == "20" <==> x == 2 && y == 0
  {
    assert DigitChar(1) == '1' && DigitChar(9) == '9' && DigitChar(2) == '2' && DigitChar(0) == '0';
  }

  lemma Centuries(n: nat)
    requires 1000 <= n <= 9999
    ensures (n / 1000 == 1 && n / 100 % 10 == 9) || (n / 1000 == 2 && n / 100 % 10 == 0) <==> 1900 <= n <= 2099
  {
  }

  lemma YearDigitsRange(n: nat)
    ensures YearDigits(Digits(n)) <==> 1900 <= n <= 2099
  {
    DigitsLength(n);
    if 1000 <= n <= 9999 {
      FirstTwoDigits(n);
      Nineteen(n / 1000, n / 100 % 10);
      Centuries(n);
    }
  }

  /** Comma groups never contain a year. */
  lemma {:induction false} CleanGroup(clean: string -> string, n: nat, s: string)
    requires CleansLike(clean) && Stopped(s)
    ensures clean(Group(n) + s) == Group(n) + clean(s)
    decreases n
  {
    if n < 1000 {
      DigitsLength(n);
    } else {
      var pad := Pad3(n % 1000);
      var rest := [','] + (pad + s);
      CleanGroup(clean, n / 1000, rest);
      assert clean(rest) == [','] + clean(pad + s);
      Regroup(Group(n / 1000), pad, s, clean(s));
    }
  }

  lemma Regroup(g: string, pad: string, s: string, t: string)
    ensures g + "," + pad + s == g + ([','] + (pad + s))
    ensures g + "," + pad + t == g + ([','] + (pad + t))
  {
  }

  /** The dollar sign with its minus, if any. */
  function Dollar(cents: int): string { if cents < 0 then "-$" else "$" }

  lemma FmtShape(cents: int, s: string)
    ensures Fmt(cents, "USD") + s == Dollar(cents) + (Group(Abs(cents) / 100) + (['.'] + (Pad2(Abs(cents) % 100) + s)))
  {
  }

  lemma CleanDollar(cents: int, s: string)
    ensures Clean(Dollar(cents) + s) == Dollar(cents) + Clean(s)
  {
    DatesStopAtBreaks();
    CleanFirst('$', s);
    if cents < 0 {
      var t := ['$'] + Sub(Iso(), false, s);
      assert "-$" + s == "-" + (['$'] + s);
      NoDateAtSign("-", ['$'] + s);
      SubSign(Iso(), "-", ['$'] + s);
      assert (['$'] + s)[1..] == s;
      SubStopped(Iso(), false, ['$'] + s);
      NoDateAtSign("-", t);
      SubSign(Year(), "-", t);
      assert t[1..] == Sub(Iso(), false, s);
      SubStopped(Year(), false, t);
    }
  }

  lemma CleanFmt(cents: int, s: string)
    requires Stopped(s)
    ensures Clean(Fmt(cents, "USD") + s) == Fmt(cents, "USD") + Clean(s)
  {
    var tail := ['.'] + (Pad2(Abs(cents) % 100) + s);
    FmtShape(cents, s);
    CleanDollar(cents, Group(Abs(cents) / 100) + tail);
    CleanTail(Group(Abs(cents) / 100), Abs(cents) / 100, Pad2(Abs(cents) % 100), s);
    FmtShape(cents, Clean(s));
  }

  lemma CleanTail(g: string, n: nat, pad: string, s: string)
    requires g == Group(n) && |pad| == 2 && AllDigits(pad) && Stopped(s)
    ensures Clean(g + (['.'] + (pad + s))) == g + (['.'] + (pad + Clean(s)))
  {
    CleanerCleans();
    var clean := Cleaner();
    CleanGroup(clean, n, ['.'] + (pad + s));
    assert clean(['.'] + (pad + s)) == ['.'] + clean(pad + s);
  }

  predicate YearLike(hundredths: nat) { 1900 <= hundredths / 100 <= 2099 }

  function SignText(negative: bool): string { if negative then "-" else "+" }

  /** The whole part of a printed percent after cleaning: a year-like one is gone. */
  function CleanedWhole(h: nat): string { if YearLike(h) then " " else Digits(h / 100) }

  function CleanedPct(negative: bool, h: nat): string {
    SignText(negative) + (CleanedWhole(h) + (['.'] + (Pad2(h % 100) + "%")))
  }

  lemma PctShape(negative: bool, h: nat, s: string)
    ensures FmtPct(negative, h) + s == SignText(negative) + (Digits(h / 100) + (['.'] + (Pad2(h % 100) + (['%'] + s))))
    ensures CleanedPct(negative, h) + s
            == SignText(negative) + (CleanedWhole(h) + (['.'] + (Pad2(h % 100) + (['%'] + s))))
  {
  }

  lemma CleanPct(negative: bool, h: nat, s: string)
    ensures Clean(FmtPct(negative, h) + s) == CleanedPct(negative, h) + Clean(s)
  {
    var pad := Pad2(h % 100);
    var tail := ['.'] + (pad + (['%'] + s));
    PctShape(negative, h, s);
    PctShape(negative, h, Clean(s));
    CleanDigits(SignText(negative), Digits(h / 100), tail);
    YearDigitsRange(h / 100);
    PctTail(pad, s);
  }

  lemma PctTail(pad: string, s: string)
    requires |pad| == 2 && AllDigits(pad)
    ensures Clean(['.'] + (pad + (['%'] + s))) == ['.'] + (pad + (['%'] + Clean(s)))
  {
    CleanerCleans();
    var clean := Cleaner();
    assert clean(['.'] + (pad + (['%'] + s))) == ['.'] + clean(pad + (['%'] + s));
    assert clean(pad + (['%'] + s)) == pad + clean(['%'] + s);
    assert clean(['%'] + s) == ['%'] + clean(s);
  }

  // ----- searching around printed tokens ----------------------------------------------------------

  /** Text that matches nowhere is skipped. */
  lemma {:induction false} FindSkips(len: string -> nat, token: string -> Raw, a: string, r: string)
    requires forall i :: 0 <= i < |a| ==> len(a[i..] + r) == 0
    ensures Find(len, token, a + r) == Find(len, token, r)
    ensures Blank(len, a + r) == a + Blank(len, r)
  {
    if a == "" {
      assert a + r == r;
    } else {
      assert a[0..] == a;
      assert (a + r)[1..] == a[1..] + r;
      forall i | 0 <= i < |a| - 1 ensures len(a[1..][i..] + r) == 0 {
        assert a[1..][i..] == a[i+1..];
      }
      FindSkips(len, token, a[1..], r);
    }
  }

  lemma FindTakes(len: string -> nat, token: string -> Raw, t: string, r: string)
    requires t != "" && len(t + r) == |t|
    ensures Find(len, token, t + r) == [token(t + r)] + Find(len, token, r)
    ensures Blank(len, t + r) == " " + Blank(len, r)
  {
    assert (t + r)[|t|..] == r;
  }

  /** Text without percent marks, up to the end or to the sign of the next percent. */
  lemma NoPctBefore(a: string, r: string)
    requires a != "" && '%' !in a && (r == "" || IsSign(r[0]))
    ensures PctLength(a + r) == 0
  {
    var t := a + r;
    assert forall i :: 0 <= i < |a| ==> t[i] == a[i];
    assert r != "" ==> t[|a|] == r[0];
  }

  lemma PctSkips(a: string, r: string)
    requires '%' !in a && (r == "" || IsSign(r[0]))
    ensures Find(Pct(), PctToken(), a + r) == Find(Pct(), PctToken(), r)
    ensures Blank(Pct(), a + r) == a + Blank(Pct(), r)
  {
    forall i | 0 <= i < |a| ensures Pct()(a[i..] + r) == 0 {
      NoPctBefore(a[i..], r);
    }
    FindSkips(Pct(), PctToken(), a, r);
  }

  /** The scanned form of a printed percent. */
  function PctRawOf(negative: bool, h: nat): Raw {
    if YearLike(h) then Raw(Percent, false, Pad2(h % 100), "")
    else Raw(Percent, negative, Digits(h / 100), Pad2(h % 100))
  }

  /** What stays of it once percents are blanked. */
  function PctRest(negative: bool, h: nat): string {
    if YearLike(h) then SignText(negative) + " . " else " "
  }

  lemma PctUnfolded(t: string, a: nat, c: nat)
    requires a == PctStart(t) < |t| && IsDigit(t[a]) && FractionEnd(t, BodyEnd(t, a)) == c
    requires c < |t| && t[c] == '%'
    ensures PctLength(t) == c + 1
  {
    assert t[c..][0] == '%';
    assert SpaceRun(t[c..]) == 0;
  }

  lemma PlainPctMatched(negative: bool, h: nat, r: string)
    ensures var t := SignText(negative) + (Digits(h / 100) + (['.'] + (Pad2(h % 100) + (['%'] + r))));
            && PctLength(t) == |Digits(h / 100)| + 5
            && PctRaw(t) == Raw(Percent, negative, Digits(h / 100), Pad2(h % 100))
  {
    var d, pad := Digits(h / 100), Pad2(h % 100);
    var t, b := SignText(negative) + (d + (['.'] + (pad + (['%'] + r)))), 1 + |d|;
    PctPlace(negative, d, pad, ['%'] + r);
    RawExact(Percent, negative, t, 1, b, d, pad);
    PctUnfolded(t, 1, b + 3);
    NoCommasDigits(d);
  }

  lemma PctPlace(negative: bool, d: string, pad: string, pct: string)
    requires d != "" && AllDigits(d) && |pad| == 2 && AllDigits(pad) && pct != "" && pct[0] == '%'
    ensures var t := SignText(negative) + (d + (['.'] + (pad + pct)));
            && NumberAt(t, 1, 1 + |d|, d, pad) && |t| > |d| + 4 && t[0] == SignText(negative)[0]
            && t[1] == d[0] && t[1 + |d| + 3] == '%'
  {
    var t := SignText(negative) + (d + (['.'] + (pad + pct)));
    Layout(SignText(negative), d, pad, pct);
    assert t[1] == t[1..1+|d|][0] && t[0] == t[..1][0];
    assert t[1 + |d| + 3] == t[1 + |d| + 3..][0];
  }

  lemma BrokenPctMatched(pad: string, r: string)
    requires |pad| == 2 && AllDigits(pad)
    ensures PctLength(pad + (['%'] + r)) == 3
    ensures PctRaw(pad + (['%'] + r)) == Raw(Percent, false, pad, "")
    ensures (pad + (['%'] + r))[3..] == r
  {
    var t := pad + (['%'] + r);
    assert t[0] == pad[0] && t[2] == '%' && t[0..2] == pad;
    BodyEndIs(t, 0, 2);
    assert t[2..][0] == '%';
    assert FractionRun(t[2..]) == 0;
    PctUnfolded(t, 0, 2);
    NoCommasDigits(pad);
  }

  /** A cleaned percent is found, and blanked, as one token. */
  lemma PctFound(negative: bool, h: nat, r: string)
    ensures Find(Pct(), PctToken(), CleanedPct(negative, h) + r) == [PctRawOf(negative, h)] + Find(Pct(), PctToken(), r)
    ensures Blank(Pct(), CleanedPct(negative, h) + r) == PctRest(negative, h) + Blank(Pct(), r)
  {
    PctShape(negative, h, r);
    if YearLike(h) {
      BrokenPctFound(SignText(negative), Pad2(h % 100), r);
    } else {
      PlainPctMatched(negative, h, r);
      var t := SignText(negative) + (Digits(h / 100) + (['.'] + (Pad2(h % 100) + "%")));
      assert CleanedPct(negative, h) == t;
      FindTakes(Pct(), PctToken(), t, r);
    }
  }

  /** A sign, a blank or a point before anything but a digit starts no percent. */
  lemma NoPctAt(u: string)
    requires u != "" && !IsDigit(u[0]) && (IsSign(u[0]) ==> |u| > 1 && !IsDigit(u[1]))
    ensures PctLength(u) == 0
  {
  }

  lemma NoPctInBroken(sign: string, body: string)
    requires |sign| == 1 && IsSign(sign[0])
    ensures forall i :: 0 <= i < 3 ==> Pct()((sign + " .")[i..] + body) == 0
  {
    var a := sign + " .";
    forall i | 0 <= i < 3 ensures Pct()(a[i..] + body) == 0 {
      var u := a[i..] + body;
      assert u[0] == a[i] && (i == 0 ==> u[1] == a[1]);
      NoPctAt(u);
    }
  }

  lemma FindThrough(len: string -> nat, token: string -> Raw, a: string, t: string, r: string)
    requires forall i :: 0 <= i < |a| ==> len(a[i..] + (t + r)) == 0
    requires t != "" && len(t + r) == |t|
    ensures Find(len, token, a + (t + r)) == [token(t + r)] + Find(len, token, r)
    ensures Blank(len, a + (t + r)) == a + (" " + Blank(len, r))
  {
    FindSkips(len, token, a, t + r);
    FindTakes(len, token, t, r);
  }

  lemma BrokenPctFound(sign: string, pad: string, r: string)
    requires |sign| == 1 && IsSign(sign[0]) && |pad| == 2 && AllDigits(pad)
    ensures var t := sign + (" " + (['.'] + (pad + (['%'] + r))));
            && Find(Pct(), PctToken(), t) == [Raw(Percent, false, pad, "")] + Find(Pct(), PctToken(), r)
            && Blank(Pct(), t) == sign + " . " + Blank(Pct(), r)
  {
    var t := pad + "%";
    Reassociate(sign, pad, r);
    NoPctInBroken(sign, t + r);
    BrokenPctMatched(pad, r);
    FindThrough(Pct(), PctToken(), sign + " .", t, r);
    Respace(sign, Blank(Pct(), r));
  }

  lemma Reassociate(sign: string, pad: string, r: string)
    ensures sign + (" " + (['.'] + (pad + (['%'] + r)))) == (sign + " .") + ((pad + "%") + r)
    ensures pad + (['%'] + r) == (pad + "%") + r
  {
  }

  lemma Respace(sign: string, u: string)
    ensures (sign + " .") + (" " + u) == sign + " . " + u
  {
  }

  // ----- searching for money -------------------------------------------------------------------------

  /** Text without dollar signs that does not end in an opening mark of a money token. */
  predicate BeforeMoney(a: string) {
    '$' !in a && (a == "" || (a[|a|-1] != '(' && !IsSign(a[|a|-1])))
  }

  lemma NoMoneyBefore(a: string, r: string)
    requires a != "" && BeforeMoney(a)
    ensures MoneyLength(a + r) == 0
  {
    var t := a + r;
    assert forall i :: 0 <= i < |a| ==> t[i] == a[i];
    assert forall i :: 0 <= i < |a| ==> a[i] != '$';
  }

  lemma MoneySkips(a: string, r: string)
    requires BeforeMoney(a)
    ensures Find(Dollars(), MoneyToken(), a + r) == Find(Dollars(), MoneyToken(), r)
  {
    forall i | 0 <= i < |a| ensures Dollars()(a[i..] + r) == 0 {
      assert a[i..][|a[i..]|-1] == a[|a|-1];
      NoMoneyBefore(a[i..], r);
    }
    FindSkips(Dollars(), MoneyToken(), a, r);
  }

  lemma NoMoneyWithoutDollar(a: string)
    requires '$' !in a
    ensures Find(Dollars(), MoneyToken(), a) == []
  {
    forall i | 0 <= i < |a| ensures Dollars()(a[i..] + "") == 0 {
      assert a[i..] + "" == a[i..];
    }
    FindSkips(Dollars(), MoneyToken(), a, "");
    assert a + "" == a;
  }

  function MoneyRawOf(cents: int): Raw {
    Raw(Money, cents < 0, NoCommas(Group(Abs(cents) / 100)), Pad2(Abs(cents) % 100))
  }

  /** What may follow a printed amount: not a digit, and not a bracket that would be swallowed. */
  predicate AfterMoney(r: string) { r == "" || (Break(r[0]) && r[0] != ')') }

  lemma MoneyUnfolded(t: string, a: nat, c: nat)
    requires a == DollarAt(t) + 1 < |t| && t[a-1] == '$' && IsDigit(t[a])
    requires c == FractionEnd(t, BodyEnd(t, a)) && (c < |t| ==> t[c] != ')')
    ensures MoneyLength(t) == c
  {
  }

  lemma MoneyPlace(t: string, dollar: string, g: string, pad: string, r: string)
    requires dollar == "$" || dollar == "-$"
    requires g != "" && IsDigit(g[0]) && AllBody(g) && |pad| == 2 && AllDigits(pad) && AfterMoney(r)
    requires t == dollar + (g + (['.'] + (pad + r)))
    ensures var a := |dollar|;
            && NumberAt(t, a, a + |g|, g, pad) && a == DollarAt(t) + 1 && t[a-1] == '$' && IsDigit(t[a])
            && t[0] == dollar[0] && (a + |g| + 3 < |t| ==> t[a + |g| + 3] != ')')
  {
    var a := |dollar|;
    Layout(dollar, g, pad, r);
    assert forall i :: 0 <= i < a ==> t[i] == t[..a][i];
    assert t[a] == t[a..a+|g|][0];
    assert r != "" ==> t[a + |g| + 3] == t[a + |g| + 3..][0];
  }

  lemma MoneyCore(t: string, dollar: string, a: nat, g: string, pad: string)
    requires dollar == "$" || dollar == "-$"
    requires NumberAt(t, a, a + |g|, g, pad) && a == |dollar| == DollarAt(t) + 1 && t[a-1] == '$' && IsDigit(t[a])
    requires t[0] == dollar[0] && (a + |g| + 3 < |t| ==> t[a + |g| + 3] != ')')
    ensures MoneyLength(t) == a + |g| + 3 && MoneyRaw(t) == Raw(Money, dollar == "-$", NoCommas(g), pad)
  {
    RawExact(Money, dollar == "-$", t, a, a + |g|, g, pad);
    MoneyUnfolded(t, a, a + |g| + 3);
    MoneySign(t, dollar, a);
  }

  lemma MoneySign(t: string, dollar: string, a: nat)
    requires dollar == "$" || dollar == "-$"
    requires a == |dollar| == DollarAt(t) + 1 < |t| && t[0] == dollar[0] && t[a-1] == '$'
    ensures MoneyRaw(t) == RawAt(Money, dollar == "-$", t, a)
  {
  }

  lemma PartsMatched(t: string, dollar: string, g: string, pad: string, r: string)
    requires dollar == "$" || dollar == "-$"
    requires g != "" && IsDigit(g[0]) && AllBody(g) && |pad| == 2 && AllDigits(pad) && AfterMoney(r)
    requires t == dollar + (g + (['.'] + (pad + r)))
    ensures MoneyLength(t) == |dollar| + |g| + 3 && MoneyRaw(t) == Raw(Money, dollar == "-$", NoCommas(g), pad)
  {
    MoneyPlace(t, dollar, g, pad, r);
    MoneyCore(t, dollar, |dollar|, g, pad);
  }

  lemma MoneyMatched(t: string, cents: int, r: string)
    requires AfterMoney(r) && t == Fmt(cents, "USD") + r
    ensures MoneyLength(t) == |Fmt(cents, "USD")| && MoneyRaw(t) == MoneyRawOf(cents)
  {
    FmtShape(cents, r);
    GroupShape(Abs(cents) / 100);
    PartsMatched(t, Dollar(cents), Group(Abs(cents) / 100), Pad2(Abs(cents) % 100), r);
    FmtLength(cents);
  }

  lemma FmtLength(cents: int)
    ensures |Fmt(cents, "USD")| == |Dollar(cents)| + |Group(Abs(cents) / 100)| + 3
  {
  }

  lemma MoneyFound(cents: int, r: string)
    requires AfterMoney(r)
    ensures Find(Dollars(), MoneyToken(), Fmt(cents, "USD") + r) == [MoneyRawOf(cents)] + Find(Dollars(), MoneyToken(), r)
  {
    MoneyMatched(Fmt(cents, "USD") + r, cents, r);
    FindTakes(Dollars(), MoneyToken(), Fmt(cents, "USD"), r);
  }

  // ----- values ----------------------------------------------------------------------------------------

  /** The token a printed amount scans as: the amount itself. */
  lemma MoneyValue(cents: int)
    ensures Normalised(MoneyRawOf(cents)) == Token(Money, cents)
  {
    GroupShape(Abs(cents) / 100);
    CentsExact(NoCommas(Group(Abs(cents) / 100)), Abs(cents) % 100);
  }

  /** The value of a printed percent as scanned: without its year-like whole part the
      two decimals are all that is left, read as whole percents. */
  function ScannedPct(negative: bool, h: nat): int {
    var v: int := h;
    if YearLike(h) then h % 100 * 100 else if negative then -v else v
  }

  lemma PctValue(negative: bool, h: nat)
    ensures Normalised(PctRawOf(negative, h)) == Token(Percent, ScannedPct(negative, h))
  {
    if YearLike(h) {
      CentsWhole(Pad2(h % 100));
      AppendPad2("", h % 100);
      assert "" + Pad2(h % 100) == Pad2(h % 100);
    } else {
      DigitsValue(h / 100);
      CentsExact(Digits(h / 100), h % 100);
    }
  }
}
