/** Printing money and percentages, and scanning them back out of prose. */
module NarrativeText {
  import opened Accounts

  // ----- character classes ---------------------------------------------------------

  predicate IsDigit(c: char) { '0' <= c <= '9' }

  predicate IsWord(c: char) { IsDigit(c) || 'a' <= c <= 'z' || 'A' <= c <= 'Z' || c == '_' }

  predicate IsSpace(c: char) { c == ' ' || '\t' <= c <= '\r' || '\U{1C}' <= c <= '\U{1F}' }

  predicate IsSign(c: char) { c == '+' || c == '-' }

  predicate AllDigits(s: string) { forall i :: 0 <= i < |s| ==> IsDigit(s[i]) }

  /** No money and no percent token can start here. */
  predicate Plain(s: string) { '$' !in s && '%' !in s }

  // ----- numbers as text -------------------------------------------------------------

  function DigitChar(d: nat): (c: char)
    requires d < 10
    ensures IsDigit(c) && c as int - '0' as int == d
  {
    ('0' as int + d) as char
  }

  function Digits(n: nat): (s: string)
    ensures |s| > 0 && AllDigits(s)
  {
    if n < 10 then [DigitChar(n)] else Digits(n / 10) + [DigitChar(n % 10)]
  }

  function Pad2(n: nat): (s: string)
    requires n < 100
    ensures |s| == 2 && AllDigits(s)
  {
    [DigitChar(n / 10), DigitChar(n % 10)]
  }

  function Pad3(n: nat): (s: string)
    requires n < 1000
    ensures |s| == 3 && AllDigits(s)
  {
    [DigitChar(n / 100), DigitChar(n / 10 % 10), DigitChar(n % 10)]
  }

  /** Thousands grouping, the `,` of a format specification. */
  function Group(n: nat): string {
    if n < 1000 then Digits(n) else Group(n / 1000) + "," + Pad3(n % 1000)
  }

  function Abs(n: int): nat { if n < 0 then -n else n }

  /** `_fmt` of an amount already quantized to cents. */
  function Fmt(cents: int, currency: string): string {
    (if cents < 0 then "-" else "") + (if currency == "USD" then "$" else currency + " ")
    + Group(Abs(cents) / 100) + "." + Pad2(Abs(cents) % 100)
  }

  /** `{:+.2f}%`; a negative zero keeps its sign. */
  function FmtPct(negative: bool, hundredths: nat): string {
    (if negative then "-" else "+") + Digits(hundredths / 100) + "." + Pad2(hundredths % 100) + "%"
  }

  // ----- decimal text to cents ----------------------------------------------------------

  function ToNat(s: string): nat
    requires AllDigits(s)
  {
    if s == "" then 0 else ToNat(s[..|s|-1]) * 10 + (s[|s|-1] as int - '0' as int)
  }

  function NoCommas(s: string): string {
    if s == "" then ""
    else if s[|s|-1] == ',' then NoCommas(s[..|s|-1])
    else NoCommas(s[..|s|-1]) + [s[|s|-1]]
  }

  function Pow10(k: nat): (p: nat)
    ensures p > 0
  {
    if k == 0 then 1 else 10 * Pow10(k - 1)
  }

  /** n / d rounded to the nearest integer, ties to even. */
  function HalfEven(n: nat, d: nat): nat
    requires d > 0
  {
    var q, r := n / d, n % d;
    if 2 * r < d then q else if 2 * r > d then q + 1 else if q % 2 == 0 then q else q + 1
  }

  /** `Decimal(whole.fraction)` quantized to hundredths. */
  function ToCents(whole: string, fraction: string): nat
    requires AllDigits(whole) && AllDigits(fraction)
  {
    HalfEven(ToNat(whole + fraction) * 100, Pow10(|fraction|))
  }

  // ----- runs of characters ------------------------------------------------------------

  function DigitRun(s: string): (n: nat)
    ensures n <= |s| && AllDigits(s[..n]) && (n < |s| ==> !IsDigit(s[n]))
  {
    if s == "" || !IsDigit(s[0]) then 0 else 1 + DigitRun(s[1..])
  }

  predicate InBody(c: char) { IsDigit(c) || c == ',' }

  function BodyRun(s: string): (n: nat)
    ensures n <= |s| && (forall i :: 0 <= i < n ==> InBody(s[i])) && (n < |s| ==> !InBody(s[n]))
  {
    if s == "" || !InBody(s[0]) then 0 else 1 + BodyRun(s[1..])
  }

  function SpaceRun(s: string): (n: nat)
    ensures n <= |s| && (forall i :: 0 <= i < n ==> IsSpace(s[i])) && (n < |s| ==> !IsSpace(s[n]))
  {
    if s == "" || !IsSpace(s[0]) then 0 else 1 + SpaceRun(s[1..])
  }

  /** Length of `(?:\.\d+)?` taken greedily. */
  function FractionRun(s: string): (n: nat)
    ensures n <= |s| && (n == 0 || (n >= 2 && s[0] == '.' && AllDigits(s[1..n])))
    ensures n == 0 ==> |s| < 2 || s[0] != '.' || !IsDigit(s[1])
    ensures 0 < n < |s| ==> !IsDigit(s[n])
  {
    if |s| >= 2 && s[0] == '.' && IsDigit(s[1]) then
      var k := DigitRun(s[1..]);
      assert s[1..][..k] == s[1..1+k];
      1 + k
    else 0
  }

  predicate NoSigns(s: string, i: nat, j: nat) {
    forall k :: i <= k < j <= |s| ==> !IsSign(s[k])
  }

  /** Where the body, fraction and blanks starting at `a` end. */
  function BodyEnd(s: string, a: nat): (b: nat)
    requires a <= |s|
    ensures a <= b <= |s| && NoSigns(s, a, b)
  {
    var n := BodyRun(s[a..]);
    assert forall k :: a <= k < a + n ==> s[k] == s[a..][k-a];
    a + n
  }

  function FractionEnd(s: string, a: nat): (b: nat)
    requires a <= |s|
    ensures a <= b <= |s| && NoSigns(s, a, b)
  {
    var n := FractionRun(s[a..]);
    assert forall i :: 0 <= i < n - 1 ==> IsDigit(s[a..][1..n][i]) && s[a+1+i] == s[a..][1..n][i];
    assert forall k :: a <= k < a + n ==> s[k] == s[a..][k-a];
    a + n
  }

  function SpaceEnd(s: string, a: nat): (b: nat)
    requires a <= |s|
    ensures a <= b <= |s| && NoSigns(s, a, b)
  {
    var n := SpaceRun(s[a..]);
    assert forall k :: a <= k < a + n ==> s[k] == s[a..][k-a];
    a + n
  }

  // ----- the four patterns ----------------------------------------------------------------

  predicate WordEnds(s: string, n: nat) { n >= |s| || !IsWord(s[n]) }

  /** Length of an ISO date at the start of `s`, 0 if there is none. */
  function IsoLength(s: string): (n: nat)
    ensures n <= |s|
  {
    if |s| >= 8 && AllDigits(s[..4]) && s[4] == '-' && IsDigit(s[5]) then
      if s[6] == '-' then IsoTail(s, 7)
      else if IsDigit(s[6]) && s[7] == '-' then IsoTail(s, 8)
      else 0
    else 0
  }

  function IsoTail(s: string, p: nat): (n: nat)
    ensures n == 0 || p < n <= |s|
  {
    if p + 1 < |s| && IsDigit(s[p]) && IsDigit(s[p+1]) && WordEnds(s, p + 2) then p + 2
    else if p < |s| && IsDigit(s[p]) && WordEnds(s, p + 1) then p + 1
    else 0
  }

  predicate YearAt(s: string) {
    && |s| >= 4
    && (s[..2] == "19" || s[..2] == "20") && IsDigit(s[2]) && IsDigit(s[3])
    && WordEnds(s, 4)
  }

  /** Where the numeric body of a percent starts. */
  function PctStart(s: string): nat {
    if s != "" && IsSign(s[0]) then 1 else 0
  }

  /** Where body, fraction and blanks starting at `a` have all ended. */
  function TailEnd(s: string, a: nat): (d: nat)
    requires a <= |s|
    ensures a <= d <= |s| && NoSigns(s, a, d)
  {
    var b := BodyEnd(s, a);
    var c := FractionEnd(s, b);
    var d := SpaceEnd(s, c);
    assert forall k :: a <= k < d ==> !IsSign(s[k]) by {
      assert forall k :: a <= k < b ==> !IsSign(s[k]);
      assert forall k :: b <= k < c ==> !IsSign(s[k]);
      assert forall k :: c <= k < d ==> !IsSign(s[k]);
    }
    d
  }

  /** Length of a percent token at the start of `s`, 0 if there is none. */
  function PctLength(s: string): (n: nat)
    ensures n <= |s|
    ensures n > 0 ==> s[n-1] == '%' && NoSigns(s, 1, n)
    ensures n > 0 ==> PctStart(s) < |s| && IsDigit(s[PctStart(s)])
  {
    var a := PctStart(s);
    if a >= |s| || !IsDigit(s[a]) then 0
    else
      var d := TailEnd(s, a);
      if d < |s| && s[d] == '%' then d + 1 else 0
  }

  /** Position of the `$` of a money token at the start of `s`: after `(` and a sign, if any. */
  function DollarAt(s: string): nat {
    var p := if s != "" && s[0] == '(' then 1 else 0;
    if p < |s| && IsSign(s[p]) then p + 1 else p
  }

  predicate MoneyAt(s: string) {
    var d := DollarAt(s);
    d + 1 < |s| && s[d] == '$' && IsDigit(s[d+1])
  }

  /** Length of a money token at the start of `s`, 0 if there is none. */
  function MoneyLength(s: string): (n: nat)
    ensures n <= |s| && (n > 0 <==> MoneyAt(s))
  {
    if !MoneyAt(s) then 0
    else
      var c := FractionEnd(s, BodyEnd(s, DollarAt(s) + 1));
      if c < |s| && s[c] == ')' then c + 1 else c
  }

  // ----- tokens ------------------------------------------------------------------------------

  datatype Kind = Money | Percent

  /** A token as matched: its sign and its digits before and after the point. */
  datatype Raw = Raw(kind: Kind, negative: bool, whole: string, fraction: string)

  datatype Token = Token(kind: Kind, cents: int)

  function RawAt(kind: Kind, negative: bool, s: string, a: nat): (r: Raw)
    ensures AllDigits(r.whole) && AllDigits(r.fraction)
  {
    if a >= |s| then Raw(kind, negative, "", "")
    else
      var b := BodyEnd(s, a);
      var f := FractionEnd(s, b) - b;
      assert s[a..b] == s[a..][..BodyRun(s[a..])];
      BodyDigits(s[a..b]);
      assert f > 0 ==> s[b+1..b+f] == s[b..][1..f];
      Raw(kind, negative, NoCommas(s[a..b]), if f == 0 then "" else s[b+1..b+f])
  }

  lemma {:induction false} BodyDigits(s: string)
    requires forall i :: 0 <= i < |s| ==> InBody(s[i])
    ensures AllDigits(NoCommas(s))
  {
    if s != "" { BodyDigits(s[..|s|-1]); }
  }

  function PctRaw(s: string): Raw {
    RawAt(Percent, s != "" && s[0] == '-', s, PctStart(s))
  }

  function MoneyRaw(s: string): Raw {
    var d, n := DollarAt(s), MoneyLength(s);
    RawAt(Money, (0 < d <= |s| && s[d-1] == '-') || (0 < n && s[0] == '(' && s[n-1] == ')'), s, d + 1)
  }

  /** The value of a token at two decimals. */
  function Normalised(r: Raw): Token {
    if !AllDigits(r.whole) || !AllDigits(r.fraction) then Token(r.kind, 0)
    else
      var v: int := ToCents(r.whole, r.fraction);
      Token(r.kind, if r.negative then -v else v)
  }

  function NormalisedAll(rs: seq<Raw>): seq<Token> {
    if rs == [] then [] else NormalisedAll(rs[..|rs|-1]) + [Normalised(rs[|rs|-1])]
  }

  // ----- searching with a pattern -------------------------------------------------------------

  function Iso(): string -> nat { s => IsoLength(s) }
  function Year(): string -> nat { s => if YearAt(s) then 4 else 0 }
  function Pct(): string -> nat { s => PctLength(s) }
  function Dollars(): string -> nat { s => MoneyLength(s) }
  function PctToken(): string -> Raw { s => PctRaw(s) }
  function MoneyToken(): string -> Raw { s => MoneyRaw(s) }

  /** Replace every match that starts at a word boundary by a blank; `inWord` says whether
      a word character comes before `s`. */
  function Sub(len: string -> nat, inWord: bool, s: string): string
    decreases |s|
  {
    if s == "" then ""
    else
      var n := len(s);
      if !inWord && 0 < n <= |s| then " " + Sub(len, true, s[n..])
      else [s[0]] + Sub(len, IsWord(s[0]), s[1..])
  }

  /** Replace every match by a blank. */
  function Blank(len: string -> nat, s: string): string
    decreases |s|
  {
    if s == "" then ""
    else
      var n := len(s);
      if 0 < n <= |s| then " " + Blank(len, s[n..]) else [s[0]] + Blank(len, s[1..])
  }

  /** The matches, leftmost first and not overlapping. */
  function Find(len: string -> nat, token: string -> Raw, s: string): seq<Raw>
    decreases |s|
  {
    if s == "" then []
    else
      var n := len(s);
      if 0 < n <= |s| then [token(s)] + Find(len, token, s[n..]) else Find(len, token, s[1..])
  }

  /** ISO dates first, then bare years. */
  function Clean(s: string): string {
    Sub(Year(), false, Sub(Iso(), false, s))
  }

  /** Every percent token, then every money token of what is left. */
  function Extracted(text: string): seq<Token> {
    var cleaned := Clean(text);
    NormalisedAll(Find(Pct(), PctToken(), cleaned) + Find(Dollars(), MoneyToken(), Blank(Pct(), cleaned)))
  }

  method FindIter(len: string -> nat, token: string -> Raw, s: string) returns (found: seq<Raw>)
    ensures found == Find(len, token, s)
  {
    found := [];
    var p := 0;
    while p < |s|
      invariant p <= |s|
      invariant found + Find(len, token, s[p..]) == Find(len, token, s)
    {
      var rest := s[p..];
      var n := len(rest);
      if 0 < n <= |rest| {
        assert rest[n..] == s[p+n..];
        found, p := found + [token(rest)], p + n;
      } else {
        assert rest[1..] == s[p+1..];
        p := p + 1;
      }
    }
    assert s[p..] == "";
  }

  method ExtractNumbers(text: string) returns (found: seq<Token>)
    ensures found == Extracted(text)
  {
    var cleaned := Clean(text);
    var percents := FindIter(Pct(), PctToken(), cleaned);
    var amounts := FindIter(Dollars(), MoneyToken(), Blank(Pct(), cleaned));
    found := NormaliseTokens(percents + amounts);
  }

  method NormaliseTokens(raws: seq<Raw>) returns (found: seq<Token>)
    ensures found == NormalisedAll(raws)
  {
    found := [];
    for i := 0 to |raws|
      invariant found == NormalisedAll(raws[..i])
    {
      assert raws[..i+1][..i] == raws[..i];
      found := found + [Normalised(raws[i])];
    }
    assert raws[..|raws|] == raws;
  }
}
