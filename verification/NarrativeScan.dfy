/** Scanning a text made of neutral words, printed money and printed percents finds
    exactly the figures in it. */
module NarrativeScan {
  import opened NarrativeText
  import opened NarrativeTextProofs

  /** A formatted string: literal text, money printed by `Fmt`, percents by `FmtPct`. */
  datatype Piece = Words(text: string) | Amount(cents: int) | Percentage(negative: bool, hundredths: nat)

  function Show(p: Piece, currency: string): string {
    match p
    case Words(s) => s
    case Amount(c) => Fmt(c, currency)
    case Percentage(n, h) => FmtPct(n, h)
  }

  function Render(ps: seq<Piece>, currency: string): string {
    if ps == [] then "" else Show(ps[0], currency) + Render(ps[1..], currency)
  }

  // ----- which texts are neutral -----------------------------------------------------

  /** Words can stand before a figure. */
  predicate Opens(s: string) { EndsBroken(s) && s[|s|-1] != '(' && s[|s|-1] != '+' }

  /** The first piece is neutral and fits what comes next. */
  predicate Fits(p: Piece, rest: seq<Piece>) {
    match p
    case Words(s) => s != "" && Plain(s) && (rest == [] || Opens(s))
    case Amount(_) => rest == [] || (rest[0].Words? && rest[0].text != "" && AfterMoney(rest[0].text))
    case Percentage(_, _) => rest == [] || rest[0].Words?
  }

  predicate WellFormed(ps: seq<Piece>) {
    ps == [] || (Fits(ps[0], ps[1..]) && WellFormed(ps[1..]))
  }

  lemma Chain(p: Piece, ps: seq<Piece>)
    requires WellFormed(ps) && Fits(p, ps)
    ensures WellFormed([p] + ps)
  {
    assert ([p] + ps)[1..] == ps;
  }

  /** The pieces end in words that anything may follow. */
  predicate Closed(ps: seq<Piece>) {
    ps == [] || (ps[|ps|-1].Words? && Opens(ps[|ps|-1].text))
  }

  lemma {:induction false} WellFormedJoin(a: seq<Piece>, b: seq<Piece>)
    requires WellFormed(a) && Closed(a) && WellFormed(b)
    ensures WellFormed(a + b)
  {
    if a == [] {
      assert a + b == b;
    } else {
      assert a + b == [a[0]] + (a[1..] + b);
      WellFormedJoin(a[1..], b);
      Chain(a[0], a[1..] + b);
    }
  }

  // ----- cleaning ------------------------------------------------------------------------

  function SignAndCurrency(cents: int, currency: string): string {
    (if cents < 0 then "-" else "") + currency + " "
  }

  function CleanShow(p: Piece, currency: string): string {
    match p
    case Words(s) => Clean(s)
    case Amount(c) =>
      if currency == "USD" then Fmt(c, currency)
      else Clean(SignAndCurrency(c, currency)) + (Group(Abs(c) / 100) + (['.'] + Pad2(Abs(c) % 100)))
    case Percentage(n, h) => CleanedPct(n, h)
  }

  function CleanRender(ps: seq<Piece>, currency: string): string {
    if ps == [] then "" else CleanShow(ps[0], currency) + CleanRender(ps[1..], currency)
  }

  lemma ForeignShape(cents: int, currency: string, s: string)
    requires currency != "USD"
    ensures Fmt(cents, currency) + s
         == SignAndCurrency(cents, currency) + (Group(Abs(cents) / 100) + (['.'] + (Pad2(Abs(cents) % 100) + s)))
  {
  }

  lemma CleanAmount(cents: int, currency: string, s: string)
    requires Stopped(s)
    ensures Clean(Fmt(cents, currency) + s) == CleanShow(Amount(cents), currency) + Clean(s)
  {
    if currency == "USD" {
      CleanFmt(cents, s);
    } else {
      var head, n, pad := SignAndCurrency(cents, currency), Abs(cents) / 100, Pad2(Abs(cents) % 100);
      ForeignShape(cents, currency, s);
      assert head[|head|-1] == ' ';
      CleanSplit(head, Group(n) + (['.'] + (pad + s)));
      CleanTail(Group(n), n, pad, s);
      Reassociated(Clean(head), Group(n), pad, Clean(s));
    }
  }

  lemma Reassociated(h: string, g: string, pad: string, s: string)
    ensures h + (g + (['.'] + (pad + s))) == h + (g + (['.'] + pad)) + s
  {
  }

  /** Words that may follow money open the rendered text. */
  lemma OpensWith(ps: seq<Piece>, currency: string)
    requires ps == [] || (ps[0].Words? && ps[0].text != "" && AfterMoney(ps[0].text))
    ensures AfterMoney(Render(ps, currency)) && Stopped(Render(ps, currency))
  {
    if ps != [] {
      assert Render(ps, currency)[0] == ps[0].text[0];
    }
  }

  lemma {:induction false} CleanPieces(ps: seq<Piece>, currency: string)
    requires WellFormed(ps)
    ensures Clean(Render(ps, currency)) == CleanRender(ps, currency)
  {
    if ps != [] {
      var rest := Render(ps[1..], currency);
      CleanPieces(ps[1..], currency);
      match ps[0]
      case Words(s) =>
        if ps[1..] == [] {
          assert s + "" == s && Clean(s) + "" == Clean(s);
        } else {
          CleanSplit(s, rest);
        }
      case Amount(c) =>
        OpensWith(ps[1..], currency);
        CleanAmount(c, currency, rest);
      case Percentage(n, h) =>
        CleanPct(n, h, rest);
    }
  }

  // ----- percents --------------------------------------------------------------------------

  function PctRaws(ps: seq<Piece>): seq<Raw> {
    if ps == [] then []
    else if ps[0].Percentage? then [PctRawOf(ps[0].negative, ps[0].hundredths)] + PctRaws(ps[1..])
    else PctRaws(ps[1..])
  }

  /** A cleaned text with its percents blanked out. */
  function BlankShow(p: Piece, currency: string): string {
    if p.Percentage? then PctRest(p.negative, p.hundredths) else CleanShow(p, currency)
  }

  function BlankRender(ps: seq<Piece>, currency: string): string {
    if ps == [] then "" else BlankShow(ps[0], currency) + BlankRender(ps[1..], currency)
  }

  lemma NoMarksInNumbers(n: nat, m: nat)
    requires m < 100
    ensures Plain(Group(n) + (['.'] + Pad2(m)))
  {
    GroupShape(n);
    var s := Group(n) + (['.'] + Pad2(m));
    forall i | 0 <= i < |s| ensures s[i] != '$' && s[i] != '%' {
      if i < |Group(n)| {
        assert InBody(Group(n)[i]);
      }
    }
  }

  /** Cleaned words and amounts carry no percent mark, and outside USD no dollar sign. */
  lemma NoMarks(p: Piece, currency: string)
    requires Plain(currency) && !p.Percentage? && (p.Words? ==> Plain(p.text))
    ensures '%' !in CleanShow(p, currency)
    ensures p.Words? || currency != "USD" ==> '$' !in CleanShow(p, currency)
  {
    match p
    case Words(s) =>
      CleanPlain(s);
    case Amount(c) =>
      NoMarksInNumbers(Abs(c) / 100, Abs(c) % 100);
      if currency != "USD" {
        CleanPlain(SignAndCurrency(c, currency));
      } else {
        var number := Group(Abs(c) / 100) + (['.'] + Pad2(Abs(c) % 100));
        assert Fmt(c, currency) == Dollar(c) + number;
      }
  }

  lemma {:induction false} PctPieces(a: string, ps: seq<Piece>, currency: string)
    requires WellFormed(ps) && Plain(currency) && '%' !in a
    ensures Find(Pct(), PctToken(), a + CleanRender(ps, currency)) == PctRaws(ps)
    ensures Blank(Pct(), a + CleanRender(ps, currency)) == a + BlankRender(ps, currency)
    decreases |ps|
  {
    if ps == [] {
      PctSkips(a, "");
    } else {
      var rest := CleanRender(ps[1..], currency);
      if ps[0].Percentage? {
        var n, h := ps[0].negative, ps[0].hundredths;
        assert CleanRender(ps, currency)[0] == SignText(n)[0];
        PctSkips(a, CleanRender(ps, currency));
        PctFound(n, h, rest);
        PctPieces("", ps[1..], currency);
        assert "" + rest == rest && "" + BlankRender(ps[1..], currency) == BlankRender(ps[1..], currency);
      } else {
        var shown := CleanShow(ps[0], currency);
        NoMarks(ps[0], currency);
        PctPieces(a + shown, ps[1..], currency);
        Shifted(a, shown, rest);
        Shifted(a, shown, BlankRender(ps[1..], currency));
      }
    }
  }

  lemma Shifted(a: string, b: string, c: string)
    ensures a + (b + c) == (a + b) + c
  {
  }

  // ----- money ---------------------------------------------------------------------------------

  function AmountRaws(ps: seq<Piece>): seq<Raw> {
    if ps == [] then []
    else if ps[0].Amount? then [MoneyRawOf(ps[0].cents)] + AmountRaws(ps[1..])
    else AmountRaws(ps[1..])
  }

  lemma BlankOpensWith(ps: seq<Piece>, currency: string)
    requires ps == [] || (ps[0].Words? && ps[0].text != "" && AfterMoney(ps[0].text))
    ensures AfterMoney(BlankRender(ps, currency))
  {
    if ps != [] {
      var s := ps[0].text;
      assert s == [s[0]] + s[1..];
      CleanFirst(s[0], s[1..]);
      assert BlankRender(ps, currency)[0] == Clean(s)[0] == s[0];
    }
  }

  /** Cleaned words bring no mark and can stand before money if money comes next. */
  lemma WordsPiece(a: string, s: string, ps: seq<Piece>)
    requires WellFormed(ps) && ps != [] && ps[0] == Words(s) && '$' !in a
    ensures '$' !in a + Clean(s)
    ensures ps[1..] != [] && ps[1].Amount? ==> BeforeMoney(a + Clean(s))
  {
    NoMarks(ps[0], "USD");
    if ps[1..] != [] {
      CleanSplit(s, "");
    }
  }

  lemma AmountPiece(a: string, c: int, ps: seq<Piece>)
    requires WellFormed(ps) && ps != [] && ps[0] == Amount(c) && '$' !in a && BeforeMoney(a)
    requires Find(Dollars(), MoneyToken(), "" + BlankRender(ps[1..], "USD")) == AmountRaws(ps[1..])
    ensures Find(Dollars(), MoneyToken(), a + BlankRender(ps, "USD")) == AmountRaws(ps)
  {
    var rest := BlankRender(ps[1..], "USD");
    MoneySkips(a, Fmt(c, "USD") + rest);
    BlankOpensWith(ps[1..], "USD");
    MoneyFound(c, rest);
    assert "" + rest == rest;
  }

  lemma {:induction false} MoneyPieces(a: string, ps: seq<Piece>)
    requires WellFormed(ps) && '$' !in a && (ps != [] && ps[0].Amount? ==> BeforeMoney(a))
    ensures Find(Dollars(), MoneyToken(), a + BlankRender(ps, "USD")) == AmountRaws(ps)
    decreases |ps|
  {
    if ps == [] {
      NoMoneyWithoutDollar(a);
      assert a + "" == a;
    } else {
      var rest := BlankRender(ps[1..], "USD");
      match ps[0]
      case Words(s) =>
        WordsPiece(a, s, ps);
        Shifted(a, Clean(s), rest);
        MoneyPieces(a + Clean(s), ps[1..]);
      case Amount(c) =>
        MoneyPieces("", ps[1..]);
        AmountPiece(a, c, ps);
      case Percentage(n, h) =>
        var blank := PctRest(n, h);
        Shifted(a, blank, rest);
        MoneyPieces(a + blank, ps[1..]);
    }
  }

  lemma {:induction false} NoDollars(ps: seq<Piece>, currency: string)
    requires WellFormed(ps) && Plain(currency) && currency != "USD"
    ensures '$' !in BlankRender(ps, currency)
  {
    if ps != [] {
      NoDollars(ps[1..], currency);
      if !ps[0].Percentage? {
        NoMarks(ps[0], currency);
      }
    }
  }

  // ----- the scan ---------------------------------------------------------------------------------

  function PctTokens(ps: seq<Piece>): seq<Token> {
    if ps == [] then []
    else if ps[0].Percentage? then [Token(Percent, ScannedPct(ps[0].negative, ps[0].hundredths))] + PctTokens(ps[1..])
    else PctTokens(ps[1..])
  }

  function AmountTokens(ps: seq<Piece>): seq<Token> {
    if ps == [] then []
    else if ps[0].Amount? then [Token(Money, ps[0].cents)] + AmountTokens(ps[1..])
    else AmountTokens(ps[1..])
  }

  lemma {:induction false} NormalisedAppend(a: seq<Raw>, b: seq<Raw>)
    ensures NormalisedAll(a + b) == NormalisedAll(a) + NormalisedAll(b)
  {
    if b == [] {
      assert a + b == a;
    } else {
      assert (a + b)[..|a + b|-1] == a + b[..|b|-1];
      NormalisedAppend(a, b[..|b|-1]);
    }
  }

  lemma {:induction false} PctNormalised(ps: seq<Piece>)
    ensures NormalisedAll(PctRaws(ps)) == PctTokens(ps)
  {
    if ps != [] {
      PctNormalised(ps[1..]);
      if ps[0].Percentage? {
        var raw := PctRawOf(ps[0].negative, ps[0].hundredths);
        NormalisedAppend([raw], PctRaws(ps[1..]));
        PctValue(ps[0].negative, ps[0].hundredths);
        assert NormalisedAll([raw]) == [Normalised(raw)];
      }
    }
  }

  lemma {:induction false} AmountsNormalised(ps: seq<Piece>)
    ensures NormalisedAll(AmountRaws(ps)) == AmountTokens(ps)
  {
    if ps != [] {
      AmountsNormalised(ps[1..]);
      if ps[0].Amount? {
        var raw := MoneyRawOf(ps[0].cents);
        NormalisedAppend([raw], AmountRaws(ps[1..]));
        MoneyValue(ps[0].cents);
        assert NormalisedAll([raw]) == [Normalised(raw)];
      }
    }
  }

  /** Scanning a neutral text finds its percents and, in dollars, its amounts, in order and
      nothing else. Only a percent with a year-like whole part is misread. */
  lemma ScanIsExact(ps: seq<Piece>, currency: string)
    requires WellFormed(ps) && Plain(currency)
    ensures Extracted(Render(ps, currency)) == PctTokens(ps) + if currency == "USD" then AmountTokens(ps) else []
  {
    CleanPieces(ps, currency);
    var cleaned := CleanRender(ps, currency);
    var blanked := BlankRender(ps, currency);
    PctPieces("", ps, currency);
    assert "" + cleaned == cleaned && "" + blanked == blanked;
    PctNormalised(ps);
    if currency == "USD" {
      MoneyPieces("", ps);
      AmountsNormalised(ps);
      NormalisedAppend(PctRaws(ps), AmountRaws(ps));
    } else {
      NoDollars(ps, currency);
      NoMoneyWithoutDollar(blanked);
      assert PctRaws(ps) + [] == PctRaws(ps);
    }
  }

  function Framed(before: string, p: Piece, after: string): seq<Piece> {
    [Words(before)] + ([p] + if after == "" then [] else [Words(after)])
  }

  lemma FramedParts(before: string, p: Piece, after: string)
    ensures Framed(before, p, after)[0] == Words(before) && Framed(before, p, after)[1..][0] == p
    ensures Framed(before, p, after)[1..][1..] == if after == "" then [] else [Words(after)]
    ensures Framed(before, p, after)[1..] == [p] + if after == "" then [] else [Words(after)]
  {
  }

  lemma FramedFits(before: string, p: Piece, after: string)
    requires Plain(before) && Opens(before) && Plain(after)
    requires !p.Words? && (p.Amount? ==> AfterMoney(after))
    ensures WellFormed(Framed(before, p, after))
  {
    var tail: seq<Piece> := if after == "" then [] else [Words(after)];
    assert after != "" ==> tail[1..] == [];
    Chain(p, tail);
    Chain(Words(before), [p] + tail);
  }

  lemma FramedText(before: string, p: Piece, after: string, currency: string)
    ensures Render(Framed(before, p, after), currency) == before + Show(p, currency) + after
  {
    FramedParts(before, p, after);
    var tail: seq<Piece> := if after == "" then [] else [Words(after)];
    assert after != "" ==> tail[1..] == [];
    assert Render(tail, currency) == after;
    assert Render([p] + tail, currency) == Show(p, currency) + after;
    Shifted(before, Show(p, currency), after);
  }

  lemma TokensOf(p: Piece, rest: seq<Piece>)
    ensures PctTokens([p] + rest)
         == (if p.Percentage? then [Token(Percent, ScannedPct(p.negative, p.hundredths))] else []) + PctTokens(rest)
    ensures AmountTokens([p] + rest) == (if p.Amount? then [Token(Money, p.cents)] else []) + AmountTokens(rest)
  {
    assert ([p] + rest)[1..] == rest;
  }

  lemma FramedTokens(before: string, p: Piece, after: string)
    ensures PctTokens(Framed(before, p, after))
         == if p.Percentage? then [Token(Percent, ScannedPct(p.negative, p.hundredths))] else []
    ensures AmountTokens(Framed(before, p, after)) == if p.Amount? then [Token(Money, p.cents)] else []
  {
    var tail: seq<Piece> := if after == "" then [] else [Words(after)];
    TokensOf(Words(before), [p] + tail);
    TokensOf(p, tail);
    if after != "" {
      TokensOf(Words(after), []);
      assert [Words(after)] + [] == tail;
    }
  }

  /** Printing then scanning money is the identity. */
  lemma MoneyScansBack(before: string, cents: int, after: string)
    requires Plain(before) && Opens(before) && Plain(after) && AfterMoney(after)
    ensures Extracted(before + Fmt(cents, "USD") + after) == [Token(Money, cents)]
  {
    FramedFits(before, Amount(cents), after);
    FramedText(before, Amount(cents), after, "USD");
    FramedTokens(before, Amount(cents), after);
    ScanIsExact(Framed(before, Amount(cents), after), "USD");
  }

  /** Printing then scanning a percent is the identity exactly when its whole part does not
      look like a year. */
  lemma PctScansBack(before: string, negative: bool, h: nat, after: string)
    requires Plain(before) && Opens(before) && Plain(after)
    ensures Extracted(before + FmtPct(negative, h) + after) == [Token(Percent, ScannedPct(negative, h))]
    ensures var v: int := h; ScannedPct(negative, h) == (if negative then -v else v) <==> !YearLike(h)
  {
    var p := Percentage(negative, h);
    FramedFits(before, p, after);
    FramedText(before, p, after, "USD");
    FramedTokens(before, p, after);
    ScanIsExact(Framed(before, p, after), "USD");
  }
}
