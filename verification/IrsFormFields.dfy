/** The lines of each form by their fields, one by one. */
module IrsFormFields {
  import opened Accounts
  import opened NarrativeText
  import opened NarrativeTextProofs
  import opened IrsForm
  import opened IrsFormProofs
  import opened TaxWorksheet

  const FORM_1120: map<Code, nat> := map[
    Code(1, "a") := 14, Code(1, "b") := 15, Code(2, "") := 17, Code(4, "") := 19, Code(5, "") := 20,
    Code(6, "") := 21, Code(7, "") := 22, Code(8, "") := 23, Code(9, "") := 24, Code(10, "") := 25,
    Code(12, "") := 27, Code(13, "") := 28, Code(14, "") := 29, Code(15, "") := 30, Code(16, "") := 31,
    Code(17, "") := 32, Code(18, "") := 33, Code(19, "") := 34, Code(20, "") := 35, Code(21, "") := 36,
    Code(22, "") := 37, Code(23, "") := 38, Code(24, "") := 39, Code(26, "") := 41]

  const FORM_1120S: map<Code, nat> := map[
    Code(1, "a") := 17, Code(1, "b") := 18, Code(2, "") := 20, Code(4, "") := 22, Code(5, "") := 23,
    Code(7, "") := 25, Code(8, "") := 26, Code(9, "") := 27, Code(10, "") := 28, Code(11, "") := 29,
    Code(12, "") := 30, Code(13, "") := 31, Code(14, "") := 32, Code(15, "") := 33, Code(16, "") := 34,
    Code(17, "") := 35, Code(18, "") := 36, Code(19, "") := 37]

  const FORM_1065: map<Code, nat> := map[
    Code(1, "a") := 19, Code(1, "b") := 20, Code(2, "") := 22, Code(4, "") := 24, Code(5, "") := 25,
    Code(6, "") := 26, Code(7, "") := 27, Code(9, "") := 29, Code(10, "") := 30, Code(11, "") := 31,
    Code(12, "") := 32, Code(13, "") := 33, Code(14, "") := 34, Code(15, "") := 35, Code(16, "") := 36,
    Code(17, "") := 39, Code(18, "") := 40, Code(19, "") := 41, Code(20, "") := 42]

  const SCHEDULE_C: map<Code, nat> := map[
    Code(1, "") := 10, Code(2, "") := 11, Code(4, "") := 13, Code(6, "") := 15, Code(8, "") := 17,
    Code(9, "") := 18, Code(10, "") := 19, Code(11, "") := 20, Code(12, "") := 21, Code(13, "") := 22,
    Code(14, "") := 23, Code(15, "") := 24, Code(16, "a") := 25, Code(16, "b") := 26, Code(17, "") := 27,
    Code(18, "") := 28, Code(19, "") := 29, Code(20, "a") := 30, Code(20, "b") := 31, Code(21, "") := 32,
    Code(22, "") := 33, Code(23, "") := 34, Code(24, "a") := 35, Code(24, "b") := 36, Code(25, "") := 37,
    Code(26, "") := 38, Code(27, "a") := 39]

  function Table(form: FormCode): map<Code, nat> {
    match form
    case F1120 => FORM_1120
    case F1120S => FORM_1120S
    case F1065 => FORM_1065
    case F1040SC => SCHEDULE_C
  }

  lemma Lines1120(c: Code)
    ensures LineField(F1120, c) == if c in FORM_1120 then Some(FORM_1120[c]) else None
  {
  }

  lemma Lines1120S(c: Code)
    ensures LineField(F1120S, c) == if c in FORM_1120S then Some(FORM_1120S[c]) else None
  {
  }

  lemma Lines1065(c: Code)
    ensures LineField(F1065, c) == if c in FORM_1065 then Some(FORM_1065[c]) else None
  {
  }

  lemma LinesScheduleC(c: Code)
    ensures LineField(F1040SC, c) == if c in SCHEDULE_C then Some(SCHEDULE_C[c]) else None
  {
  }

  lemma TableIs(form: FormCode, c: Code)
    ensures LineField(form, c) == if c in Table(form) then Some(Table(form)[c]) else None
  {
    match form
    case F1120 => Lines1120(c);
    case F1120S => Lines1120S(c);
    case F1065 => Lines1065(c);
    case F1040SC => LinesScheduleC(c);
  }

  /** The amount of the last worksheet line of a code. */
  ghost predicate LastAmount(lines: seq<(Code, int)>, c: Code, amount: int) {
    if forall k :: 0 <= k < |lines| ==> lines[k].0 != c then amount == 0
    else exists k :: 0 <= k < |lines| && lines[k] == (c, amount) && forall m :: k < m < |lines| ==> lines[m].0 != c
  }

  lemma {:induction false} AmountIsLast(lines: seq<(Code, int)>, c: Code)
    ensures LastAmount(lines, c, AmountOf(ByCode(lines), c))
  {
    if lines != [] {
      var n := |lines| - 1;
      AmountIsLast(lines[..n], c);
      assert lines == lines[..n] + [lines[n]];
      assert forall k :: 0 <= k < n ==> lines[..n][k] == lines[k];
      if lines[n].0 == c {
        assert lines[n] == (c, AmountOf(ByCode(lines), c));
      }
    }
  }

  /** The whole dollars nearest to an amount, a half away from zero. */
  predicate WholeDollars(units: int, dollars: int) {
    if units >= 0 then 2 * units - 10000 < 20000 * dollars <= 2 * units + 10000
    else 2 * units - 10000 <= 20000 * dollars < 2 * units + 10000
  }

  /** On every form the field listed for a line, and read back, is the nearest whole dollars to the amount
      of that line. */
  lemma FieldReadsBack(form: FormCode, lines: seq<(Code, int)>, c: Code)
    requires c in Table(form)
    ensures exists amount :: LastAmount(lines, c, amount)
                          && WholeDollars(amount, Shown(PrintedForm(form, lines), Table(form)[c]))
  {
    TableIs(form, c);
    LineShows(form, lines, c);
    AmountIsLast(lines, c);
    var amount := AmountOf(ByCode(lines), c);
    assert WholeDollars(amount, RoundDollars(amount));
  }

  /** Filling fails exactly when some line of an unlisted code has an amount. */
  lemma RefusedExactly(form: FormCode, lines: seq<(Code, int)>)
    ensures Homeless(form, lines) != {} <==>
              exists k :: 0 <= k < |lines| && lines[k].0 !in Table(form) && lines[k].1 != 0
  {
    forall c: Code ensures LineField(form, c).Some? <==> c in Table(form) { TableIs(form, c); }
    if k :| 0 <= k < |lines| && lines[k].0 !in Table(form) && lines[k].1 != 0 {
      assert lines[k].0 in Homeless(form, lines);
    }
  }

  /** Only an amount of exactly zero is left blank; one that rounds to zero is printed as one. */
  lemma BlankIsZero(units: int)
    ensures FmtAmount(units) == "" <==> units == 0
    ensures -5000 < units < 5000 && units != 0 ==> FmtAmount(units) == "0"
  {
    GroupShape(Abs(RoundDollars(units)));
    assert Digits(0) == "0";
  }
}
