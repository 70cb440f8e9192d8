/** Filling the lines of an IRS form from a worksheet, in whole dollars. Worksheet amounts are
    in 1/10000 dollars. */
module IrsForm {
  import opened Accounts
  import opened NarrativeText
  import opened TaxWorksheet

  // ----- whole dollars -------------------------------------------------------------------

  /** Round half up, that is, a half moves away from zero. */
  function RoundDollars(units: int): int {
    if units < 0 then -((-units + 5000) / 10000) else (units + 5000) / 10000
  }

  /** An integer with thousands commas. */
  function PrintDollars(n: int): string { (if n < 0 then "-" else "") + Group(Abs(n)) }

  /** Exactly zero stays blank. */
  function FmtAmount(units: int): string { if units == 0 then "" else PrintDollars(RoundDollars(units)) }

  // ----- the fields of the forms ---------------------------------------------------------------

  datatype FormCode = F1120 | F1120S | F1065 | F1040SC

  function Line(number: nat): Code { Code(number, "") }

  const L1A := Code(1, "a")
  const L1B := Code(1, "b")
  const L1C := Code(1, "c")

  /** The number of the field that prints a worksheet line. */
  function LineField(form: FormCode, c: Code): Option<nat> {
    match form
    case F1120 => Field1120(c)
    case F1120S => Field1120S(c)
    case F1065 => Field1065(c)
    case F1040SC => FieldScheduleC(c)
  }

  function Field1120(c: Code): Option<nat> {
    var n := c.number;
    if c == L1A then Some(14)
    else if c == L1B then Some(15)
    else if c.letter == "" && (n == 2 || 4 <= n <= 10 || 12 <= n <= 24 || n == 26) then Some(15 + n)
    else None
  }

  function Field1120S(c: Code): Option<nat> {
    var n := c.number;
    if c == L1A then Some(17)
    else if c == L1B then Some(18)
    else if c.letter == "" && (n == 2 || n == 4 || n == 5 || 7 <= n <= 19) then Some(18 + n)
    else None
  }

  function Field1065(c: Code): Option<nat> {
    var n := c.number;
    if c == L1A then Some(19)
    else if c == L1B then Some(20)
    else if c.letter == "" && (n == 2 || 4 <= n <= 7 || 9 <= n <= 16) then Some(20 + n)
    else if c.letter == "" && 17 <= n <= 20 then Some(22 + n)
    else None
  }

  function FieldScheduleC(c: Code): Option<nat> {
    var n := c.number;
    if c.letter == "" then
      if n == 1 || n == 2 || n == 4 || n == 6 || 8 <= n <= 15 then Some(9 + n)
      else if 17 <= n <= 19 then Some(10 + n)
      else if 21 <= n <= 23 then Some(11 + n)
      else if n == 25 || n == 26 then Some(12 + n)
      else None
    else if c == Code(16, "a") then Some(25)
    else if c == Code(16, "b") then Some(26)
    else if c == Code(20, "a") then Some(30)
    else if c == Code(20, "b") then Some(31)
    else if c == Code(24, "a") then Some(35)
    else if c == Code(24, "b") then Some(36)
    else if c == Code(27, "a") then Some(39)
    else None
  }

  const COMPUTED_1120S: seq<(Code, nat)> := [(L1C, 19), (Line(3), 21), (Line(6), 24), (Line(21), 38), (Line(22), 39)]

  /** The derived lines and their fields, in the order they are written: only Form 1120-S has any. */
  function ComputedFields(form: FormCode): seq<(Code, nat)> { if form == F1120S then COMPUTED_1120S else [] }

  // ----- derived lines -------------------------------------------------------------------------

  function AmountOf(amounts: map<Code, int>, c: Code): int { if c in amounts then amounts[c] else 0 }

  function Rounded(amounts: map<Code, int>, c: Code): int { RoundDollars(AmountOf(amounts, c)) }

  /** Rounded lines 7 up to, not including, `n`. */
  function RoundedFrom7(amounts: map<Code, int>, n: nat): int {
    if n <= 7 then 0 else RoundedFrom7(amounts, n - 1) + Rounded(amounts, Line(n - 1))
  }

  function TotalIncome(amounts: map<Code, int>): int {
    Rounded(amounts, L1A) - Rounded(amounts, L1B) - Rounded(amounts, Line(2))
    + Rounded(amounts, Line(4)) + Rounded(amounts, Line(5))
  }

  function Derived(form: FormCode, amounts: map<Code, int>, c: Code): Option<int> {
    if form != F1120S then None
    else if c == L1C then Some(Rounded(amounts, L1A) - Rounded(amounts, L1B))
    else if c == Line(3) then Some(Rounded(amounts, L1A) - Rounded(amounts, L1B) - Rounded(amounts, Line(2)))
    else if c == Line(6) then Some(TotalIncome(amounts))
    else if c == Line(21) then Some(RoundedFrom7(amounts, 21))
    else if c == Line(22) then Some(TotalIncome(amounts) - RoundedFrom7(amounts, 21))
    else None
  }

  method SumDeductions(amounts: map<Code, int>) returns (total: int)
    ensures total == RoundedFrom7(amounts, 21)
  {
    total := 0;
    for i := 7 to 21
      invariant total == RoundedFrom7(amounts, i)
    {
      total := total + Rounded(amounts, Line(i));
    }
  }

  method ComputeLine(form: FormCode, amounts: map<Code, int>, c: Code) returns (r: Option<int>)
    ensures r == Derived(form, amounts, c)
  {
    if form != F1120S {
      return None;
    }
    if c == L1C {
      return Some(Rounded(amounts, L1A) - Rounded(amounts, L1B));
    }
    if c == Line(3) {
      return Some((Rounded(amounts, L1A) - Rounded(amounts, L1B)) - Rounded(amounts, Line(2)));
    }
    if c == Line(6) {
      var gross := (Rounded(amounts, L1A) - Rounded(amounts, L1B)) - Rounded(amounts, Line(2));
      return Some(gross + Rounded(amounts, Line(4)) + Rounded(amounts, Line(5)));
    }
    if c == Line(21) {
      var total := SumDeductions(amounts);
      return Some(total);
    }
    if c == Line(22) {
      var gross := (Rounded(amounts, L1A) - Rounded(amounts, L1B)) - Rounded(amounts, Line(2));
      var income := gross + Rounded(amounts, Line(4)) + Rounded(amounts, Line(5));
      var deductions := SumDeductions(amounts);
      return Some(income - deductions);
    }
    return None;
  }

  // ----- all lines -----------------------------------------------------------------------------

  /** Amounts by code; a later line of the same code wins. */
  function ByCode(lines: seq<(Code, int)>): map<Code, int> {
    if lines == [] then map[] else ByCode(lines[..|lines|-1])[lines[|lines|-1].0 := lines[|lines|-1].1]
  }

  function Filled(form: FormCode, lines: seq<(Code, int)>): map<nat, string> {
    if lines == [] then map[]
    else
      var (c, amount) := lines[|lines|-1];
      var out := Filled(form, lines[..|lines|-1]);
      if LineField(form, c).Some? then out[LineField(form, c).value := FmtAmount(amount)] else out
  }

  function WithDerived(form: FormCode, out: map<nat, string>, amounts: map<Code, int>, computed: seq<(Code, nat)>)
    : map<nat, string>
  {
    if computed == [] then out
    else
      var (c, field) := computed[|computed|-1];
      var d := Derived(form, amounts, c);
      var before := WithDerived(form, out, amounts, computed[..|computed|-1]);
      if d.Some? then before[field := PrintDollars(d.value)] else before
  }

  /** Codes with an amount and no field. */
  function Homeless(form: FormCode, lines: seq<(Code, int)>): set<Code> {
    set i | 0 <= i < |lines| && LineField(form, lines[i].0).None? && lines[i].1 != 0 :: lines[i].0
  }

  method BuildLineValues(form: FormCode, lines: seq<(Code, int)>) returns (r: Result<map<nat, string>, set<Code>>)
    ensures r == if Homeless(form, lines) != {} then Err(Homeless(form, lines))
                 else Ok(WithDerived(form, Filled(form, lines), ByCode(lines), ComputedFields(form)))
  {
    var out: map<nat, string> := map[];
    var amounts: map<Code, int> := map[];
    var unmapped: set<Code> := {};
    for i := 0 to |lines|
      invariant out == Filled(form, lines[..i]) && amounts == ByCode(lines[..i]) && unmapped == Homeless(form, lines[..i])
    {
      var (c, amount) := lines[i];
      assert lines[..i+1][..i] == lines[..i];
      HomelessSnoc(form, lines, i);
      amounts := amounts[c := amount];
      if LineField(form, c).None? {
        if amount != 0 {
          unmapped := unmapped + {c};
        }
      } else {
        out := out[LineField(form, c).value := FmtAmount(amount)];
      }
    }
    assert lines[..|lines|] == lines;
    for i := 0 to |ComputedFields(form)|
      invariant out == WithDerived(form, Filled(form, lines), amounts, ComputedFields(form)[..i])
    {
      assert ComputedFields(form)[..i+1][..i] == ComputedFields(form)[..i];
      var computed := ComputeLine(form, amounts, ComputedFields(form)[i].0);
      if computed.Some? {
        out := out[ComputedFields(form)[i].1 := PrintDollars(computed.value)];
      }
    }
    assert ComputedFields(form)[..|ComputedFields(form)|] == ComputedFields(form);
    if unmapped != {} {
      return Err(unmapped);
    }
    return Ok(out);
  }

  lemma HomelessSnoc(form: FormCode, lines: seq<(Code, int)>, i: nat)
    requires i < |lines|
    ensures Homeless(form, lines[..i+1])
         == Homeless(form, lines[..i]) + if LineField(form, lines[i].0).None? && lines[i].1 != 0 then {lines[i].0} else {}
  {
    var now, was := lines[..i+1], lines[..i];
    forall c
      ensures c in Homeless(form, now) <==> c in Homeless(form, was) || (c == lines[i].0 && LineField(form, c).None? && lines[i].1 != 0)
    {
      if c in Homeless(form, was) {
        var k :| 0 <= k < |was| && LineField(form, was[k].0).None? && was[k].1 != 0 && was[k].0 == c;
        assert now[k] == was[k];
      }
      if c in Homeless(form, now) {
        var k :| 0 <= k < |now| && LineField(form, now[k].0).None? && now[k].1 != 0 && now[k].0 == c;
        assert k < i ==> was[k] == now[k];
      }
      assert now[i] == lines[i];
    }
  }
}
