/** The printed form ties out to the dollar, and stays within nine dollars of the worksheet. */
module IrsFormProofs {
  import opened Accounts
  import opened NarrativeText
  import opened NarrativeTextProofs
  import opened TaxWorksheet
  import opened IrsForm

  // ----- what a field shows -----------------------------------------------------------------

  /** A printed whole-dollar amount read back; blank is zero. */
  function ReadDollars(s: string): int {
    if s == "" then 0
    else if s[0] == '-' then
      (var d := NoCommas(s[1..]); if AllDigits(d) then -(ToNat(d) as int) else 0)
    else
      (var d := NoCommas(s); if AllDigits(d) then ToNat(d) else 0)
  }

  lemma ReadPrinted(n: int)
    ensures ReadDollars(PrintDollars(n)) == n
  {
    GroupShape(Abs(n));
    if n < 0 {
      assert PrintDollars(n)[1..] == Group(Abs(n));
    } else {
      assert PrintDollars(n) == Group(Abs(n));
    }
  }

  lemma ReadAmount(units: int)
    ensures ReadDollars(FmtAmount(units)) == RoundDollars(units)
  {
    ReadPrinted(RoundDollars(units));
  }

  function Shown(out: map<nat, string>, field: nat): int { if field in out then ReadDollars(out[field]) else 0 }

  /** On every form the line fields are distinct, and apart from the derived ones. */
  lemma FieldsApart(form: FormCode, c: Code, d: Code)
    ensures LineField(form, c).Some? && LineField(form, d).Some? && c != d ==>
              LineField(form, c).value != LineField(form, d).value
  {
  }

  lemma DerivedFieldsApart(form: FormCode, c: Code, k: nat)
    requires LineField(form, c).Some? && k < |ComputedFields(form)|
    ensures ComputedFields(form)[k].1 != LineField(form, c).value
  {
  }

  /** A filled line shows its rounded amount, an absent one nothing. */
  lemma {:induction false} FilledShows(form: FormCode, lines: seq<(Code, int)>, c: Code)
    requires LineField(form, c).Some?
    ensures Shown(Filled(form, lines), LineField(form, c).value) == Rounded(ByCode(lines), c)
  {
    if lines != [] {
      var (d, amount) := lines[|lines|-1];
      FilledShows(form, lines[..|lines|-1], c);
      FieldsApart(form, c, d);
      ReadAmount(amount);
    }
  }

  /** Without an error, a code that has no field has no amount. */
  lemma {:induction false} HomelessIsZero(form: FormCode, lines: seq<(Code, int)>, c: Code)
    requires Homeless(form, lines) == {} && LineField(form, c).None?
    ensures AmountOf(ByCode(lines), c) == 0
  {
    if lines != [] {
      var n := |lines| - 1;
      HomelessSnoc(form, lines, n);
      assert lines[..n+1] == lines;
      HomelessIsZero(form, lines[..n], c);
    }
  }

  lemma {:induction false} DerivedElsewhere(form: FormCode, out: map<nat, string>, amounts: map<Code, int>,
                                            computed: seq<(Code, nat)>, field: nat)
    requires forall k :: 0 <= k < |computed| ==> computed[k].1 != field
    ensures Shown(WithDerived(form, out, amounts, computed), field) == Shown(out, field)
  {
    if computed != [] {
      DerivedElsewhere(form, out, amounts, computed[..|computed|-1], field);
    }
  }

  lemma {:induction false} DerivedShows(form: FormCode, out: map<nat, string>, amounts: map<Code, int>,
                                        computed: seq<(Code, nat)>, k: nat)
    requires k < |computed| && Derived(form, amounts, computed[k].0).Some?
    requires forall i, j :: 0 <= i < j < |computed| ==> computed[i].1 != computed[j].1
    ensures Shown(WithDerived(form, out, amounts, computed), computed[k].1) == Derived(form, amounts, computed[k].0).value
  {
    var n := |computed| - 1;
    if k < n {
      DerivedShows(form, out, amounts, computed[..n], k);
    } else {
      ReadPrinted(Derived(form, amounts, computed[k].0).value);
    }
  }

  /** The fields of lines 7 to 19 of Form 1120-S add up. */
  function ShownFrom25(out: map<nat, string>, n: nat): int {
    if n <= 25 then 0 else ShownFrom25(out, n - 1) + Shown(out, n - 1)
  }

  function PrintedForm(form: FormCode, lines: seq<(Code, int)>): map<nat, string> {
    WithDerived(form, Filled(form, lines), ByCode(lines), ComputedFields(form))
  }

  /** On every form every line shows its whole-dollar rounding in its own field. */
  lemma LineShows(form: FormCode, lines: seq<(Code, int)>, c: Code)
    requires LineField(form, c).Some?
    ensures Shown(PrintedForm(form, lines), LineField(form, c).value) == Rounded(ByCode(lines), c)
  {
    var computed := ComputedFields(form);
    forall k | 0 <= k < |computed| ensures computed[k].1 != LineField(form, c).value { DerivedFieldsApart(form, c, k); }
    DerivedElsewhere(form, Filled(form, lines), ByCode(lines), computed, LineField(form, c).value);
    FilledShows(form, lines, c);
  }

  lemma DerivedLineShows(lines: seq<(Code, int)>, k: nat)
    requires k < 5
    ensures Derived(F1120S, ByCode(lines), COMPUTED_1120S[k].0).Some?
    ensures Shown(PrintedForm(F1120S, lines), COMPUTED_1120S[k].1)
         == Derived(F1120S, ByCode(lines), COMPUTED_1120S[k].0).value
  {
    DerivedShows(F1120S, Filled(F1120S, lines), ByCode(lines), COMPUTED_1120S, k);
  }

  lemma {:induction false} FieldsAddUp(out: map<nat, string>, amounts: map<Code, int>, n: nat)
    requires 7 <= n && forall m: nat :: 7 <= m < n ==> Shown(out, 18 + m) == Rounded(amounts, Line(m))
    ensures ShownFrom25(out, 18 + n) == RoundedFrom7(amounts, n)
  {
    if n > 7 {
      FieldsAddUp(out, amounts, n - 1);
      assert Shown(out, 18 + (n - 1)) == Rounded(amounts, Line(n - 1));
    }
  }

  lemma DeductionsShow(form: FormCode, lines: seq<(Code, int)>, out: map<nat, string>)
    requires form == F1120S && out == PrintedForm(form, lines)
    ensures ShownFrom25(out, 38) == RoundedFrom7(ByCode(lines), 20)
  {
    forall m: nat | 7 <= m < 20 ensures Shown(out, 18 + m) == Rounded(ByCode(lines), Line(m)) {
      LineShows(form, lines, Line(m));
    }
    FieldsAddUp(out, ByCode(lines), 20);
  }

  lemma IncomeTiesOut(lines: seq<(Code, int)>)
    ensures var out := PrintedForm(F1120S, lines);
            && Shown(out, 19) == Shown(out, 17) - Shown(out, 18)
            && Shown(out, 21) == Shown(out, 19) - Shown(out, 20)
            && Shown(out, 24) == Shown(out, 21) + Shown(out, 22) + Shown(out, 23)
  {
    LineShows(F1120S, lines, L1A);
    LineShows(F1120S, lines, L1B);
    LineShows(F1120S, lines, Line(2));
    LineShows(F1120S, lines, Line(4));
    LineShows(F1120S, lines, Line(5));
    DerivedLineShows(lines, 0);
    DerivedLineShows(lines, 1);
    DerivedLineShows(lines, 2);
  }

  lemma WithoutLine20(amounts: map<Code, int>)
    requires AmountOf(amounts, Line(20)) == 0
    ensures RoundedFrom7(amounts, 21) == RoundedFrom7(amounts, 20)
  {
  }

  lemma DerivedShow(lines: seq<(Code, int)>, out: map<nat, string>)
    requires out == PrintedForm(F1120S, lines)
    ensures var d := (n: nat) => Derived(F1120S, ByCode(lines), Line(n));
            && d(6).Some? && Shown(out, 24) == d(6).value && d(21).Some? && Shown(out, 38) == d(21).value
            && d(22).Some? && Shown(out, 39) == d(22).value
  {
    DerivedLineShows(lines, 2);
    DerivedLineShows(lines, 3);
    DerivedLineShows(lines, 4);
  }

  lemma ResultIsDifference(amounts: map<Code, int>)
    ensures var d := (n: nat) => Derived(F1120S, amounts, Line(n));
            d(6).Some? && d(21).Some? && d(22).Some? && d(22).value == d(6).value - d(21).value
  {
  }

  lemma AllDeductions(lines: seq<(Code, int)>)
    requires Homeless(F1120S, lines) == {}
    ensures Derived(F1120S, ByCode(lines), Line(21)) == Some(RoundedFrom7(ByCode(lines), 20))
  {
    HomelessIsZero(F1120S, lines, Line(20));
    WithoutLine20(ByCode(lines));
  }

  lemma DeductionsTieOut(lines: seq<(Code, int)>, out: map<nat, string>)
    requires Homeless(F1120S, lines) == {} && out == PrintedForm(F1120S, lines)
    ensures Shown(out, 38) == ShownFrom25(out, 38) && Shown(out, 39) == Shown(out, 24) - Shown(out, 38)
  {
    DerivedShow(lines, out);
    ResultIsDifference(ByCode(lines));
    AllDeductions(lines);
    DeductionsShow(F1120S, lines, out);
  }

  /** Whatever the worksheet holds, the printed dollars add up: 1c = 1a - 1b, 3 = 1c - 2,
      6 = 3 + 4 + 5, 21 = 7 + ... + 19 and 22 = 6 - 21. */
  lemma FormTiesOut(lines: seq<(Code, int)>)
    requires Homeless(F1120S, lines) == {}
    ensures var out := PrintedForm(F1120S, lines);
            && Shown(out, 19) == Shown(out, 17) - Shown(out, 18)
            && Shown(out, 21) == Shown(out, 19) - Shown(out, 20)
            && Shown(out, 24) == Shown(out, 21) + Shown(out, 22) + Shown(out, 23)
            && Shown(out, 38) == ShownFrom25(out, 38)
            && Shown(out, 39) == Shown(out, 24) - Shown(out, 38)
  {
    IncomeTiesOut(lines);
    DeductionsTieOut(lines, PrintedForm(F1120S, lines));
  }

  // ----- the distance to the worksheet ----------------------------------------------------------

  /** The 18 lines of the Form 1120-S catalog. */
  function CatalogCode(i: nat): Code {
    if i == 0 then L1A else if i == 1 then L1B else if i == 2 then Line(2)
    else if i == 3 then Line(4) else if i == 4 then Line(5) else Line(i + 2)
  }

  function CatalogSection(i: nat): Section { if i == 2 then Cogs else if i < 5 then Income else Deductions }

  ghost predicate IsCatalog(rows: seq<Row>) {
    && |rows| == 18
    && forall i :: 0 <= i < 18 ==>
         rows[i].line.code == CatalogCode(i) && rows[i].line.section == CatalogSection(i)
  }

  function LinesOf(rows: seq<Row>): (r: seq<(Code, int)>)
    ensures |r| == |rows| && forall i :: 0 <= i < |rows| ==> r[i] == (rows[i].line.code, rows[i].amount)
  {
    seq(|rows|, i requires 0 <= i < |rows| => (rows[i].line.code, rows[i].amount))
  }

  lemma {:induction false} CatalogAmount(rows: seq<Row>, n: nat, i: nat)
    requires IsCatalog(rows) && i < n <= 18
    ensures AmountOf(ByCode(LinesOf(rows)[..n]), CatalogCode(i)) == rows[i].amount
  {
    assert LinesOf(rows)[..n][..n-1] == LinesOf(rows)[..n-1];
    if i < n - 1 {
      CatalogAmount(rows, n - 1, i);
      assert CatalogCode(i) != CatalogCode(n - 1);
    }
  }

  lemma AmountIs(rows: seq<Row>, i: nat)
    requires IsCatalog(rows) && i < 18
    ensures AmountOf(ByCode(LinesOf(rows)), CatalogCode(i)) == rows[i].amount
  {
    CatalogAmount(rows, 18, i);
    assert LinesOf(rows)[..18] == LinesOf(rows);
  }

  lemma CatalogHasHome(rows: seq<Row>)
    requires IsCatalog(rows)
    ensures Homeless(F1120S, LinesOf(rows)) == {}
  {
    forall i | 0 <= i < 18 ensures LineField(F1120S, LinesOf(rows)[i].0).Some? {
      assert LinesOf(rows)[i].0 == CatalogCode(i);
    }
  }

  lemma RoundingError(units: int)
    ensures -5000 <= 10000 * RoundDollars(units) - units <= 5000
  {
  }

  /** Rounded and exact deductions of catalog lines 5 up to `j`. */
  lemma {:induction false} DeductionError(rows: seq<Row>, j: nat)
    requires IsCatalog(rows) && 5 <= j <= 18
    ensures var gap := 10000 * RoundedFrom7(ByCode(LinesOf(rows)), j + 2)
                       - (SectionTotal(rows[..j], Deductions) - SectionTotal(rows[..5], Deductions));
            -5000 * (j - 5) <= gap <= 5000 * (j - 5)
    ensures SectionTotal(rows[..j], Income) == SectionTotal(rows[..5], Income)
    ensures SectionTotal(rows[..j], Cogs) == SectionTotal(rows[..5], Cogs)
  {
    if j > 5 {
      DeductionError(rows, j - 1);
      assert rows[..j][..j-1] == rows[..j-1];
      AmountIs(rows, j - 1);
      RoundingError(rows[j-1].amount);
    }
  }

  function Part(r: Row, s: Section): int { if r.line.section == s then r.amount else 0 }

  lemma PrefixStep(rows: seq<Row>, j: nat, k: nat, s: Section)
    requires k == j + 1 <= |rows|
    ensures SectionTotal(rows[..k], s) == SectionTotal(rows[..j], s) + Part(rows[j], s)
  {
    assert rows[..k][..j] == rows[..j];
  }

  lemma FiveParts(rows: seq<Row>, s: Section)
    requires |rows| >= 5
    ensures SectionTotal(rows[..5], s)
         == Part(rows[0], s) + Part(rows[1], s) + Part(rows[2], s) + Part(rows[3], s) + Part(rows[4], s)
  {
    PrefixStep(rows, 0, 1, s);
    PrefixStep(rows, 1, 2, s);
    PrefixStep(rows, 2, 3, s);
    PrefixStep(rows, 3, 4, s);
    PrefixStep(rows, 4, 5, s);
  }

  lemma FirstFive(rows: seq<Row>)
    requires IsCatalog(rows)
    ensures SectionTotal(rows[..5], Income) == rows[0].amount + rows[1].amount + rows[3].amount + rows[4].amount
    ensures SectionTotal(rows[..5], Cogs) == rows[2].amount && SectionTotal(rows[..5], Deductions) == 0
  {
    FiveParts(rows, Income);
    FiveParts(rows, Cogs);
    FiveParts(rows, Deductions);
  }

  lemma IncomeError(rows: seq<Row>)
    requires IsCatalog(rows)
    ensures var exact := rows[0].amount - rows[1].amount - rows[2].amount + rows[3].amount + rows[4].amount;
            -25000 <= 10000 * TotalIncome(ByCode(LinesOf(rows))) - exact <= 25000
  {
    AmountIs(rows, 0);
    AmountIs(rows, 1);
    AmountIs(rows, 2);
    AmountIs(rows, 3);
    AmountIs(rows, 4);
    RoundingError(rows[0].amount);
    RoundingError(rows[1].amount);
    RoundingError(rows[2].amount);
    RoundingError(rows[3].amount);
    RoundingError(rows[4].amount);
  }

  lemma LineTwentyIsZero(rows: seq<Row>)
    requires IsCatalog(rows)
    ensures RoundedFrom7(ByCode(LinesOf(rows)), 21) == RoundedFrom7(ByCode(LinesOf(rows)), 20)
  {
    CatalogHasHome(rows);
    HomelessIsZero(F1120S, LinesOf(rows), Line(20));
  }

  /** Line 22 of the form, in whole dollars. */
  function Line22(rows: seq<Row>): int { Derived(F1120S, ByCode(LinesOf(rows)), Line(22)).value }

  /** Line 22 is within half a dollar a line, nine dollars in all, of the worksheet's taxable
      income less twice line 1b, which the worksheet adds and the form subtracts. */
  lemma WithinNineDollars(rows: seq<Row>)
    requires IsCatalog(rows)
    ensures -90000 <= 10000 * Line22(rows) - (WorksheetOf(rows).taxable - 2 * rows[1].amount) <= 90000
  {
    LineTwentyIsZero(rows);
    IncomeError(rows);
    DeductionError(rows, 18);
    FirstFive(rows);
    assert rows[..18] == rows;
  }

  /** A worksheet that rounds every line the same way. */
  function HalfDollarRows(ids: nat -> nat): (r: seq<Row>)
    ensures IsCatalog(r)
    ensures forall i :: 0 <= i < 18 ==> r[i].amount == if i == 0 || i == 3 || i == 4 then 5000 else -5000
  {
    seq(18, i requires 0 <= i < 18 =>
      Row(FormLine(ids(i), CatalogCode(i), CatalogSection(i)), if i == 0 || i == 3 || i == 4 then 5000 else -5000))
  }

  lemma {:induction false} HalfDollarDeductions(rows: seq<Row>, j: nat)
    requires IsCatalog(rows) && 5 <= j <= 18 && forall i :: 5 <= i < 18 ==> rows[i].amount == -5000
    ensures RoundedFrom7(ByCode(LinesOf(rows)), j + 2) == -(j - 5)
    ensures SectionTotal(rows[..j], Deductions) == SectionTotal(rows[..5], Deductions) - 5000 * (j - 5)
  {
    if j > 5 {
      HalfDollarDeductions(rows, j - 1);
      assert rows[..j][..j-1] == rows[..j-1];
      AmountIs(rows, j - 1);
    }
  }

  /** The nine dollars are reached. */
  lemma NineDollarsReached(ids: nat -> nat)
    ensures var rows := HalfDollarRows(ids);
            10000 * Line22(rows) - (WorksheetOf(rows).taxable - 2 * rows[1].amount) == 90000
  {
    var rows := HalfDollarRows(ids);
    LineTwentyIsZero(rows);
    AmountIs(rows, 0);
    AmountIs(rows, 1);
    AmountIs(rows, 2);
    AmountIs(rows, 3);
    AmountIs(rows, 4);
    HalfDollarDeductions(rows, 18);
    DeductionError(rows, 18);
    FirstFive(rows);
    assert rows[..18] == rows;
  }
}
