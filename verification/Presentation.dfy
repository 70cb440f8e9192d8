/** Re-presenting the engine's statements in sections. Amounts stay in 1/10000 units. */
module Presentation {
  import opened Accounts
  import opened Ledger
  import opened Statements
  import opened Rules

  /** A percentage in hundredths; decimals keep the sign of a zero. */
  datatype Pct = Pct(negative: bool, hundredths: nat)

  datatype Variance = Variance(current: real, prior: real, delta: real, pct: Option<Pct>)

  datatype PresentedLine = PresentedLine(code: string, name: string, amount: real, variance: Option<Variance>)

  datatype PresentedSection = PresentedSection(lines: seq<PresentedLine>, subtotal: real, variance: Option<Variance>)

  datatype PresentedPl = PresentedPl(
    revenue: PresentedSection, cogs: PresentedSection, grossProfit: real, grossProfitVariance: Option<Variance>,
    operatingExpenses: PresentedSection, operatingIncome: real, operatingIncomeVariance: Option<Variance>,
    otherIncome: PresentedSection, otherExpenses: PresentedSection, netIncome: real, netIncomeVariance: Option<Variance>)

  datatype PresentedBs = PresentedBs(
    currentAssets: PresentedSection, nonCurrentAssets: PresentedSection, totalAssets: real,
    totalAssetsVariance: Option<Variance>,
    currentLiabilities: PresentedSection, longTermLiabilities: PresentedSection, totalLiabilities: real,
    equity: PresentedSection, retained: real, retainedVariance: Option<Variance>,
    totalEquity: real, totalLiabilitiesAndEquity: real)

  /** Nearest integer, ties to even: the decimal context's rounding. */
  function RoundHalfEven(x: real): int {
    var f := x.Floor;
    var r := x - f as real;
    if r < 0.5 then f else if r > 0.5 then f + 1 else if f % 2 == 0 then f else f + 1
  }

  function Magnitude(x: int): nat { if x < 0 then -x else x }

  /** `rnd` is the rounding of decimal division and multiplication; the percent is then rounded to hundredths. */
  function VarianceOf(rnd: real -> real, current: real, prior: real): Variance {
    var delta := current - prior;
    if prior == 0.0 then Variance(current, prior, delta, None)
    else Variance(current, prior, delta,
                  Some(Pct((delta < 0.0) != (prior < 0.0),
                           Magnitude(RoundHalfEven(rnd(rnd(delta / prior) * 100.0) * 100.0)))))
  }

  // ----- profit and loss -----------------------------------------------------

  datatype Split = Split(
    revenue: seq<AccountBalance>, otherIncome: seq<AccountBalance>,
    cogs: seq<AccountBalance>, operating: seq<AccountBalance>, otherExpense: seq<AccountBalance>)

  function Keep(rows: seq<AccountBalance>, p: string -> bool): seq<AccountBalance> {
    if rows == [] then []
    else if p(rows[|rows|-1].code) then Keep(rows[..|rows|-1], p) + [rows[|rows|-1]]
    else Keep(rows[..|rows|-1], p)
  }

  function OtherIncome(r: PresentationRules): string -> bool { c => IsOtherIncome(c, r) }
  function NotOtherIncome(r: PresentationRules): string -> bool { c => !IsOtherIncome(c, r) }
  function Cogs(r: PresentationRules): string -> bool { c => IsCogs(c, r) }
  function OtherExpense(r: PresentationRules): string -> bool { c => !IsCogs(c, r) && IsOtherExpense(c, r) }
  function OperatingExpense(r: PresentationRules): string -> bool { c => !IsCogs(c, r) && !IsOtherExpense(c, r) }

  function SplitOf(pl: ProfitAndLoss, r: PresentationRules): Split {
    Split(Keep(pl.revenue, NotOtherIncome(r)), Keep(pl.revenue, OtherIncome(r)),
          Keep(pl.expenses, Cogs(r)), Keep(pl.expenses, OperatingExpense(r)), Keep(pl.expenses, OtherExpense(r)))
  }

  method SplitPl(pl: ProfitAndLoss, r: PresentationRules) returns (s: Split)
    ensures s == SplitOf(pl, r)
  {
    var revenue, otherIncome, cogs, operating, otherExpense := [], [], [], [], [];
    for i := 0 to |pl.revenue|
      invariant revenue == Keep(pl.revenue[..i], NotOtherIncome(r))
      invariant otherIncome == Keep(pl.revenue[..i], OtherIncome(r))
    {
      assert pl.revenue[..i+1][..i] == pl.revenue[..i];
      if IsOtherIncome(pl.revenue[i].code, r) {
        otherIncome := otherIncome + [pl.revenue[i]];
      } else {
        revenue := revenue + [pl.revenue[i]];
      }
    }
    for i := 0 to |pl.expenses|
      invariant cogs == Keep(pl.expenses[..i], Cogs(r))
      invariant operating == Keep(pl.expenses[..i], OperatingExpense(r))
      invariant otherExpense == Keep(pl.expenses[..i], OtherExpense(r))
    {
      var e := pl.expenses[i];
      assert pl.expenses[..i+1][..i] == pl.expenses[..i];
      if IsCogs(e.code, r) {
        cogs := cogs + [e];
      } else if IsOtherExpense(e.code, r) {
        otherExpense := otherExpense + [e];
      } else {
        operating := operating + [e];
      }
    }
    assert pl.revenue[..|pl.revenue|] == pl.revenue && pl.expenses[..|pl.expenses|] == pl.expenses;
    s := Split(revenue, otherIncome, cogs, operating, otherExpense);
  }

  function PriorOf(prior: map<string, int>, code: string): int {
    if code in prior then prior[code] else 0
  }

  /** Later rows of the same code win. */
  function ByCode(rows: seq<AccountBalance>): map<string, int> {
    if rows == [] then map[] else ByCode(rows[..|rows|-1])[rows[|rows|-1].code := rows[|rows|-1].signed]
  }

  function SumPrior(rows: seq<AccountBalance>, prior: map<string, int>): int {
    if rows == [] then 0 else SumPrior(rows[..|rows|-1], prior) + PriorOf(prior, rows[|rows|-1].code)
  }

  function LineOf(rnd: real -> real, a: AccountBalance, prior: Option<map<string, int>>): PresentedLine {
    PresentedLine(a.code, a.name, a.signed as real,
                  if prior.Some? then Some(VarianceOf(rnd, a.signed as real, PriorOf(prior.value, a.code) as real))
                  else None)
  }

  function LinesOf(rnd: real -> real, rows: seq<AccountBalance>, prior: Option<map<string, int>>)
    : (r: seq<PresentedLine>)
    ensures |r| == |rows| && forall i :: 0 <= i < |rows| ==> r[i] == LineOf(rnd, rows[i], prior)
  {
    seq(|rows|, i requires 0 <= i < |rows| => LineOf(rnd, rows[i], prior))
  }

  function SectionOf(rnd: real -> real, rows: seq<AccountBalance>, prior: Option<map<string, int>>): PresentedSection {
    var total := SumSigned(rows) as real;
    PresentedSection(LinesOf(rnd, rows, prior), total,
                     if prior.Some? then Some(VarianceOf(rnd, total, SumPrior(rows, prior.value) as real)) else None)
  }

  method PresentSection(rnd: real -> real, rows: seq<AccountBalance>, prior: Option<map<string, int>>)
    returns (s: PresentedSection)
    ensures s == SectionOf(rnd, rows, prior)
  {
    var lines: seq<PresentedLine> := [];
    var subtotal, priorSum := 0, 0;
    for i := 0 to |rows|
      invariant lines == LinesOf(rnd, rows, prior)[..i]
      invariant subtotal == SumSigned(rows[..i])
      invariant prior.Some? ==> priorSum == SumPrior(rows[..i], prior.value)
    {
      assert rows[..i+1][..i] == rows[..i];
      lines, subtotal := lines + [LineOf(rnd, rows[i], prior)], subtotal + rows[i].signed;
      if prior.Some? {
        priorSum := priorSum + PriorOf(prior.value, rows[i].code);
      }
    }
    assert rows[..|rows|] == rows;
    assert LinesOf(rnd, rows, prior)[..|rows|] == LinesOf(rnd, rows, prior);
    s := PresentedSection(lines, subtotal as real,
                          if prior.Some? then Some(VarianceOf(rnd, subtotal as real, priorSum as real)) else None);
  }

  /** Headline gross profit, operating income and net income of a split. */
  function Headlines(s: Split): (int, int, int) {
    var gross := SumSigned(s.revenue) - SumSigned(s.cogs);
    var operating := gross - SumSigned(s.operating);
    (gross, operating, operating + SumSigned(s.otherIncome) - SumSigned(s.otherExpense))
  }

  function PresentProfitAndLoss(rnd: real -> real, pl: ProfitAndLoss, r: PresentationRules, prior: Option<ProfitAndLoss>)
    : PresentedPl
  {
    var s := SplitOf(pl, r);
    var byCode := if prior.Some? then Some(ByCode(prior.value.revenue + prior.value.expenses)) else None;
    var h := Headlines(s);
    var p := if prior.Some? then Headlines(SplitOf(prior.value, r)) else (0, 0, 0);
    PresentedPl(SectionOf(rnd, s.revenue, byCode), SectionOf(rnd, s.cogs, byCode),
                h.0 as real, if prior.Some? then Some(VarianceOf(rnd, h.0 as real, p.0 as real)) else None,
                SectionOf(rnd, s.operating, byCode),
                h.1 as real, if prior.Some? then Some(VarianceOf(rnd, h.1 as real, p.1 as real)) else None,
                SectionOf(rnd, s.otherIncome, byCode), SectionOf(rnd, s.otherExpense, byCode),
                h.2 as real, if prior.Some? then Some(VarianceOf(rnd, h.2 as real, p.2 as real)) else None)
  }

  // ----- balance sheet ----------------------------------------------------------

  function CurrentAsset(r: PresentationRules): string -> bool {
    c => AtMost(c, r.currentAssetMax) || !AtMost(r.longTermAssetMin, c)
  }
  function NonCurrentAsset(r: PresentationRules): string -> bool {
    c => !AtMost(c, r.currentAssetMax) && AtMost(r.longTermAssetMin, c)
  }
  function CurrentLiability(r: PresentationRules): string -> bool {
    c => AtMost(c, r.currentLiabilityMax) || !AtMost(r.longTermLiabilityMin, c)
  }
  function LongTermLiability(r: PresentationRules): string -> bool {
    c => !AtMost(c, r.currentLiabilityMax) && AtMost(r.longTermLiabilityMin, c)
  }

  function PresentBalanceSheet(rnd: real -> real, bs: BalanceSheet, r: PresentationRules, prior: Option<BalanceSheet>)
    : Result<PresentedBs, StatementError>
  {
    var byCode :=
      if prior.Some? then Some(ByCode(prior.value.assets + prior.value.liabilities + prior.value.equity)) else None;
    var ca, na := Keep(bs.assets, CurrentAsset(r)), Keep(bs.assets, NonCurrentAsset(r));
    var cl, ll := Keep(bs.liabilities, CurrentLiability(r)), Keep(bs.liabilities, LongTermLiability(r));
    var totalA, totalL := SumSigned(ca) + SumSigned(na), SumSigned(cl) + SumSigned(ll);
    var totalE := SumSigned(bs.equity) + bs.retained;
    if totalA != totalL + totalE then Err(AssertionFailed)
    else Ok(PresentedBs(
      SectionOf(rnd, ca, byCode), SectionOf(rnd, na, byCode), totalA as real,
      if prior.Some? then Some(VarianceOf(rnd, totalA as real, prior.value.totalAssets as real)) else None,
      SectionOf(rnd, cl, byCode), SectionOf(rnd, ll, byCode), totalL as real,
      SectionOf(rnd, bs.equity, byCode), bs.retained as real,
      if prior.Some? then Some(VarianceOf(rnd, bs.retained as real, prior.value.retained as real)) else None,
      totalE as real, (totalL + totalE) as real))
  }
}
