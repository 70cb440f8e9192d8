/** Code-prefix rules that decide where an account is presented. */
module Rules {
  import opened Accounts

  datatype PresentationRules = PresentationRules(
    currentAssetMax: string,
    currentLiabilityMax: string,
    cogsLow: string,
    cogsHigh: string,
    otherIncomeMin: string,
    otherExpenseMin: string,
    longTermAssetMin: string,
    longTermLiabilityMin: string)

  /** Codes compare as strings, character by character. */
  predicate AtMost(x: string, y: string) {
    x == [] || (y != [] && (x[0] < y[0] || (x[0] == y[0] && AtMost(x[1..], y[1..]))))
  }

  datatype Activity = Operating | Investing | Financing

  function ClassifyContra(t: AccountType, code: string, r: PresentationRules): Activity {
    match t
    case Revenue => Operating
    case Expense => Operating
    case Asset =>
      if AtMost(code, r.currentAssetMax) then Operating
      else if AtMost(r.longTermAssetMin, code) then Investing
      else Operating
    case Liability =>
      if AtMost(code, r.currentLiabilityMax) then Operating
      else if AtMost(r.longTermLiabilityMin, code) then Financing
      else Operating
    case Equity => Financing
  }

  predicate IsCogs(code: string, r: PresentationRules) {
    AtMost(r.cogsLow, code) && AtMost(code, r.cogsHigh)
  }

  predicate IsOtherIncome(code: string, r: PresentationRules) {
    AtMost(r.otherIncomeMin, code)
  }

  predicate IsOtherExpense(code: string, r: PresentationRules) {
    AtMost(r.otherExpenseMin, code) && !IsCogs(code, r)
  }
}
