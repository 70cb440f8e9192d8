/** Types shared by the engine: optional values, results, and the chart of accounts. */
module Accounts {

  datatype Option<+T> = None | Some(value: T)

  datatype Result<+T, +E> = Ok(value: T) | Err(error: E)

  datatype AccountType = Asset | Liability | Equity | Revenue | Expense

  /** A `chart_of_accounts` row. Its primary key is its position in the table;
      `parent` is the position of the parent row. */
  datatype Account = Account(
    code: string,
    name: string,
    accountType: AccountType,
    parent: Option<nat>,
    path: string,
    depth: nat,
    isLeaf: bool,
    isActive: bool)

  /** A balance is positive on the natural side of the account. */
  function Signed(t: AccountType, debit: int, credit: int): int {
    if t == Asset || t == Expense then debit - credit else credit - debit
  }

  predicate DistinctCodes(accounts: seq<Account>) {
    forall i, j :: 0 <= i < j < |accounts| ==> accounts[i].code != accounts[j].code
  }
}
