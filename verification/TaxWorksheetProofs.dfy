/** Conservation through the tax mapping, and what the worksheet owes to the ledger. */
module TaxWorksheetProofs {
  import opened Accounts
  import opened Ledger
  import opened LedgerRuns
  import opened Statements
  import opened StatementProofs
  import opened Sums
  import opened TaxWorksheet

  // ----- sums over mappings ----------------------------------------------------------

  ghost predicate DistinctIds(form: seq<FormLine>) {
    forall j, k :: 0 <= j < k < |form| ==> form[j].id != form[k].id
  }

  predicate OnForm(form: seq<FormLine>, line: nat, s: Section) {
    exists k :: 0 <= k < |form| && form[k].id == line && form[k].section == s
  }

  /** The contributions whose line lies in section `s` of the form. */
  function InSection(ms: seq<Mapping>, w: Mapping -> int, form: seq<FormLine>, s: Section): int {
    if ms == [] then 0
    else
      InSection(ms[..|ms|-1], w, form, s) + if OnForm(form, ms[|ms|-1].line, s) then w(ms[|ms|-1]) else 0
  }

  /** The section total summed line by line. */
  function ByLines(ms: seq<Mapping>, w: Mapping -> int, form: seq<FormLine>, s: Section): int {
    if form == [] then 0
    else
      ByLines(ms, w, form[..|form|-1], s) + if form[|form|-1].section == s then AtLine(ms, w, form[|form|-1].id) else 0
  }

  lemma {:induction false} RowsByLines(ms: seq<Mapping>, w: Mapping -> int, form: seq<FormLine>, s: Section)
    ensures SectionTotal(RowsOf(ms, w, form), s) == ByLines(ms, w, form, s)
  {
    if form != [] {
      RowsByLines(ms, w, form[..|form|-1], s);
      assert RowsOf(ms, w, form)[..|form|-1] == RowsOf(ms, w, form[..|form|-1]);
    }
  }

  lemma {:induction false} ByLinesNone(w: Mapping -> int, form: seq<FormLine>, s: Section)
    ensures ByLines([], w, form, s) == 0
  {
    if form != [] { ByLinesNone(w, form[..|form|-1], s); }
  }

  lemma OnFormSnoc(form: seq<FormLine>, line: nat, s: Section)
    requires form != []
    ensures OnForm(form, line, s)
       <==> OnForm(form[..|form|-1], line, s) || (form[|form|-1].id == line && form[|form|-1].section == s)
  {
    var init := form[..|form|-1];
    assert forall k :: 0 <= k < |init| ==> init[k] == form[k];
    if OnForm(init, line, s) {
      var k :| 0 <= k < |init| && init[k].id == line && init[k].section == s;
      assert form[k].id == line;
    }
  }

  /** One more mapping adds its contribution exactly once if its line is in the section. */
  lemma {:induction false} ByLinesStep(ms: seq<Mapping>, w: Mapping -> int, form: seq<FormLine>, s: Section)
    requires ms != [] && DistinctIds(form)
    ensures ByLines(ms, w, form, s) == ByLines(ms[..|ms|-1], w, form, s)
                                     + if OnForm(form, ms[|ms|-1].line, s) then w(ms[|ms|-1]) else 0
  {
    if form != [] {
      var init, last := form[..|form|-1], form[|form|-1];
      var line := ms[|ms|-1].line;
      ByLinesStep(ms, w, init, s);
      OnFormSnoc(form, line, s);
      if last.id == line {
        assert forall k :: 0 <= k < |init| ==> init[k] == form[k] && init[k].id != line;
      }
    }
  }

  /** Line by line or mapping by mapping, a section has the same total. */
  lemma {:induction false} SectionExchange(ms: seq<Mapping>, w: Mapping -> int, form: seq<FormLine>, s: Section)
    requires DistinctIds(form)
    ensures ByLines(ms, w, form, s) == InSection(ms, w, form, s)
  {
    if ms == [] {
      ByLinesNone(w, form, s);
    } else {
      SectionExchange(ms[..|ms|-1], w, form, s);
      ByLinesStep(ms, w, form, s);
    }
  }

  // ----- sums over accounts -------------------------------------------------------------

  function SumOf(ms: seq<Mapping>, w: Mapping -> int): int {
    if ms == [] then 0 else SumOf(ms[..|ms|-1], w) + w(ms[|ms|-1])
  }

  function AtAccount(ms: seq<Mapping>, w: Mapping -> int, i: nat): int {
    if ms == [] then 0
    else AtAccount(ms[..|ms|-1], w, i) + if ms[|ms|-1].account == i then w(ms[|ms|-1]) else 0
  }

  function ByAccounts(ms: seq<Mapping>, w: Mapping -> int, n: nat): int {
    if n == 0 then 0 else ByAccounts(ms, w, n - 1) + AtAccount(ms, w, n - 1)
  }

  lemma {:induction false} ByAccountsNone(w: Mapping -> int, n: nat)
    ensures ByAccounts([], w, n) == 0
  {
    if n > 0 { ByAccountsNone(w, n - 1); }
  }

  lemma {:induction false} ByAccountsStep(ms: seq<Mapping>, w: Mapping -> int, n: nat)
    requires ms != []
    ensures ByAccounts(ms, w, n)
         == ByAccounts(ms[..|ms|-1], w, n) + if ms[|ms|-1].account < n then w(ms[|ms|-1]) else 0
  {
    if n > 0 { ByAccountsStep(ms, w, n - 1); }
  }

  /** Mapping by mapping or account by account, the contributions have the same sum. */
  lemma {:induction false} AccountExchange(ms: seq<Mapping>, w: Mapping -> int, n: nat)
    requires forall k :: 0 <= k < |ms| && ms[k].account >= n ==> w(ms[k]) == 0
    ensures ByAccounts(ms, w, n) == SumOf(ms, w)
  {
    if ms == [] {
      ByAccountsNone(w, n);
    } else {
      AccountExchange(ms[..|ms|-1], w, n);
      ByAccountsStep(ms, w, n);
    }
  }

  lemma {:induction false} AtAccountAbsent(ms: seq<Mapping>, w: Mapping -> int, i: nat)
    requires !Mapped(ms, i)
    ensures AtAccount(ms, w, i) == 0
  {
    if ms != [] {
      assert forall k :: 0 <= k < |ms| - 1 ==> ms[..|ms|-1][k] == ms[k];
      AtAccountAbsent(ms[..|ms|-1], w, i);
    }
  }

  /** An account with a mapping is counted once, through that mapping. */
  lemma {:induction false} AtAccountOnce(ms: seq<Mapping>, w: Mapping -> int, k: nat)
    requires DistinctAccounts(ms) && k < |ms|
    ensures AtAccount(ms, w, ms[k].account) == w(ms[k])
  {
    var init := ms[..|ms|-1];
    assert forall j :: 0 <= j < |init| ==> init[j] == ms[j];
    if k == |ms| - 1 {
      AtAccountAbsent(init, w, ms[k].account);
    } else {
      AtAccountOnce(init, w, k);
    }
  }

  // ----- what an account brings to the worksheet ---------------------------------------------

  /** The mapping of an account. */
  function MappingOf(ms: seq<Mapping>, i: nat): Option<Mapping> {
    if ms == [] then None else if ms[|ms|-1].account == i then Some(ms[|ms|-1]) else MappingOf(ms[..|ms|-1], i)
  }

  lemma {:induction false} MappingOfFinds(ms: seq<Mapping>, i: nat)
    ensures MappingOf(ms, i).Some? <==> Mapped(ms, i)
    ensures MappingOf(ms, i).Some? ==> exists k :: 0 <= k < |ms| && ms[k] == MappingOf(ms, i).value && ms[k].account == i
  {
    if ms != [] {
      var init := ms[..|ms|-1];
      MappingOfFinds(init, i);
      MappedSnoc(init, ms[|ms|-1], i);
      assert init + [ms[|ms|-1]] == ms;
      if ms[|ms|-1].account != i && Mapped(init, i) {
        var k :| 0 <= k < |init| && init[k] == MappingOf(init, i).value && init[k].account == i;
        assert ms[k] == init[k];
      }
    }
  }

  /** The signed activity of an account as its mapping takes it; an unmapped one is taken as is. */
  function SignedActivity(b: Book, ms: seq<Mapping>, i: nat): int {
    if !InScope(b, i) then 0
    else
      var m := MappingOf(ms, i);
      if m.Some? && m.value.sign == Negative then -Activity(b, i) else Activity(b, i)
  }

  function TotalSigned(b: Book, ms: seq<Mapping>, n: nat): int {
    if n == 0 then 0 else TotalSigned(b, ms, n - 1) + SignedActivity(b, ms, n - 1)
  }

  lemma {:induction false} UnmappedComplete(b: Book, ms: seq<Mapping>, n: nat)
    requires n <= |b.accounts|
    ensures forall i: nat :: i in Unmapped(b, ms, n) <==> i < n && InScope(b, i) && Activity(b, i) != 0 && !Mapped(ms, i)
  {
    if n > 0 { UnmappedComplete(b, ms, n - 1); }
  }

  lemma AccountContribution(b: Book, ms: seq<Mapping>, i: nat)
    requires DistinctAccounts(ms) && i < |b.accounts| && Unmapped(b, ms, |b.accounts|) == []
    ensures AtAccount(ms, Brings(b), i) == SignedActivity(b, ms, i)
  {
    MappingOfFinds(ms, i);
    UnmappedComplete(b, ms, |b.accounts|);
    assert i !in Unmapped(b, ms, |b.accounts|);
    if Mapped(ms, i) {
      var k :| 0 <= k < |ms| && ms[k] == MappingOf(ms, i).value && ms[k].account == i;
      AtAccountOnce(ms, Brings(b), k);
    } else {
      AtAccountAbsent(ms, Brings(b), i);
    }
  }

  lemma {:induction false} AccountsContribute(b: Book, ms: seq<Mapping>, n: nat)
    requires DistinctAccounts(ms) && n <= |b.accounts| && Unmapped(b, ms, |b.accounts|) == []
    ensures ByAccounts(ms, Brings(b), n) == TotalSigned(b, ms, n)
  {
    if n > 0 {
      AccountsContribute(b, ms, n - 1);
      AccountContribution(b, ms, n - 1);
    }
  }

  // ----- conservation ---------------------------------------------------------------------------

  function RowTotal(rows: seq<Row>): int {
    if rows == [] then 0 else RowTotal(rows[..|rows|-1]) + rows[|rows|-1].amount
  }

  lemma {:induction false} RowTotalSections(rows: seq<Row>)
    ensures RowTotal(rows)
         == SectionTotal(rows, Income) + SectionTotal(rows, Cogs) + SectionTotal(rows, Deductions)
            + SectionTotal(rows, Other)
  {
    if rows != [] { RowTotalSections(rows[..|rows|-1]); }
  }

  predicate OnSomeSection(form: seq<FormLine>, line: nat) { exists k :: 0 <= k < |form| && form[k].id == line }

  /** Contributions mapped to lines of another form: the worksheet loses them. */
  function Lost(ms: seq<Mapping>, w: Mapping -> int, form: seq<FormLine>): int {
    if ms == [] then 0
    else Lost(ms[..|ms|-1], w, form) + if OnSomeSection(form, ms[|ms|-1].line) then 0 else w(ms[|ms|-1])
  }

  lemma OneSection(form: seq<FormLine>, line: nat)
    requires DistinctIds(form)
    ensures OnSomeSection(form, line)
       <==> OnForm(form, line, Income) || OnForm(form, line, Cogs) || OnForm(form, line, Deductions)
            || OnForm(form, line, Other)
    ensures forall s, t :: OnForm(form, line, s) && OnForm(form, line, t) ==> s == t
  {
    if OnSomeSection(form, line) {
      var k :| 0 <= k < |form| && form[k].id == line;
      assert OnForm(form, line, form[k].section);
      assert forall s :: OnForm(form, line, s) ==> s == form[k].section;
      var s := form[k].section;
      assert s == Income || s == Cogs || s == Deductions || s == Other;
    }
  }

  lemma {:induction false} SectionsAndLost(ms: seq<Mapping>, w: Mapping -> int, form: seq<FormLine>)
    requires DistinctIds(form)
    ensures InSection(ms, w, form, Income) + InSection(ms, w, form, Cogs) + InSection(ms, w, form, Deductions)
            + InSection(ms, w, form, Other) + Lost(ms, w, form) == SumOf(ms, w)
  {
    if ms != [] {
      SectionsAndLost(ms[..|ms|-1], w, form);
      OneSection(form, ms[|ms|-1].line);
    }
  }

  lemma SectionIs(b: Book, ms: seq<Mapping>, form: seq<FormLine>, s: Section)
    requires DistinctIds(form)
    ensures SectionTotal(RowsOf(ms, Brings(b), form), s) == InSection(ms, Brings(b), form, s)
  {
    RowsByLines(ms, Brings(b), form, s);
    SectionExchange(ms, Brings(b), form, s);
  }

  lemma ContributionsSum(b: Book, ms: seq<Mapping>)
    requires DistinctAccounts(ms) && Unmapped(b, ms, |b.accounts|) == []
    ensures SumOf(ms, Brings(b)) == TotalSigned(b, ms, |b.accounts|)
  {
    AccountExchange(ms, Brings(b), |b.accounts|);
    AccountsContribute(b, ms, |b.accounts|);
  }

  /** When generation succeeds, the lines and whatever was mapped off the form add up to the
      signed activity of every account, each taken once. */
  lemma WorksheetConserves(b: Book, ms: seq<Mapping>, form: seq<FormLine>)
    requires DistinctAccounts(ms) && DistinctIds(form) && Unmapped(b, ms, |b.accounts|) == []
    ensures RowTotal(RowsOf(ms, Brings(b), form)) + Lost(ms, Brings(b), form)
         == TotalSigned(b, ms, |b.accounts|)
    ensures (forall k :: 0 <= k < |ms| ==> OnSomeSection(form, ms[k].line)) ==>
              RowTotal(RowsOf(ms, Brings(b), form)) == TotalSigned(b, ms, |b.accounts|)
  {
    RowTotalSections(RowsOf(ms, Brings(b), form));
    SectionIs(b, ms, form, Income);
    SectionIs(b, ms, form, Cogs);
    SectionIs(b, ms, form, Deductions);
    SectionIs(b, ms, form, Other);
    SectionsAndLost(ms, Brings(b), form);
    ContributionsSum(b, ms);
    if forall k :: 0 <= k < |ms| ==> OnSomeSection(form, ms[k].line) {
      NothingLost(ms, Brings(b), form);
    }
  }

  lemma {:induction false} NothingLost(ms: seq<Mapping>, w: Mapping -> int, form: seq<FormLine>)
    requires forall k :: 0 <= k < |ms| ==> OnSomeSection(form, ms[k].line)
    ensures Lost(ms, w, form) == 0
  {
    if ms != [] { NothingLost(ms[..|ms|-1], w, form); }
  }

  function ContributionOf(): Contributor -> int { (c: Contributor) => c.contribution }

  /** The trace of a line adds up to its amount, and names each mapping that moved it once. */
  lemma {:induction false} TraceAddsUp(b: Book, ms: seq<Mapping>, line: nat)
    ensures SumOver(ContributorsAt(b, ms, line), ContributionOf()) == AtLine(ms, Brings(b), line)
    ensures forall c :: c in ContributorsAt(b, ms, line) ==> Mapped(ms, c.account) && c.contribution != 0
  {
    if ms != [] {
      var init, m := ms[..|ms|-1], ms[|ms|-1];
      TraceAddsUp(b, init, line);
      assert init + [m] == ms;
      forall c | c in ContributorsAt(b, init, line) ensures Mapped(ms, c.account) { MappedSnoc(init, m, c.account); }
      MappedSnoc(init, m, m.account);
      var before := ContributorsAt(b, init, line);
      if m.line == line && Brings(b)(m) != 0 {
        var last := Contributor(m.account, m.sign, Activity(b, m.account), Brings(b)(m));
        assert (before + [last])[..|before|] == before;
      }
    }
  }

  /** A contributor of a line is one of its mappings on a revenue or expense account with activity, with that
      activity and, by its sign, its contribution. */
  lemma {:induction false} ContributorsExactly(b: Book, ms: seq<Mapping>, line: nat, c: Contributor)
    ensures c in ContributorsAt(b, ms, line) <==>
              exists k ::
                && 0 <= k < |ms| && ms[k].line == line && ms[k].account == c.account && ms[k].sign == c.sign
                && c.account < |b.accounts| && b.accounts[c.account].accountType in {Revenue, Expense}
                && c.signedBalance == Activity(b, c.account) != 0
                && c.contribution == if c.sign == Positive then c.signedBalance else -c.signedBalance
  {
    if ms != [] {
      var n := |ms| - 1;
      ContributorsExactly(b, ms[..n], line, c);
      assert forall k :: 0 <= k < n ==> ms[..n][k] == ms[k];
    }
  }

  // ----- taxable income ------------------------------------------------------------------------------

  /** Revenue goes to income lines and expense to cost or deduction lines, all with a plus sign. */
  predicate StraightMapping(b: Book, form: seq<FormLine>, m: Mapping) {
    InScope(b, m.account) ==>
      && m.sign == Positive
      && if b.accounts[m.account].accountType == Revenue then OnForm(form, m.line, Income)
         else OnForm(form, m.line, Cogs) || OnForm(form, m.line, Deductions)
  }

  function ActivityOf(b: Book, t: AccountType, n: nat): int
    requires n <= |b.accounts|
  {
    if n == 0 then 0 else ActivityOf(b, t, n - 1) + if b.accounts[n-1].accountType == t then Activity(b, n - 1) else 0
  }

  /** An account's part of taxable income: revenue counts up, expense down. */
  function Taxed(b: Book): Mapping -> int {
    (m: Mapping) =>
      if !InScope(b, m.account) then 0
      else if b.accounts[m.account].accountType == Revenue then Activity(b, m.account) else -Activity(b, m.account)
  }

  lemma {:induction false} TaxedSections(b: Book, ms: seq<Mapping>, form: seq<FormLine>)
    requires DistinctIds(form) && forall k :: 0 <= k < |ms| ==> StraightMapping(b, form, ms[k])
    ensures InSection(ms, Brings(b), form, Income) - InSection(ms, Brings(b), form, Cogs)
            - InSection(ms, Brings(b), form, Deductions) == SumOf(ms, Taxed(b))
  {
    if ms != [] {
      var last := ms[|ms|-1];
      TaxedSections(b, ms[..|ms|-1], form);
      OneSection(form, last.line);
      assert StraightMapping(b, form, last);
    }
  }

  lemma {:induction false} TaxedAccounts(b: Book, ms: seq<Mapping>, n: nat)
    requires DistinctAccounts(ms) && n <= |b.accounts| && Unmapped(b, ms, |b.accounts|) == []
    ensures ByAccounts(ms, Taxed(b), n) == ActivityOf(b, Revenue, n) - ActivityOf(b, Expense, n)
  {
    if n > 0 {
      TaxedAccounts(b, ms, n - 1);
      MappingOfFinds(ms, n - 1);
      UnmappedComplete(b, ms, |b.accounts|);
      assert n - 1 !in Unmapped(b, ms, |b.accounts|);
      if Mapped(ms, n - 1) {
        var k :| 0 <= k < |ms| && ms[k] == MappingOf(ms, n - 1).value && ms[k].account == n - 1;
        AtAccountOnce(ms, Taxed(b), k);
      } else {
        AtAccountAbsent(ms, Taxed(b), n - 1);
      }
    }
  }

  /** Under a straight mapping taxable income is revenue minus expenses of the same activity. */
  lemma TaxableIsRevenueMinusExpenses(b: Book, ms: seq<Mapping>, form: seq<FormLine>)
    requires DistinctAccounts(ms) && DistinctIds(form) && Unmapped(b, ms, |b.accounts|) == []
    requires forall k :: 0 <= k < |ms| ==> StraightMapping(b, form, ms[k])
    ensures WorksheetOf(RowsOf(ms, Brings(b), form)).taxable
         == ActivityOf(b, Revenue, |b.accounts|) - ActivityOf(b, Expense, |b.accounts|)
  {
    SectionIs(b, ms, form, Income);
    SectionIs(b, ms, form, Cogs);
    SectionIs(b, ms, form, Deductions);
    TaxedSections(b, ms, form);
    AccountExchange(ms, Taxed(b), |b.accounts|);
    TaxedAccounts(b, ms, |b.accounts|);
  }

  // ----- activity against the posted period -------------------------------------------------------------

  /** One side of the lines that the period's profit and loss does not count. */
  function Uncounted(es: seq<Entry>, w: Window, ids: set<nat>, side: Side): int {
    if es == [] then 0
    else
      Uncounted(es[..|es|-1], w, ids, side)
      + if Counts(es[|es|-1], w) then 0 else LineSum(es[|es|-1].lines, ids, side)
  }

  lemma {:induction false} AllIsCountedAndNot(es: seq<Entry>, w: Window, ids: set<nat>, side: Side)
    ensures AllTurnover(es, ids, side) == Turnover(es, w, ids, side) + Uncounted(es, w, ids, side)
  {
    if es != [] { AllIsCountedAndNot(es[..|es|-1], w, ids, side); }
  }

  function UncountedOf(b: Book, w: Window, t: AccountType, n: nat): int
    requires n <= |b.accounts|
  {
    if n == 0 then 0
    else
      UncountedOf(b, w, t, n - 1)
      + if b.accounts[n-1].accountType == t then
          Signed(t, Uncounted(b.entries, w, {n - 1}, Debit), Uncounted(b.entries, w, {n - 1}, Credit))
        else 0
  }

  lemma RowsStep(b: Book, w: Window, t: AccountType, n: nat)
    requires 0 < n <= |b.accounts|
    ensures SumSigned(Rows(b, w, {t}, n)) == SumSigned(Rows(b, w, {t}, n - 1))
                                           + if b.accounts[n-1].accountType == t then BalanceOf(b, w, n - 1).signed else 0
  {
    if b.accounts[n-1].accountType == t {
      assert Rows(b, w, {t}, n)[..|Rows(b, w, {t}, n)|-1] == Rows(b, w, {t}, n - 1);
    }
  }

  lemma ActivityParts(b: Book, w: Window, i: nat)
    requires i < |b.accounts|
    ensures var t := b.accounts[i].accountType;
            Activity(b, i) == BalanceOf(b, w, i).signed
                            + Signed(t, Uncounted(b.entries, w, {i}, Debit), Uncounted(b.entries, w, {i}, Credit))
  {
    AllIsCountedAndNot(b.entries, w, {i}, Debit);
    AllIsCountedAndNot(b.entries, w, {i}, Credit);
  }

  lemma BeyondStep(b: Book, w: Window, t: AccountType, n: nat)
    requires 0 < n <= |b.accounts|
    ensures ActivityOf(b, t, n) - ActivityOf(b, t, n - 1)
         == SumSigned(Rows(b, w, {t}, n)) - SumSigned(Rows(b, w, {t}, n - 1))
            + UncountedOf(b, w, t, n) - UncountedOf(b, w, t, n - 1)
  {
    RowsStep(b, w, t, n);
    ActivityParts(b, w, n - 1);
  }

  lemma {:induction false} ActivityBeyondPeriod(b: Book, w: Window, t: AccountType, n: nat)
    requires n <= |b.accounts|
    ensures ActivityOf(b, t, n) == SumSigned(Rows(b, w, {t}, n)) + UncountedOf(b, w, t, n)
  {
    if n > 0 {
      ActivityBeyondPeriod(b, w, t, n - 1);
      BeyondStep(b, w, t, n);
    }
  }

  /** The worksheet covers every entry there is, so it meets the period's net income exactly when
      the uncounted entries net to nothing. */
  lemma TaxableAgainstNetIncome(b: Book, w: Window, ms: seq<Mapping>, form: seq<FormLine>)
    requires DistinctAccounts(ms) && DistinctIds(form) && Unmapped(b, ms, |b.accounts|) == []
    requires forall k :: 0 <= k < |ms| ==> StraightMapping(b, form, ms[k])
    ensures WorksheetOf(RowsOf(ms, Brings(b), form)).taxable == ProfitAndLossFor(b, w).netIncome
         <==> UncountedOf(b, w, Revenue, |b.accounts|) == UncountedOf(b, w, Expense, |b.accounts|)
  {
    TaxableIsRevenueMinusExpenses(b, ms, form);
    ActivityBeyondPeriod(b, w, Revenue, |b.accounts|);
    ActivityBeyondPeriod(b, w, Expense, |b.accounts|);
  }

  function AllNet(es: seq<Entry>, ids: set<nat>): int { AllTurnover(es, ids, Debit) - AllTurnover(es, ids, Credit) }

  lemma {:induction false} AllTurnoverUpdate(es: seq<Entry>, i: nat, e: Entry, ids: set<nat>, side: Side)
    requires i < |es| && e.lines == es[i].lines
    ensures AllTurnover(es[i := e], ids, side) == AllTurnover(es, ids, side)
  {
    var n := |es| - 1;
    if i < n {
      assert es[i := e][..n] == es[..n][i := e];
      AllTurnoverUpdate(es[..n], i, e, ids, side);
    } else {
      assert es[i := e][..n] == es[..n];
    }
  }

  /** On the worksheet, unlike in the statements, a reversal takes an entry back exactly. */
  lemma ReversalCancelsActivity(b: Book, id: nat, ids: set<nat>)
    requires BookOk(b) && ReverseSpec(b, id).1.Ok?
    ensures id < |b.entries|
    ensures AllNet(ReverseSpec(b, id).0.entries, ids) == AllNet(b.entries, ids) - LineNet(b.entries[id].lines, ids)
  {
    ReverseOutcome(b, id);
    var e := b.entries[id];
    var flipped, m := b.entries[id := e.(status := Reversed)], Entry(e.period, e.date, Swap(e.lines), Posted);
    assert (flipped + [m])[..|flipped|] == flipped;
    AllTurnoverUpdate(b.entries, id, e.(status := Reversed), ids, Debit);
    AllTurnoverUpdate(b.entries, id, e.(status := Reversed), ids, Credit);
    SwapSums(e.lines, ids);
  }
}
