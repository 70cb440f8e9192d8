/** The tax worksheet: profit-and-loss activity folded through the approved account mapping
    onto the lines of a form. */
module TaxWorksheet {
  import opened Accounts
  import opened Ledger
  import opened Statements

  datatype Section = Income | Cogs | Deductions | Other

  /** A line code such as `1a` or `22`. */
  datatype Code = Code(number: nat, letter: string)

  datatype FormLine = FormLine(id: nat, code: Code, section: Section)

  datatype Sign = Positive | Negative

  /** An approved mapping of the client on the form. */
  datatype Mapping = Mapping(account: nat, line: nat, sign: Sign)

  datatype Row = Row(line: FormLine, amount: int)

  datatype Worksheet = Worksheet(rows: seq<Row>, income: int, cogs: int, deductions: int, taxable: int)

  /** The trace of one account behind a line. */
  datatype Contributor = Contributor(account: nat, sign: Sign, signedBalance: int, contribution: int)

  datatype WorksheetError = FirmOnly | PeriodNotFound | DraftsPending(count: nat) | UnmappedAccounts(accounts: seq<nat>)

  // ----- activity ------------------------------------------------------------------------

  /** One side of every line of the account. The status and date tests stand in the outer
      join's own condition, so they drop no line. */
  function AllTurnover(es: seq<Entry>, ids: set<nat>, side: Side): int {
    if es == [] then 0 else AllTurnover(es[..|es|-1], ids, side) + LineSum(es[|es|-1].lines, ids, side)
  }

  predicate InScope(b: Book, i: nat) {
    i < |b.accounts| && (b.accounts[i].accountType == Revenue || b.accounts[i].accountType == Expense)
  }

  function Activity(b: Book, i: nat): int
    requires i < |b.accounts|
  {
    Signed(b.accounts[i].accountType, AllTurnover(b.entries, {i}, Debit), AllTurnover(b.entries, {i}, Credit))
  }

  // ----- specification ---------------------------------------------------------------------

  predicate Mapped(ms: seq<Mapping>, i: nat) { exists k :: 0 <= k < |ms| && ms[k].account == i }

  lemma MappedSnoc(ms: seq<Mapping>, m: Mapping, i: nat)
    ensures Mapped(ms + [m], i) <==> Mapped(ms, i) || m.account == i
  {
    assert (ms + [m])[|ms|] == m;
    assert forall k :: 0 <= k < |ms| ==> (ms + [m])[k] == ms[k];
    if Mapped(ms, i) {
      var k :| 0 <= k < |ms| && ms[k].account == i;
      assert (ms + [m])[k].account == i;
    }
  }

  /** The accounts among the first `n` that have activity and no approved mapping. */
  function Unmapped(b: Book, ms: seq<Mapping>, n: nat): seq<nat>
    requires n <= |b.accounts|
  {
    if n == 0 then []
    else if InScope(b, n - 1) && Activity(b, n - 1) != 0 && !Mapped(ms, n - 1) then Unmapped(b, ms, n - 1) + [n - 1]
    else Unmapped(b, ms, n - 1)
  }

  /** What a mapping brings to its line. */
  function Brings(b: Book): Mapping -> int {
    (m: Mapping) =>
      if !InScope(b, m.account) then 0
      else if m.sign == Negative then -Activity(b, m.account) else Activity(b, m.account)
  }

  /** Sum over the mappings that point at a line. */
  function AtLine(ms: seq<Mapping>, w: Mapping -> int, line: nat): int {
    if ms == [] then 0
    else AtLine(ms[..|ms|-1], w, line) + if ms[|ms|-1].line == line then w(ms[|ms|-1]) else 0
  }

  /** The accounts with activity behind a line, in the order of the mappings. */
  function ContributorsAt(b: Book, ms: seq<Mapping>, line: nat): seq<Contributor> {
    if ms == [] then []
    else
      var m := ms[|ms|-1];
      var before := ContributorsAt(b, ms[..|ms|-1], line);
      if m.line == line && Brings(b)(m) != 0 then
        before + [Contributor(m.account, m.sign, Activity(b, m.account), Brings(b)(m))]
      else before
  }

  function RowsOf(ms: seq<Mapping>, w: Mapping -> int, form: seq<FormLine>): (r: seq<Row>)
    ensures |r| == |form| && forall i :: 0 <= i < |form| ==> r[i] == Row(form[i], AtLine(ms, w, form[i].id))
  {
    seq(|form|, i requires 0 <= i < |form| => Row(form[i], AtLine(ms, w, form[i].id)))
  }

  function SectionTotal(rows: seq<Row>, s: Section): int {
    if rows == [] then 0
    else SectionTotal(rows[..|rows|-1], s) + if rows[|rows|-1].line.section == s then rows[|rows|-1].amount else 0
  }

  function WorksheetOf(rows: seq<Row>): Worksheet {
    var i, c, d := SectionTotal(rows, Income), SectionTotal(rows, Cogs), SectionTotal(rows, Deductions);
    Worksheet(rows, i, c, d, i - c - d)
  }

  /** The unique key of the mapping table: one approved row an account. */
  ghost predicate DistinctAccounts(ms: seq<Mapping>) {
    forall j, k :: 0 <= j < k < |ms| ==> ms[j].account != ms[k].account
  }

  // ----- generation --------------------------------------------------------------------------

  method GenerateWorksheet(b: Book, firm: bool, periodExists: bool, pendingDrafts: nat, ms: seq<Mapping>,
                           form: seq<FormLine>)
    returns (r: Result<Worksheet, WorksheetError>, trace: map<nat, seq<Contributor>>)
    requires DistinctAccounts(ms)
    ensures r == if !firm then Err(FirmOnly)
                 else if !periodExists then Err(PeriodNotFound)
                 else if pendingDrafts > 0 then Err(DraftsPending(pendingDrafts))
                 else if Unmapped(b, ms, |b.accounts|) != [] then Err(UnmappedAccounts(Unmapped(b, ms, |b.accounts|)))
                 else Ok(WorksheetOf(RowsOf(ms, Brings(b), form)))
    ensures r.Ok? ==> forall l: nat :: TraceOf(trace, l) == ContributorsAt(b, ms, l)
  {
    trace := map[];
    if !firm {
      return Err(FirmOnly), trace;
    }
    if !periodExists {
      return Err(PeriodNotFound), trace;
    }
    if pendingDrafts > 0 {
      return Err(DraftsPending(pendingDrafts)), trace;
    }
    var unmapped := FindUnmapped(b, ms);
    if |unmapped| > 0 {
      return Err(UnmappedAccounts(unmapped)), trace;
    }
    var perLine;
    perLine, trace := FoldLines(b, ms);
    var rows: seq<Row> := [];
    for i := 0 to |form|
      invariant rows == RowsOf(ms, Brings(b), form)[..i]
    {
      rows := rows + [Row(form[i], if form[i].id in perLine then perLine[form[i].id] else 0)];
    }
    assert RowsOf(ms, Brings(b), form)[..|form|] == RowsOf(ms, Brings(b), form);
    var ws := Totals(rows);
    r := Ok(ws);
  }

  method FindUnmapped(b: Book, ms: seq<Mapping>) returns (unmapped: seq<nat>)
    ensures unmapped == Unmapped(b, ms, |b.accounts|)
  {
    var approved := ApprovedByAccount(ms);
    unmapped := [];
    for i := 0 to |b.accounts|
      invariant unmapped == Unmapped(b, ms, i)
    {
      if InScope(b, i) && Activity(b, i) != 0 && i !in approved {
        unmapped := unmapped + [i];
      }
    }
  }

  method ApprovedByAccount(ms: seq<Mapping>) returns (approved: map<nat, Mapping>)
    ensures forall i: nat :: i in approved <==> Mapped(ms, i)
  {
    approved := map[];
    for k := 0 to |ms|
      invariant forall i: nat :: i in approved <==> Mapped(ms[..k], i)
    {
      forall i: nat ensures Mapped(ms[..k+1], i) <==> Mapped(ms[..k], i) || ms[k].account == i {
        MappedSnoc(ms[..k], ms[k], i);
        assert ms[..k+1] == ms[..k] + [ms[k]];
      }
      approved := approved[ms[k].account := ms[k]];
    }
    assert ms[..|ms|] == ms;
  }

  function TraceOf(trace: map<nat, seq<Contributor>>, line: nat): seq<Contributor> {
    if line in trace then trace[line] else []
  }

  /** The two dictionaries: a line that nothing contributes to has no key. */
  method FoldLines(b: Book, ms: seq<Mapping>) returns (perLine: map<nat, int>, trace: map<nat, seq<Contributor>>)
    ensures forall l: nat :: (if l in perLine then perLine[l] else 0) == AtLine(ms, Brings(b), l)
    ensures forall l: nat :: TraceOf(trace, l) == ContributorsAt(b, ms, l)
  {
    perLine, trace := map[], map[];
    for k := 0 to |ms|
      invariant forall l: nat :: (if l in perLine then perLine[l] else 0) == AtLine(ms[..k], Brings(b), l)
      invariant forall l: nat :: TraceOf(trace, l) == ContributorsAt(b, ms[..k], l)
    {
      var m := ms[k];
      assert ms[..k+1][..k] == ms[..k];
      if InScope(b, m.account) && Activity(b, m.account) != 0 {
        var a := Activity(b, m.account);
        var contribution := if m.sign == Negative then -a else a;
        var was := if m.line in perLine then perLine[m.line] else 0;
        perLine := perLine[m.line := was + contribution];
        trace := trace[m.line := TraceOf(trace, m.line) + [Contributor(m.account, m.sign, a, contribution)]];
      }
    }
    assert ms[..|ms|] == ms;
  }

  method Totals(rows: seq<Row>) returns (ws: Worksheet)
    ensures ws == WorksheetOf(rows)
  {
    var bySection: map<Section, int> := map[];
    for k := 0 to |rows|
      invariant forall s :: (if s in bySection then bySection[s] else 0) == SectionTotal(rows[..k], s)
    {
      assert rows[..k+1][..k] == rows[..k];
      var s := rows[k].line.section;
      bySection := bySection[s := (if s in bySection then bySection[s] else 0) + rows[k].amount];
    }
    assert rows[..|rows|] == rows;
    var i := if Income in bySection then bySection[Income] else 0;
    var c := if Cogs in bySection then bySection[Cogs] else 0;
    var d := if Deductions in bySection then bySection[Deductions] else 0;
    ws := Worksheet(rows, i, c, d, i - c - d);
  }
}
