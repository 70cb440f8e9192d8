/** A small book, built by the operations from an instantiated chart: cash sales of 100.00 in one
    period and of 2,100.50 in the next. */
module ExampleBook {
  import opened Accounts
  import opened Ledger
  import opened LedgerRuns
  import opened Coa
  import opened Rollup
  import opened ChartRuns

  /** The codes of the chart: cash, a header with one account below it, and sales. */
  datatype Codes = Codes(cash: string, header: string, below: string, sales: string)

  predicate SoundCodes(c: Codes) {
    && PathCode(c.cash) && PathCode(c.header) && PathCode(c.below) && PathCode(c.sales)
    && c.cash != c.header && c.cash != c.below && c.cash != c.sales
    && c.header != c.below && c.header != c.sales && c.below != c.sales
  }

  function Template(c: Codes): seq<Node> {
    [Node(c.cash, "", Asset, None), Node(c.header, "", Asset, None),
     Node(c.below, "", Asset, Some(c.header)), Node(c.sales, "", Revenue, None)]
  }

  function Chart(c: Codes): seq<Account> {
    [Account(c.cash, "", Asset, None, c.cash, 0, true, true),
     Account(c.header, "", Asset, None, c.header, 0, false, true),
     Account(c.below, "", Asset, Some(1), c.header + ">" + c.below, 1, true, true),
     Account(c.sales, "", Revenue, None, c.sales, 0, true, true)]
  }

  lemma TemplateShape(c: Codes)
    requires SoundCodes(c)
    ensures UniqueNodes(Template(c)) && ParentsFirst(Template(c)) && ParentCodes(Template(c)) == {c.header}
  {
    var ns := Template(c);
    assert ns[2].parent.value == ns[1].code && ns[2] in ns;
  }

  lemma TemplateCodes(c: Codes)
    requires SoundCodes(c)
    ensures forall n :: n in Template(c) ==> PathCode(n.code)
  {
  }

  lemma ChartIsPlanted(c: Codes)
    requires SoundCodes(c)
    ensures Planted(Template(c), {c.header}).0 == Chart(c)
  {
    PlantedFour(Template(c), Chart(c), {c.header});
  }

  lemma SoundAlone(ns: seq<Node>)
    requires UniqueNodes(ns) && ParentsFirst(ns) && forall n :: n in ns ==> PathCode(n.code)
    ensures SoundTemplates(ns, [])
  {
    PlantedIsChart(ns);
  }

  lemma Instantiated(ns: seq<Node>, rows: seq<Account>, ids: map<string, nat>)
    requires SoundTemplates(ns, []) && IsChart([], ns, [], rows, ids)
    ensures FromTemplates([], rows)
  {
    assert [] + rows == rows;
  }

  lemma ChartIsInstantiated(c: Codes)
    requires SoundCodes(c)
    ensures FromTemplates([], Chart(c))
  {
    TemplateShape(c);
    TemplateCodes(c);
    SoundAlone(Template(c));
    ChartIsPlanted(c);
    PlantedIsChart(Template(c));
    Instantiated(Template(c), Chart(c), Planted(Template(c), {c.header}).1);
  }

  function Opening(c: Codes): seq<Op> {
    [AddAccounts(Chart(c))] + [CreatePeriod(1, 31)] + [CreatePeriod(32, 60)]
  }

  const FIRST_SALE := PostOp(0, 10, TwoLines(0, 3, 100.0))
  const SECOND_SALE := PostOp(1, 40, TwoLines(0, 3, 2100.5))

  function Operations(c: Codes): seq<Op> {
    Opening(c) + [FIRST_SALE] + [SECOND_SALE]
  }

  const JANUARY := Period(1, 31, false)
  const FEBRUARY := Period(32, 60, false)

  function Sale(period: nat, date: int, amount: int): Entry {
    Entry(period, date, [Line(0, amount, 0), Line(3, 0, amount)], Posted)
  }

  function TheBook(c: Codes): Book {
    Book(Chart(c), [JANUARY, FEBRUARY], [Sale(0, 10, 1_000_000), Sale(1, 40, 21_005_000)])
  }

  lemma OneMore(ops: seq<Op>, op: Op)
    ensures Run(ops + [op]) == Apply(Run(ops), op)
    ensures IsChartRun(ops) && IsChartOp(Run(ops), op) ==> IsChartRun(ops + [op])
  {
    assert (ops + [op])[..|ops|] == ops;
  }

  lemma OpeningRun(c: Codes)
    requires SoundCodes(c)
    ensures Run(Opening(c)) == Book(Chart(c), [JANUARY, FEBRUARY], []) && IsChartRun(Opening(c))
  {
    var add := AddAccounts(Chart(c));
    ChartIsInstantiated(c);
    OneMore([], add);
    assert [] + [add] == [add] && [] + Chart(c) == Chart(c);
    assert Run([add]) == Book(Chart(c), [], []);
    OneMore([add], CreatePeriod(1, 31));
    OneMore([add] + [CreatePeriod(1, 31)], CreatePeriod(32, 60));
  }

  lemma SaleIsPosted(b: Book, c: Codes, p: nat, date: int, x: real, amount: int)
    requires b.accounts == Chart(c) && OpenFor(b, p, date)
    requires x * SCALE == amount as real && 1 <= amount < COLUMN_LIMIT
    ensures Apply(b, PostOp(p, date, TwoLines(0, 3, x))) == b.(entries := b.entries + [Sale(p, date, amount)])
  {
    FloorOfHalf(amount);
    TwoLineOutcome(b, p, date, 0, 3, x);
    assert StoredLines(TwoLines(0, 3, x)) == [Line(0, amount, 0), Line(3, 0, amount)];
  }

  lemma FirstSale(c: Codes)
    requires SoundCodes(c)
    ensures Run(Opening(c) + [FIRST_SALE]) == Book(Chart(c), [JANUARY, FEBRUARY], [Sale(0, 10, 1_000_000)])
    ensures IsChartRun(Opening(c) + [FIRST_SALE])
  {
    OpeningRun(c);
    OneMore(Opening(c), FIRST_SALE);
    SaleIsPosted(Book(Chart(c), [JANUARY, FEBRUARY], []), c, 0, 10, 100.0, 1_000_000);
    assert [] + [Sale(0, 10, 1_000_000)] == [Sale(0, 10, 1_000_000)];
  }

  lemma SecondSale(c: Codes)
    requires SoundCodes(c)
    ensures Apply(Book(Chart(c), [JANUARY, FEBRUARY], [Sale(0, 10, 1_000_000)]), SECOND_SALE) == TheBook(c)
  {
    SaleIsPosted(Book(Chart(c), [JANUARY, FEBRUARY], [Sale(0, 10, 1_000_000)]), c, 1, 40, 2100.5, 21_005_000);
  }

  /** The book is reachable, by operations that build its chart from a template. */
  lemma BookIsReachable(c: Codes)
    requires SoundCodes(c)
    ensures Run(Operations(c)) == TheBook(c) && IsChartRun(Operations(c)) && BookOk(TheBook(c))
  {
    FirstSale(c);
    SecondSale(c);
    OneMore(Opening(c) + [FIRST_SALE], SECOND_SALE);
    RunOk(Operations(c));
  }
}
