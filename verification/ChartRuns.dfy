/** Every chart that the chart operations can produce is a tree, so drill-down and roll-up agree in
    every reachable book. */
module ChartRuns {
  import opened Accounts
  import opened Ledger
  import opened LedgerRuns
  import opened Statements
  import opened Coa
  import opened Rollup
  import opened Wildcards

  /** One account added by hand. */
  ghost predicate ByHand(rows: seq<Account>) {
    |rows| == 1 && IsFlat(rows[0]) && rows[0].isActive && PathCode(rows[0].code)
  }

  /** Templates whose codes can stand in a path, with every general node under a root. */
  ghost predicate SoundTemplates(general: seq<Node>, overlay: seq<Node>) {
    && UniqueNodes(general) && UniqueNodes(overlay)
    && (forall n :: n in general || n in overlay ==> PathCode(n.code))
    && forall n :: n in general ==> IsRooted(general, n)
  }

  /** `rows` are what an instantiation adds to `existing`. */
  ghost predicate FromTemplates(existing: seq<Account>, rows: seq<Account>) {
    exists general, overlay, ids :: SoundTemplates(general, overlay) && IsChart(existing, general, overlay, existing + rows, ids)
  }

  ghost predicate AllFlat(accounts: seq<Account>) {
    forall a :: a in accounts ==> IsFlat(a)
  }

  /** Accounts come by hand or from templates, and from templates only once: a client that already
      has template rows is refused. */
  ghost predicate IsChartOp(b: Book, op: Op) {
    op.AddAccounts? ==> ByHand(op.rows) || (AllFlat(b.accounts) && FromTemplates(b.accounts, op.rows))
  }

  ghost predicate IsChartRun(ops: seq<Op>) {
    ops == [] || (IsChartRun(ops[..|ops|-1]) && IsChartOp(Run(ops[..|ops|-1]), ops[|ops|-1]))
  }

  lemma OtherOpsKeepChart(b: Book, op: Op)
    requires BookOk(b) && !op.AddAccounts?
    ensures Apply(b, op).accounts == b.accounts
  {
    if op.ReverseOp? {
      ReverseOutcome(b, op.id);
    }
  }

  lemma ByHandKeepsChart(accounts: seq<Account>, a: Account)
    requires IsTree(accounts) && BranchesHaveChildren(accounts) && IsFlat(a) && PathCode(a.code)
    requires DistinctCodes(accounts + [a])
    ensures IsTree(accounts + [a]) && BranchesHaveChildren(accounts + [a])
  {
    var rows := accounts + [a];
    forall i | 0 <= i < |accounts| ensures accounts[i].code != a.code {
      assert rows[i] == accounts[i] && rows[|accounts|] == a;
    }
    FlatKeepsTree(accounts, a);
    forall i: nat | i < |rows| && !rows[i].isLeaf ensures HasChild(rows, i) {
      assert HasChild(accounts, i);
      var j: nat :| j < |accounts| && accounts[j].parent == Some(i);
      assert rows[j].parent == Some(i);
    }
  }

  lemma TemplatesGiveChart(existing: seq<Account>, general: seq<Node>, overlay: seq<Node>, rows: seq<Account>,
                           ids: map<string, nat>)
    requires SoundTemplates(general, overlay) && IsChart(existing, general, overlay, rows, ids)
    requires DistinctCodes(existing) && AllFlat(existing) && forall a :: a in existing ==> PathCode(a.code)
    ensures IsTree(rows) && BranchesHaveChildren(rows)
  {
    ChartIsTree(existing, general, overlay, rows, ids);
    forall i | 0 <= i < |existing| ensures rows[i].isLeaf {
      assert rows[i] == existing[i] && existing[i] in existing;
    }
    forall i: nat | |existing| <= i < |rows| && !rows[i].isLeaf ensures HasChild(rows, i) {
      LeafFlagExact(existing, general, overlay, rows, ids, i);
      var j: nat :| j < |rows| && rows[j].parent == Some(i);
    }
  }

  /** Every chart in every run of chart and ledger operations is a tree in which every parent account has a child. */
  lemma {:induction false} ReachableChart(ops: seq<Op>)
    requires IsChartRun(ops)
    ensures IsTree(Run(ops).accounts) && BranchesHaveChildren(Run(ops).accounts)
  {
    if ops != [] {
      var init, op := ops[..|ops|-1], ops[|ops|-1];
      var b := Run(init);
      ReachableChart(init);
      RunOk(init);
      if !op.AddAccounts? {
        OtherOpsKeepChart(b, op);
      } else if DistinctCodes(b.accounts + op.rows) {
        AddedRows(b.accounts, op.rows);
      }
    }
  }

  lemma AddedRows(accounts: seq<Account>, rows: seq<Account>)
    requires IsTree(accounts) && BranchesHaveChildren(accounts) && DistinctCodes(accounts + rows)
    requires ByHand(rows) || (AllFlat(accounts) && FromTemplates(accounts, rows))
    ensures IsTree(accounts + rows) && BranchesHaveChildren(accounts + rows)
  {
    if ByHand(rows) {
      assert rows == [rows[0]];
      ByHandKeepsChart(accounts, rows[0]);
    } else {
      var general, overlay, ids :|
        SoundTemplates(general, overlay) && IsChart(accounts, general, overlay, accounts + rows, ids);
      TemplatesGiveChart(accounts, general, overlay, accounts + rows, ids);
    }
  }

  /** In every reachable book drill-down into an account without a wildcard in its path gives the figures
      of its roll-up node, and the roots carry the trial balance. */
  lemma ReportsAgree(ops: seq<Op>, w: Window, i: nat, f: Figure, asOf: int)
    requires IsChartRun(ops) && i < |Run(ops).accounts| && Literal(Run(ops).accounts[i].path)
    ensures var b := Run(ops);
            Drilled(b, w, DrillLeaves(b.accounts, i), f) == FigureOf(BuildNode(b.accounts, BalanceMap(b, w), i), f)
    ensures var b := Run(ops);
            var roots := BuildRollupTree(b.accounts, BalanceMap(b, Window(None, asOf)));
            && SumAll(roots, DebitTotal) == TrialBalanceAt(b, asOf).totalDebits
            && SumAll(roots, CreditTotal) == TrialBalanceAt(b, asOf).totalCredits
  {
    ReachableChart(ops);
    RunOk(ops);
    DrillDownMatchesRollup(Run(ops), w, i, f);
    RootsAreTrialBalance(Run(ops), asOf);
  }
}
