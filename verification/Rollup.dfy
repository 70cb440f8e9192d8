/** Drill-down by materialized path against roll-up by parent pointers. */
module Rollup {
  import opened Accounts
  import opened Ledger
  import opened LedgerRuns
  import opened Statements
  import opened StatementProofs
  import opened Coa
  import opened Sums

  // ----- the chart as a tree ------------------------------------------------------

  /** A code without the path separator, the LIKE wildcards and the LIKE escape. */
  predicate CleanCode(code: string) {
    code != "" && forall i :: 0 <= i < |code| ==> code[i] !in {'>', '%', '_', '\\'}
  }

  /** A code that can stand in a path. */
  predicate PathCode(code: string) { code != "" && NoSeparator(code) }

  predicate NoSeparator(s: string) {
    forall i :: 0 <= i < |s| ==> s[i] != '>'
  }

  ghost predicate IsTree(accounts: seq<Account>) {
    && DistinctCodes(accounts)
    && (forall i :: 0 <= i < |accounts| ==> PathCode(accounts[i].code))
    && (forall i :: 0 <= i < |accounts| ==> RowOk(accounts, 0, i))
    && (forall i :: 0 <= i < |accounts| ==> UnderBranch(accounts, i))
  }

  predicate UnderBranch(accounts: seq<Account>, i: nat)
    requires i < |accounts|
  {
    match accounts[i].parent
    case None => true
    case Some(p) => p < |accounts| && !accounts[p].isLeaf
  }

  /** A row added by hand: a root leaf whose path is its code. */
  predicate IsFlat(a: Account) {
    a.parent == None && a.path == a.code && a.depth == 0 && a.isLeaf
  }

  lemma ChartIsTree(existing: seq<Account>, general: seq<Node>, overlay: seq<Node>, rows: seq<Account>, ids: map<string, nat>)
    requires IsChart(existing, general, overlay, rows, ids) && DistinctCodes(existing)
    requires forall a :: a in existing ==> IsFlat(a) && PathCode(a.code)
    requires forall n :: n in general || n in overlay ==> PathCode(n.code)
    ensures IsTree(rows)
  {
    var s := |existing|;
    var parents := ParentCodes(general) + ParentCodes(overlay);
    forall i | 0 <= i < |rows| ensures PathCode(rows[i].code) && RowOk(rows, 0, i) {
      if i < s {
        assert rows[i] == existing[i];
      } else {
        assert RowOk(rows, s, i) && rows[i].code in ids;
      }
    }
    forall i, j | 0 <= i < j < |rows| ensures rows[i].code != rows[j].code {
      if j < s {
        assert rows[i] == existing[i] && rows[j] == existing[j];
      } else if i < s {
        assert existing[i] in existing && rows[i] == existing[i] && rows[j].code in ids;
      }
    }
    forall j | 0 <= j < |rows| ensures UnderBranch(rows, j) {
      if rows[j].parent.Some? {
        ParentIsBranch(existing, general, overlay, rows, ids, j);
      }
    }
  }

  lemma ParentIsBranch(existing: seq<Account>, general: seq<Node>, overlay: seq<Node>, rows: seq<Account>,
                       ids: map<string, nat>, j: nat)
    requires IsChart(existing, general, overlay, rows, ids) && j < |rows| && rows[j].parent.Some?
    requires forall a :: a in existing ==> IsFlat(a)
    ensures rows[j].parent.value < |rows| && !rows[rows[j].parent.value].isLeaf
  {
    var s := |existing|;
    forall k | 0 <= k < s ensures rows[k].parent == None {
      assert rows[k] == existing[k] && existing[k] in existing;
    }
    assert RowOk(rows, s, j) && rows[j].code in ids;
    var n :| (n in RootedNodes(general) || n in overlay) && n.code == rows[j].code;
    assert rows[ids[n.code]].parent == ParentId(ids, n);
    assert n.parent.value in ParentCodes(general) + ParentCodes(overlay);
  }

  /** With every general node under a root, a placed row is a leaf exactly when it has no child row. */
  lemma LeafFlagExact(existing: seq<Account>, general: seq<Node>, overlay: seq<Node>, rows: seq<Account>,
                      ids: map<string, nat>, i: nat)
    requires IsChart(existing, general, overlay, rows, ids) && |existing| <= i < |rows|
    requires forall a :: a in existing ==> IsFlat(a)
    requires forall n :: n in general ==> IsRooted(general, n)
    ensures rows[i].isLeaf <==> forall j :: 0 <= j < |rows| ==> rows[j].parent != Some(i)
  {
    if !rows[i].isLeaf {
      var n :| (n in general || n in overlay) && HasParent(n) && n.parent.value == rows[i].code;
      if n in general {
        assert n in RootedNodes(general);
      }
      assert rows[ids[n.code]].parent == Some(i);
    } else {
      forall j | 0 <= j < |rows| ensures rows[j].parent != Some(i) {
        if rows[j].parent == Some(i) {
          ParentIsBranch(existing, general, overlay, rows, ids, j);
        }
      }
    }
  }

  lemma FlatKeepsTree(accounts: seq<Account>, a: Account)
    requires IsTree(accounts) && IsFlat(a) && PathCode(a.code)
    requires forall i :: 0 <= i < |accounts| ==> accounts[i].code != a.code
    ensures IsTree(accounts + [a])
  {
    var rows := accounts + [a];
    forall i | 0 <= i < |rows| ensures PathCode(rows[i].code) && RowOk(rows, 0, i) {
      if i < |accounts| {
        assert RowOk(accounts, 0, i);
      }
    }
    forall j | 0 <= j < |rows| ensures UnderBranch(rows, j) {
      if j < |accounts| {
        assert RowOk(accounts, 0, j) && UnderBranch(accounts, j);
      }
    }
  }

  // ----- SQL LIKE -----------------------------------------------------------------

  /** `s LIKE pattern` with `%`, `_` and the default escape character. */
  predicate Like(pattern: string, s: string)
    decreases |pattern|, |s|
  {
    if pattern == "" then s == ""
    else if pattern[0] == '%' then Like(pattern[1..], s) || (s != "" && Like(pattern, s[1..]))
    else if pattern[0] == '_' then s != "" && Like(pattern[1..], s[1..])
    else if pattern[0] == '\\' && |pattern| > 1 then s != "" && s[0] == pattern[1] && Like(pattern[2..], s[1..])
    else s != "" && s[0] == pattern[0] && Like(pattern[1..], s[1..])
  }

  predicate Literal(s: string) {
    forall i :: 0 <= i < |s| ==> s[i] !in {'%', '_', '\\'}
  }

  lemma {:induction false} LikeAnything(s: string)
    ensures Like("%", s)
    decreases |s|
  {
    assert "%"[1..] == "";
    if s != "" { LikeAnything(s[1..]); }
  }

  lemma {:induction false} LikePrefix(p: string, s: string)
    requires Literal(p)
    ensures Like(p + "%", s) <==> p <= s
    decreases |p|
  {
    if p == "" {
      assert p + "%" == "%";
      LikeAnything(s);
    } else {
      assert (p + "%")[1..] == p[1..] + "%";
      if s != "" {
        LikePrefix(p[1..], s[1..]);
        assert p <= s <==> p[0] == s[0] && p[1..] <= s[1..];
      }
    }
  }

  // ----- paths and pointers ----------------------------------------------------------

  /** `i` is a proper ancestor of `j` by parent pointers. */
  predicate Below(accounts: seq<Account>, j: nat, i: nat)
    requires j < |accounts|
    decreases j
  {
    match accounts[j].parent
    case None => false
    case Some(p) => p < j && (p == i || Below(accounts, p, i))
  }

  lemma {:induction false} PathShape(accounts: seq<Account>, j: nat)
    requires IsTree(accounts) && j < |accounts|
    ensures accounts[j].path != ""
    ensures (forall k :: 0 <= k <= j ==> CleanCode(accounts[k].code)) ==> Literal(accounts[j].path)
  {
    assert RowOk(accounts, 0, j) && PathCode(accounts[j].code);
    if accounts[j].parent.Some? {
      PathShape(accounts, accounts[j].parent.value);
    }
  }

  lemma SeparatorPositions(x: string, c: string)
    requires NoSeparator(c)
    ensures var s := x + ">" + c;
            s[|x|] == '>' && forall k :: |x| < k < |s| ==> s[k] != '>'
  {
    var s := x + ">" + c;
    forall k | |x| < k < |s| ensures s[k] != '>' {
      assert s[k] == c[k - |x| - 1];
    }
  }

  lemma LastSeparator(x: string, c: string, y: string, d: string)
    requires NoSeparator(c) && NoSeparator(d) && x + ">" + c == y + ">" + d
    ensures x == y && c == d
  {
    var s := x + ">" + c;
    SeparatorPositions(x, c);
    SeparatorPositions(y, d);
    assert |x| == |y|;
    assert x == s[..|x|] && y == s[..|x|] && c == s[|x|+1..] && d == s[|x|+1..];
  }

  /** A path and a separator start a longer path in one of two ways. */
  lemma PrefixOfJoined(a: string, parent: string, c: string)
    requires NoSeparator(c)
    ensures a + ">" <= parent + ">" + c <==> a == parent || a + ">" <= parent
  {
    var s, prefix := parent + ">" + c, a + ">";
    SeparatorPositions(parent, c);
    if prefix <= s {
      assert s[|a|] == prefix[|a|] == '>';
      assert |a| <= |parent|;
      assert a == s[..|a|] == parent[..|a|];
      if |a| < |parent| {
        assert prefix == s[..|prefix|] == parent[..|prefix|];
      }
    }
    if prefix <= parent {
      assert prefix == parent[..|prefix|] == s[..|prefix|];
    }
    if a == parent {
      assert prefix == s[..|prefix|];
    }
  }

  lemma NotInCode(a: string, c: string)
    requires NoSeparator(c)
    ensures !(a + ">" <= c)
  {
    assert (a + ">")[|a|] == '>';
  }

  /** Exactly the roots have a path without a separator. */
  lemma RootPath(accounts: seq<Account>, i: nat)
    requires IsTree(accounts) && i < |accounts|
    ensures NoSeparator(accounts[i].code)
    ensures NoSeparator(accounts[i].path) <==> accounts[i].parent == None
  {
    assert RowOk(accounts, 0, i) && PathCode(accounts[i].code);
    if accounts[i].parent.Some? {
      var p := accounts[i].parent.value;
      PathShape(accounts, p);
      SeparatorPositions(accounts[p].path, accounts[i].code);
    }
  }

  /** Paths identify accounts. */
  lemma PathsDiffer(accounts: seq<Account>, i: nat, j: nat)
    requires IsTree(accounts) && i < |accounts| && j < |accounts| && accounts[i].path == accounts[j].path
    ensures i == j
  {
    var a, b := accounts[i], accounts[j];
    assert RowOk(accounts, 0, i) && RowOk(accounts, 0, j);
    RootPath(accounts, i);
    RootPath(accounts, j);
    if a.parent.Some? {
      PathShape(accounts, a.parent.value);
      PathShape(accounts, b.parent.value);
      LastSeparator(accounts[a.parent.value].path, a.code, accounts[b.parent.value].path, b.code);
    }
    assert a.code == b.code;
  }

  /** The path of `j` starts with the path of `i` and a separator exactly when `j` hangs below `i`. */
  lemma {:induction false} PathIsPointers(accounts: seq<Account>, j: nat, i: nat)
    requires IsTree(accounts) && i < |accounts| && j < |accounts|
    ensures accounts[i].path + ">" <= accounts[j].path <==> Below(accounts, j, i)
    decreases j
  {
    var a, b := accounts[i], accounts[j];
    assert RowOk(accounts, 0, j);
    RootPath(accounts, j);
    if b.parent == None {
      NotInCode(a.path, b.code);
    } else {
      var p := b.parent.value;
      PathShape(accounts, p);
      PathIsPointers(accounts, p, i);
      PrefixOfJoined(a.path, accounts[p].path, b.code);
      if a.path == accounts[p].path {
        PathsDiffer(accounts, i, p);
      }
    }
  }

  // ----- what each report sums ---------------------------------------------------------

  /** The leaves drill-down asks the database for. */
  function DrillLeaves(accounts: seq<Account>, i: nat): set<nat>
    requires i < |accounts|
  {
    var a := accounts[i];
    if a.isLeaf then {i}
    else
      var prefix := if a.path != "" then a.path + ">" else a.code + ">";
      set j: nat | j < |accounts| && accounts[j].isLeaf && Like(prefix + "%", accounts[j].path)
  }

  /** The leaves at or below an account by parent pointers. */
  function TreeLeaves(accounts: seq<Account>, i: nat): set<nat>
    requires i < |accounts|
  {
    set j: nat | j < |accounts| && accounts[j].isLeaf && (j == i || Below(accounts, j, i))
  }

  lemma {:induction false} LeafHasNothingBelow(accounts: seq<Account>, j: nat, i: nat)
    requires IsTree(accounts) && j < |accounts| && Below(accounts, j, i)
    ensures i < j && !accounts[i].isLeaf
    decreases j
  {
    assert UnderBranch(accounts, j);
    var p := accounts[j].parent.value;
    if p != i {
      LeafHasNothingBelow(accounts, p, i);
    }
  }

  /** Path prefixes and parent pointers select the same leaves, whenever the path has no wildcard. */
  lemma DrillLeavesAreTreeLeaves(accounts: seq<Account>, i: nat)
    requires IsTree(accounts) && i < |accounts| && Literal(accounts[i].path)
    ensures DrillLeaves(accounts, i) == TreeLeaves(accounts, i)
  {
    PathShape(accounts, i);
    if accounts[i].isLeaf {
      LeafIsItsLeaves(accounts, i);
    } else {
      var prefix := accounts[i].path + ">";
      assert Literal(prefix);
      forall j: nat | j < |accounts| ensures Like(prefix + "%", accounts[j].path) <==> Below(accounts, j, i) {
        LikePrefix(prefix, accounts[j].path);
        PathIsPointers(accounts, j, i);
      }
    }
  }

  lemma LeafIsItsLeaves(accounts: seq<Account>, i: nat)
    requires IsTree(accounts) && i < |accounts| && accounts[i].isLeaf
    ensures TreeLeaves(accounts, i) == {i}
  {
    forall j: nat | j in TreeLeaves(accounts, i) ensures j == i {
      if j != i { LeafHasNothingBelow(accounts, j, i); }
    }
  }

  // ----- roll-up -------------------------------------------------------------------------

  datatype RollupNode = RollupNode(account: nat, isLeaf: bool, debit: int, credit: int, signed: int,
                                   children: seq<RollupNode>)

  datatype Figure = DebitTotal | CreditTotal | SignedBalance

  function FigureOf(n: RollupNode, f: Figure): int {
    match f case DebitTotal => n.debit case CreditTotal => n.credit case SignedBalance => n.signed
  }

  /** The accounts among the first `n` whose parent is `q`. */
  function ChildIds(accounts: seq<Account>, q: Option<nat>, n: nat): (r: seq<nat>)
    requires n <= |accounts|
    ensures forall c: nat :: c in r <==> c < n && accounts[c].parent == q
  {
    if n == 0 then []
    else if accounts[n-1].parent == q then ChildIds(accounts, q, n - 1) + [n - 1]
    else ChildIds(accounts, q, n - 1)
  }

  function SumOf(ns: seq<RollupNode>, f: Figure, leaves: bool): int {
    if ns == [] then 0
    else SumOf(ns[..|ns|-1], f, leaves) + if ns[|ns|-1].isLeaf == leaves then FigureOf(ns[|ns|-1], f) else 0
  }

  function SumAll(ns: seq<RollupNode>, f: Figure): int {
    if ns == [] then 0 else SumAll(ns[..|ns|-1], f) + FigureOf(ns[|ns|-1], f)
  }

  /** The node of account `i`; balances are looked up by account. */
  function BuildNode(accounts: seq<Account>, balances: map<nat, AccountBalance>, i: nat): (r: RollupNode)
    requires i < |accounts|
    ensures r.account == i && r.isLeaf == accounts[i].isLeaf
    decreases |accounts| - i, 1, 0
  {
    var kids := BuildNodes(accounts, balances, i, ChildIds(accounts, Some(i), |accounts|));
    if accounts[i].isLeaf then
      if i in balances then RollupNode(i, true, balances[i].debit, balances[i].credit, balances[i].signed, kids)
      else RollupNode(i, true, 0, 0, 0, kids)
    else
      RollupNode(i, false,
                 SumOf(kids, DebitTotal, true) + SumOf(kids, DebitTotal, false),
                 SumOf(kids, CreditTotal, true) + SumOf(kids, CreditTotal, false),
                 SumAll(kids, SignedBalance), kids)
  }

  /** Nodes for those of `ids` that come after their parent, as rows always do. */
  function BuildNodes(accounts: seq<Account>, balances: map<nat, AccountBalance>, above: nat, ids: seq<nat>)
    : (r: seq<RollupNode>)
    requires above < |accounts|
    decreases |accounts| - above, 0, |ids|
  {
    if ids == [] then []
    else
      var last := ids[|ids|-1];
      BuildNodes(accounts, balances, above, ids[..|ids|-1])
      + if above < last < |accounts| then [BuildNode(accounts, balances, last)] else []
  }

  function BuildRoots(accounts: seq<Account>, balances: map<nat, AccountBalance>, n: nat): seq<RollupNode>
    requires n <= |accounts|
  {
    if n == 0 then []
    else BuildRoots(accounts, balances, n - 1)
         + if accounts[n-1].parent == None then [BuildNode(accounts, balances, n - 1)] else []
  }

  function BuildRollupTree(accounts: seq<Account>, balances: map<nat, AccountBalance>): seq<RollupNode> {
    BuildRoots(accounts, balances, |accounts|)
  }

  function OwnFigure(balances: map<nat, AccountBalance>, i: nat, f: Figure): int {
    if i !in balances then 0
    else match f
      case DebitTotal => balances[i].debit
      case CreditTotal => balances[i].credit
      case SignedBalance => balances[i].signed
  }

  /** Sum of the leaves' own figures over a set of accounts. */
  function LeafSum(balances: map<nat, AccountBalance>, f: Figure, ids: set<nat>, n: nat): int {
    if n == 0 then 0
    else LeafSum(balances, f, ids, n - 1) + if n - 1 in ids then OwnFigure(balances, n - 1, f) else 0
  }

  lemma {:induction false} LeafSumUnion(balances: map<nat, AccountBalance>, f: Figure, s: set<nat>, t: set<nat>, n: nat)
    requires s !! t
    ensures LeafSum(balances, f, s + t, n) == LeafSum(balances, f, s, n) + LeafSum(balances, f, t, n)
  {
    if n > 0 { LeafSumUnion(balances, f, s, t, n - 1); }
  }

  lemma {:induction false} LeafSumEmpty(balances: map<nat, AccountBalance>, f: Figure, n: nat)
    ensures LeafSum(balances, f, {}, n) == 0
  {
    if n > 0 { LeafSumEmpty(balances, f, n - 1); }
  }

  lemma {:induction false} LeafSumOne(balances: map<nat, AccountBalance>, f: Figure, i: nat, n: nat)
    ensures LeafSum(balances, f, {i}, n) == if i < n then OwnFigure(balances, i, f) else 0
  {
    if n > 0 { LeafSumOne(balances, f, i, n - 1); }
  }

  lemma {:induction false} SplitByLeaf(ns: seq<RollupNode>, f: Figure)
    ensures SumOf(ns, f, true) + SumOf(ns, f, false) == SumAll(ns, f)
  {
    if ns != [] { SplitByLeaf(ns[..|ns|-1], f); }
  }

  /** The leaves at or below the accounts whose parent is `q`, among the first `n`. */
  function LeavesUnder(accounts: seq<Account>, q: Option<nat>, n: nat): set<nat>
    requires n <= |accounts|
  {
    if n == 0 then {}
    else if accounts[n-1].parent == q then LeavesUnder(accounts, q, n - 1) + TreeLeaves(accounts, n - 1)
    else LeavesUnder(accounts, q, n - 1)
  }

  lemma {:induction false} LeavesUnderMember(accounts: seq<Account>, q: Option<nat>, n: nat, j: nat)
    requires n <= |accounts| && j in LeavesUnder(accounts, q, n)
    ensures exists c: nat :: c < n && accounts[c].parent == q && j in TreeLeaves(accounts, c)
  {
    if accounts[n-1].parent == q && j in TreeLeaves(accounts, n - 1) {
    } else {
      LeavesUnderMember(accounts, q, n - 1, j);
    }
  }

  lemma {:induction false} LeavesUnderContains(accounts: seq<Account>, q: Option<nat>, n: nat, c: nat)
    requires c < n <= |accounts| && accounts[c].parent == q
    ensures TreeLeaves(accounts, c) <= LeavesUnder(accounts, q, n)
  {
    if c < n - 1 { LeavesUnderContains(accounts, q, n - 1, c); }
  }

  /** Two accounts above (or at) the same one are themselves in line. */
  lemma {:induction false} InLine(accounts: seq<Account>, j: nat, c: nat, d: nat)
    requires j < |accounts| && c < d < |accounts|
    requires j == c || Below(accounts, j, c)
    requires j == d || Below(accounts, j, d)
    ensures Below(accounts, d, c)
    decreases j
  {
    if j == c {
      BelowIsLater(accounts, j, d);
    } else if j != d {
      InLine(accounts, accounts[j].parent.value, c, d);
    }
  }

  lemma {:induction false} BelowIsLater(accounts: seq<Account>, j: nat, i: nat)
    requires j < |accounts| && Below(accounts, j, i)
    ensures i < j
    decreases j
  {
    var p := accounts[j].parent.value;
    if p != i { BelowIsLater(accounts, p, i); }
  }

  /** Subtrees of siblings share nothing. */
  lemma SiblingsApart(accounts: seq<Account>, c: nat, d: nat)
    requires IsTree(accounts) && c < d < |accounts| && accounts[c].parent == accounts[d].parent
    ensures TreeLeaves(accounts, c) !! TreeLeaves(accounts, d)
  {
    forall j | j in TreeLeaves(accounts, c) && j in TreeLeaves(accounts, d) ensures false {
      InLine(accounts, j, c, d);
      var p := accounts[d].parent.value;
      assert RowOk(accounts, 0, c);
      if p != c {
        BelowIsLater(accounts, p, c);
      }
    }
  }

  lemma UnderApart(accounts: seq<Account>, q: Option<nat>, n: nat)
    requires IsTree(accounts) && n < |accounts| && accounts[n].parent == q
    ensures LeavesUnder(accounts, q, n) !! TreeLeaves(accounts, n)
  {
    forall j | j in LeavesUnder(accounts, q, n) && j in TreeLeaves(accounts, n) ensures false {
      LeavesUnderMember(accounts, q, n, j);
      var c: nat :| c < n && accounts[c].parent == q && j in TreeLeaves(accounts, c);
      SiblingsApart(accounts, c, n);
    }
  }

  lemma UnderStep(accounts: seq<Account>, balances: map<nat, AccountBalance>, q: Option<nat>, n: nat, f: Figure)
    requires IsTree(accounts) && 0 < n <= |accounts|
    ensures LeafSum(balances, f, LeavesUnder(accounts, q, n), |accounts|)
            == LeafSum(balances, f, LeavesUnder(accounts, q, n - 1), |accounts|)
               + if accounts[n-1].parent == q then LeafSum(balances, f, TreeLeaves(accounts, n - 1), |accounts|) else 0
  {
    if accounts[n-1].parent == q {
      UnderApart(accounts, q, n - 1);
      LeafSumUnion(balances, f, LeavesUnder(accounts, q, n - 1), TreeLeaves(accounts, n - 1), |accounts|);
    }
  }

  /** The child of `i` on the way down to `j`. */
  lemma {:induction false} ChildToward(accounts: seq<Account>, j: nat, i: nat) returns (c: nat)
    requires j < |accounts| && Below(accounts, j, i)
    ensures c < |accounts| && accounts[c].parent == Some(i) && (j == c || Below(accounts, j, c))
    decreases j
  {
    var p := accounts[j].parent.value;
    if p == i {
      c := j;
    } else {
      c := ChildToward(accounts, p, i);
    }
  }

  lemma {:induction false} BelowChild(accounts: seq<Account>, j: nat, c: nat, i: nat)
    requires IsTree(accounts) && j < |accounts| && c < |accounts| && accounts[c].parent == Some(i)
    requires j == c || Below(accounts, j, c)
    ensures Below(accounts, j, i)
    decreases j
  {
    if j == c {
      assert RowOk(accounts, 0, c);
    } else {
      BelowChild(accounts, accounts[j].parent.value, c, i);
    }
  }

  lemma LeavesOfBranch(accounts: seq<Account>, i: nat)
    requires IsTree(accounts) && i < |accounts| && !accounts[i].isLeaf
    ensures LeavesUnder(accounts, Some(i), |accounts|) == TreeLeaves(accounts, i)
  {
    forall j: nat | j in TreeLeaves(accounts, i) ensures j in LeavesUnder(accounts, Some(i), |accounts|) {
      var c := ChildToward(accounts, j, i);
      LeavesUnderContains(accounts, Some(i), |accounts|, c);
    }
    forall j: nat | j in LeavesUnder(accounts, Some(i), |accounts|) ensures j in TreeLeaves(accounts, i) {
      LeavesUnderMember(accounts, Some(i), |accounts|, j);
      var c: nat :| c < |accounts| && accounts[c].parent == Some(i) && j in TreeLeaves(accounts, c);
      BelowChild(accounts, j, c, i);
    }
  }

  /** A node's figures are the sums over the leaves at or below it. */
  lemma {:induction false} NodeIsLeafSum(accounts: seq<Account>, balances: map<nat, AccountBalance>, i: nat, f: Figure)
    requires IsTree(accounts) && i < |accounts|
    ensures FigureOf(BuildNode(accounts, balances, i), f) == LeafSum(balances, f, TreeLeaves(accounts, i), |accounts|)
    decreases |accounts| - i, 1
  {
    if accounts[i].isLeaf {
      LeafIsItsLeaves(accounts, i);
      LeafSumOne(balances, f, i, |accounts|);
    } else {
      LeavesOfBranch(accounts, i);
      KidsAreLeafSum(accounts, balances, i, f);
      SplitByLeaf(BuildNodes(accounts, balances, i, ChildIds(accounts, Some(i), |accounts|)), f);
    }
  }

  lemma KidsStep(accounts: seq<Account>, balances: map<nat, AccountBalance>, i: nat, ids: seq<nat>, c: nat, f: Figure)
    requires i < c < |accounts|
    ensures SumAll(BuildNodes(accounts, balances, i, ids + [c]), f)
            == SumAll(BuildNodes(accounts, balances, i, ids), f) + FigureOf(BuildNode(accounts, balances, c), f)
  {
    var ns, x := BuildNodes(accounts, balances, i, ids), BuildNode(accounts, balances, c);
    assert (ids + [c])[..|ids|] == ids;
    assert BuildNodes(accounts, balances, i, ids + [c]) == ns + [x];
    assert (ns + [x])[..|ns|] == ns;
  }

  lemma RootsStep(accounts: seq<Account>, balances: map<nat, AccountBalance>, n: nat, f: Figure)
    requires 0 < n <= |accounts|
    ensures SumAll(BuildRoots(accounts, balances, n), f) == SumAll(BuildRoots(accounts, balances, n - 1), f)
            + if accounts[n-1].parent == None then FigureOf(BuildNode(accounts, balances, n - 1), f) else 0
  {
    var ns, x := BuildRoots(accounts, balances, n - 1), BuildNode(accounts, balances, n - 1);
    assert (ns + [x])[..|ns|] == ns && ns + [] == ns;
  }

  function KidsSum(accounts: seq<Account>, balances: map<nat, AccountBalance>, i: nat, m: nat, f: Figure): int
    requires i < |accounts| && m <= |accounts|
  {
    SumAll(BuildNodes(accounts, balances, i, ChildIds(accounts, Some(i), m)), f)
  }

  function UnderSum(accounts: seq<Account>, balances: map<nat, AccountBalance>, q: Option<nat>, m: nat, f: Figure): int
    requires m <= |accounts|
  {
    LeafSum(balances, f, LeavesUnder(accounts, q, m), |accounts|)
  }

  function RootsSum(accounts: seq<Account>, balances: map<nat, AccountBalance>, m: nat, f: Figure): int
    requires m <= |accounts|
  {
    SumAll(BuildRoots(accounts, balances, m), f)
  }

  lemma {:induction false} KidsDelta(accounts: seq<Account>, balances: map<nat, AccountBalance>, i: nat, m: nat, f: Figure)
    requires IsTree(accounts) && i < |accounts| && m < |accounts|
    ensures KidsSum(accounts, balances, i, m + 1, f) - KidsSum(accounts, balances, i, m, f)
            == UnderSum(accounts, balances, Some(i), m + 1, f) - UnderSum(accounts, balances, Some(i), m, f)
    decreases |accounts| - i, 0, 0
  {
    UnderStep(accounts, balances, Some(i), m + 1, f);
    if accounts[m].parent == Some(i) {
      assert RowOk(accounts, 0, m);
      NodeIsLeafSum(accounts, balances, m, f);
      KidsStep(accounts, balances, i, ChildIds(accounts, Some(i), m), m, f);
    }
  }

  /** Two sums that start alike and grow alike are alike. */
  lemma {:induction false} Telescopes(x: nat -> int, y: nat -> int, n: nat)
    requires x(0) == y(0) && forall m: nat :: m < n ==> x(m + 1) - x(m) == y(m + 1) - y(m)
    ensures x(n) == y(n)
  {
    if n > 0 { Telescopes(x, y, n - 1); }
  }

  lemma NothingYet(accounts: seq<Account>, balances: map<nat, AccountBalance>, i: nat, f: Figure)
    requires i < |accounts|
    ensures KidsSum(accounts, balances, i, 0, f) == 0 && UnderSum(accounts, balances, Some(i), 0, f) == 0
  {
    assert ChildIds(accounts, Some(i), 0) == [];
    assert BuildNodes(accounts, balances, i, []) == [];
    LeafSumEmpty(balances, f, |accounts|);
  }

  function KidsTo(accounts: seq<Account>, balances: map<nat, AccountBalance>, i: nat, f: Figure): nat -> int
    requires i < |accounts|
  {
    (m: nat) => if m <= |accounts| then KidsSum(accounts, balances, i, m, f) else 0
  }

  function UnderTo(accounts: seq<Account>, balances: map<nat, AccountBalance>, i: nat, f: Figure): nat -> int {
    (m: nat) => if m <= |accounts| then UnderSum(accounts, balances, Some(i), m, f) else 0
  }

  lemma KidsGrow(accounts: seq<Account>, balances: map<nat, AccountBalance>, i: nat, f: Figure, m: nat)
    requires IsTree(accounts) && i < |accounts| && m < |accounts|
    ensures var x, y := KidsTo(accounts, balances, i, f), UnderTo(accounts, balances, i, f);
            x(m + 1) - x(m) == y(m + 1) - y(m)
    decreases |accounts| - i, 0, 1
  {
    KidsDelta(accounts, balances, i, m, f);
  }

  lemma KidsAreLeafSum(accounts: seq<Account>, balances: map<nat, AccountBalance>, i: nat, f: Figure)
    requires IsTree(accounts) && i < |accounts|
    ensures KidsTo(accounts, balances, i, f)(|accounts|) == UnderTo(accounts, balances, i, f)(|accounts|)
    decreases |accounts| - i, 0, 2
  {
    var x, y := KidsTo(accounts, balances, i, f), UnderTo(accounts, balances, i, f);
    NothingYet(accounts, balances, i, f);
    forall m: nat | m < |accounts| ensures x(m + 1) - x(m) == y(m + 1) - y(m) {
      KidsGrow(accounts, balances, i, f, m);
    }
    Telescopes(x, y, |accounts|);
  }

  lemma RootsDelta(accounts: seq<Account>, balances: map<nat, AccountBalance>, m: nat, f: Figure)
    requires IsTree(accounts) && m < |accounts|
    ensures RootsSum(accounts, balances, m + 1, f) - RootsSum(accounts, balances, m, f)
            == UnderSum(accounts, balances, None, m + 1, f) - UnderSum(accounts, balances, None, m, f)
  {
    UnderStep(accounts, balances, None, m + 1, f);
    RootsStep(accounts, balances, m + 1, f);
    if accounts[m].parent == None {
      NodeIsLeafSum(accounts, balances, m, f);
    }
  }

  lemma NoRootsYet(accounts: seq<Account>, balances: map<nat, AccountBalance>, f: Figure)
    ensures RootsSum(accounts, balances, 0, f) == 0 && UnderSum(accounts, balances, None, 0, f) == 0
  {
    LeafSumEmpty(balances, f, |accounts|);
  }

  function RootsTo(accounts: seq<Account>, balances: map<nat, AccountBalance>, f: Figure): nat -> int {
    (m: nat) => if m <= |accounts| then RootsSum(accounts, balances, m, f) else 0
  }

  function TopTo(accounts: seq<Account>, balances: map<nat, AccountBalance>, f: Figure): nat -> int {
    (m: nat) => if m <= |accounts| then UnderSum(accounts, balances, None, m, f) else 0
  }

  lemma RootsGrow(accounts: seq<Account>, balances: map<nat, AccountBalance>, f: Figure, m: nat)
    requires IsTree(accounts) && m < |accounts|
    ensures var x, y := RootsTo(accounts, balances, f), TopTo(accounts, balances, f);
            x(m + 1) - x(m) == y(m + 1) - y(m)
  {
    RootsDelta(accounts, balances, m, f);
  }

  lemma RootsAreLeafSum(accounts: seq<Account>, balances: map<nat, AccountBalance>, n: nat, f: Figure)
    requires IsTree(accounts) && n <= |accounts|
    ensures RootsSum(accounts, balances, n, f) == UnderSum(accounts, balances, None, n, f)
  {
    var x, y := RootsTo(accounts, balances, f), TopTo(accounts, balances, f);
    NoRootsYet(accounts, balances, f);
    forall m: nat | m < n ensures x(m + 1) - x(m) == y(m + 1) - y(m) {
      RootsGrow(accounts, balances, f, m);
    }
    Telescopes(x, y, n);
  }

  // ----- drill-down -------------------------------------------------------------------------

  datatype DrillLine = DrillLine(entry: nat, date: int, account: nat, code: string, name: string, debit: int, credit: int)

  datatype DrillDown = DrillDown(
    isRollup: bool, leaves: set<nat>, lines: seq<DrillLine>, totalDebit: int, totalCredit: int, signedTotal: int)

  datatype DrillError = AccountNotFound

  function DrillLineOf(accounts: seq<Account>, k: nat, date: int, l: Line): DrillLine
    requires l.account < |accounts|
  {
    DrillLine(k, date, l.account, accounts[l.account].code, accounts[l.account].name, l.debit, l.credit)
  }

  /** The lines of entry `k` posted to `ids`. */
  function EntryDrill(accounts: seq<Account>, k: nat, date: int, ls: seq<Line>, ids: set<nat>): seq<DrillLine>
    requires forall i :: i in ids ==> i < |accounts|
  {
    if ls == [] then []
    else
      var before, l := EntryDrill(accounts, k, date, ls[..|ls|-1], ids), ls[|ls|-1];
      if l.account in ids then before + [DrillLineOf(accounts, k, date, l)] else before
  }

  function DrillLines(accounts: seq<Account>, es: seq<Entry>, w: Window, ids: set<nat>): seq<DrillLine>
    requires forall i :: i in ids ==> i < |accounts|
  {
    if es == [] then []
    else
      var k := |es| - 1;
      var before := DrillLines(accounts, es[..k], w, ids);
      if Counts(es[k], w) then before + EntryDrill(accounts, k, es[k].date, es[k].lines, ids) else before
  }

  /** Signed by each line's own account type. */
  function LineSigned(accounts: seq<Account>, ls: seq<Line>, ids: set<nat>): int
    requires forall i :: i in ids ==> i < |accounts|
  {
    if ls == [] then 0
    else
      var l := ls[|ls|-1];
      LineSigned(accounts, ls[..|ls|-1], ids)
      + if l.account in ids then Signed(accounts[l.account].accountType, l.debit, l.credit) else 0
  }

  function SignedTurnover(accounts: seq<Account>, es: seq<Entry>, w: Window, ids: set<nat>): int
    requires forall i :: i in ids ==> i < |accounts|
  {
    if es == [] then 0
    else
      var e := es[|es|-1];
      SignedTurnover(accounts, es[..|es|-1], w, ids) + if Counts(e, w) then LineSigned(accounts, e.lines, ids) else 0
  }

  method AccountActivity(b: Book, i: nat, w: Window) returns (r: Result<DrillDown, DrillError>)
    ensures r.Err? <==> i >= |b.accounts|
    ensures r.Ok? ==>
              var d := r.value;
              && d.isRollup == !b.accounts[i].isLeaf && d.leaves == DrillLeaves(b.accounts, i)
              && d.lines == DrillLines(b.accounts, b.entries, w, d.leaves)
              && d.totalDebit == Turnover(b.entries, w, d.leaves, Debit)
              && d.totalCredit == Turnover(b.entries, w, d.leaves, Credit)
              && d.signedTotal == SignedTurnover(b.accounts, b.entries, w, d.leaves)
  {
    if i >= |b.accounts| {
      return Err(AccountNotFound);
    }
    var ids := DrillLeaves(b.accounts, i);
    var lines: seq<DrillLine> := [];
    var totalD, totalC, signed := 0, 0, 0;
    for k := 0 to |b.entries|
      invariant lines == DrillLines(b.accounts, b.entries[..k], w, ids)
      invariant totalD == Turnover(b.entries[..k], w, ids, Debit)
      invariant totalC == Turnover(b.entries[..k], w, ids, Credit)
      invariant signed == SignedTurnover(b.accounts, b.entries[..k], w, ids)
    {
      var e := b.entries[k];
      assert b.entries[..k+1][..k] == b.entries[..k];
      if Counts(e, w) {
        var more, d, c, s := EntryActivity(b.accounts, k, e, ids);
        lines, totalD, totalC, signed := lines + more, totalD + d, totalC + c, signed + s;
      }
    }
    assert b.entries[..|b.entries|] == b.entries;
    return Ok(DrillDown(!b.accounts[i].isLeaf, ids, lines, totalD, totalC, signed));
  }

  /** The part of the loop that one entry takes. */
  method EntryActivity(accounts: seq<Account>, k: nat, e: Entry, ids: set<nat>)
    returns (lines: seq<DrillLine>, debit: int, credit: int, signed: int)
    requires forall i :: i in ids ==> i < |accounts|
    ensures lines == EntryDrill(accounts, k, e.date, e.lines, ids)
    ensures debit == LineSum(e.lines, ids, Debit) && credit == LineSum(e.lines, ids, Credit)
    ensures signed == LineSigned(accounts, e.lines, ids)
  {
    lines, debit, credit, signed := [], 0, 0, 0;
    for j := 0 to |e.lines|
      invariant lines == EntryDrill(accounts, k, e.date, e.lines[..j], ids)
      invariant debit == LineSum(e.lines[..j], ids, Debit)
      invariant credit == LineSum(e.lines[..j], ids, Credit)
      invariant signed == LineSigned(accounts, e.lines[..j], ids)
    {
      var l := e.lines[j];
      assert e.lines[..j+1][..j] == e.lines[..j];
      if l.account in ids {
        lines := lines + [DrillLineOf(accounts, k, e.date, l)];
        debit, credit := debit + l.debit, credit + l.credit;
        signed := signed + Signed(accounts[l.account].accountType, l.debit, l.credit);
      }
    }
    assert e.lines[..|e.lines|] == e.lines;
  }

  function DebitOf(): DrillLine -> int { (l: DrillLine) => l.debit }
  function CreditOf(): DrillLine -> int { (l: DrillLine) => l.credit }

  lemma {:induction false} EntryLinesAddUp(accounts: seq<Account>, k: nat, date: int, ls: seq<Line>, ids: set<nat>)
    requires forall i :: i in ids ==> i < |accounts|
    ensures SumOver(EntryDrill(accounts, k, date, ls, ids), DebitOf()) == LineSum(ls, ids, Debit)
    ensures SumOver(EntryDrill(accounts, k, date, ls, ids), CreditOf()) == LineSum(ls, ids, Credit)
  {
    if ls != [] {
      var init, l := ls[..|ls|-1], ls[|ls|-1];
      EntryLinesAddUp(accounts, k, date, init, ids);
      if l.account in ids {
        var rest, one := EntryDrill(accounts, k, date, init, ids), DrillLineOf(accounts, k, date, l);
        assert (rest + [one])[..|rest|] == rest;
      }
    }
  }

  /** The lines that drill-down lists add up to the totals it shows. */
  lemma {:induction false} DrillLinesAddUp(accounts: seq<Account>, es: seq<Entry>, w: Window, ids: set<nat>)
    requires forall i :: i in ids ==> i < |accounts|
    ensures SumOver(DrillLines(accounts, es, w, ids), DebitOf()) == Turnover(es, w, ids, Debit)
    ensures SumOver(DrillLines(accounts, es, w, ids), CreditOf()) == Turnover(es, w, ids, Credit)
  {
    if es != [] {
      var k := |es| - 1;
      DrillLinesAddUp(accounts, es[..k], w, ids);
      if Counts(es[k], w) {
        EntryLinesAddUp(accounts, k, es[k].date, es[k].lines, ids);
        SumAppend(DrillLines(accounts, es[..k], w, ids), EntryDrill(accounts, k, es[k].date, es[k].lines, ids), DebitOf());
        SumAppend(DrillLines(accounts, es[..k], w, ids), EntryDrill(accounts, k, es[k].date, es[k].lines, ids), CreditOf());
      }
    }
  }

  lemma {:induction false} EntryShowsExactly(accounts: seq<Account>, k: nat, date: int, ls: seq<Line>, ids: set<nat>,
                                             d: DrillLine)
    requires forall i :: i in ids ==> i < |accounts|
    ensures d in EntryDrill(accounts, k, date, ls, ids) <==>
              exists i :: 0 <= i < |ls| && ls[i].account in ids
                          && d == DrillLine(k, date, ls[i].account, accounts[ls[i].account].code,
                                            accounts[ls[i].account].name, ls[i].debit, ls[i].credit)
  {
    if ls != [] {
      var n := |ls| - 1;
      EntryShowsExactly(accounts, k, date, ls[..n], ids, d);
      assert forall i :: 0 <= i < n ==> ls[..n][i] == ls[i];
    }
  }

  /** Entry `k` counts, and line `i` of it is the one shown. */
  ghost predicate Shows(accounts: seq<Account>, es: seq<Entry>, w: Window, ids: set<nat>, d: DrillLine, k: int, i: int) {
    && 0 <= k < |es| && Counts(es[k], w) && 0 <= i < |es[k].lines|
    && var l := es[k].lines[i];
       l.account in ids && l.account < |accounts|
       && d == DrillLine(k, es[k].date, l.account, accounts[l.account].code, accounts[l.account].name, l.debit, l.credit)
  }

  /** Drill-down lists a line exactly when it is one of a counted entry on one of the leaves, with its entry,
      day, account and amounts. */
  lemma {:induction false} DrillShowsExactly(accounts: seq<Account>, es: seq<Entry>, w: Window, ids: set<nat>, d: DrillLine)
    requires forall i :: i in ids ==> i < |accounts|
    ensures d in DrillLines(accounts, es, w, ids) <==> exists k, i :: Shows(accounts, es, w, ids, d, k, i)
  {
    if es != [] {
      var n := |es| - 1;
      DrillShowsExactly(accounts, es[..n], w, ids, d);
      EntryShowsExactly(accounts, n, es[n].date, es[n].lines, ids, d);
      forall k, i | Shows(accounts, es[..n], w, ids, d, k, i) ensures Shows(accounts, es, w, ids, d, k, i) {}
      forall k, i | Shows(accounts, es, w, ids, d, k, i) && k < n ensures Shows(accounts, es[..n], w, ids, d, k, i) {}
      if Counts(es[n], w) && d in EntryDrill(accounts, n, es[n].date, es[n].lines, ids) {
        var i :| 0 <= i < |es[n].lines| && es[n].lines[i].account in ids
                 && d == DrillLine(n, es[n].date, es[n].lines[i].account, accounts[es[n].lines[i].account].code,
                                   accounts[es[n].lines[i].account].name, es[n].lines[i].debit, es[n].lines[i].credit);
        assert Shows(accounts, es, w, ids, d, n, i);
      }
    }
  }

  lemma {:induction false} LineSignedUnion(accounts: seq<Account>, ls: seq<Line>, s: set<nat>, t: set<nat>)
    requires s !! t && forall i :: i in s + t ==> i < |accounts|
    ensures LineSigned(accounts, ls, s + t) == LineSigned(accounts, ls, s) + LineSigned(accounts, ls, t)
  {
    if ls != [] { LineSignedUnion(accounts, ls[..|ls|-1], s, t); }
  }

  lemma {:induction false} SignedUnion(accounts: seq<Account>, es: seq<Entry>, w: Window, s: set<nat>, t: set<nat>)
    requires s !! t && forall i :: i in s + t ==> i < |accounts|
    ensures SignedTurnover(accounts, es, w, s + t) == SignedTurnover(accounts, es, w, s) + SignedTurnover(accounts, es, w, t)
  {
    if es != [] {
      SignedUnion(accounts, es[..|es|-1], w, s, t);
      LineSignedUnion(accounts, es[|es|-1].lines, s, t);
    }
  }

  lemma {:induction false} LineSignedOne(accounts: seq<Account>, ls: seq<Line>, i: nat)
    requires i < |accounts|
    ensures LineSigned(accounts, ls, {i}) ==
              Signed(accounts[i].accountType, LineSum(ls, {i}, Debit), LineSum(ls, {i}, Credit))
  {
    if ls != [] { LineSignedOne(accounts, ls[..|ls|-1], i); }
  }

  lemma {:induction false} SignedOne(accounts: seq<Account>, es: seq<Entry>, w: Window, i: nat)
    requires i < |accounts|
    ensures SignedTurnover(accounts, es, w, {i}) ==
              Signed(accounts[i].accountType, Turnover(es, w, {i}, Debit), Turnover(es, w, {i}, Credit))
  {
    if es != [] {
      SignedOne(accounts, es[..|es|-1], w, i);
      LineSignedOne(accounts, es[|es|-1].lines, i);
    }
  }

  lemma {:induction false} LineSignedEmpty(accounts: seq<Account>, ls: seq<Line>)
    ensures LineSigned(accounts, ls, {}) == 0
  {
    if ls != [] { LineSignedEmpty(accounts, ls[..|ls|-1]); }
  }

  lemma {:induction false} SignedEmpty(accounts: seq<Account>, es: seq<Entry>, w: Window)
    ensures SignedTurnover(accounts, es, w, {}) == 0
  {
    if es != [] {
      SignedEmpty(accounts, es[..|es|-1], w);
      LineSignedEmpty(accounts, es[|es|-1].lines);
    }
  }

  /** Balances of the same period keyed by account. */
  function BalanceMap(b: Book, w: Window): map<nat, AccountBalance> {
    map i: nat | i < |b.accounts| :: BalanceOf(b, w, i)
  }

  function Drilled(b: Book, w: Window, ids: set<nat>, f: Figure): int
    requires forall i :: i in ids ==> i < |b.accounts|
  {
    match f
    case DebitTotal => Turnover(b.entries, w, ids, Debit)
    case CreditTotal => Turnover(b.entries, w, ids, Credit)
    case SignedBalance => SignedTurnover(b.accounts, b.entries, w, ids)
  }

  lemma {:induction false} LeafSumLocal(balances: map<nat, AccountBalance>, f: Figure, ids: set<nat>, n: nat, i: nat)
    requires n <= i
    ensures LeafSum(balances, f, ids - {i}, n) == LeafSum(balances, f, ids, n)
  {
    if n > 0 { LeafSumLocal(balances, f, ids, n - 1, i); }
  }

  /** Summing the lines of a set of accounts or the balances of its members is the same. */
  lemma {:induction false} LinesAreBalances(b: Book, w: Window, ids: set<nat>, n: nat, f: Figure)
    requires n <= |b.accounts| && forall i :: i in ids ==> i < n
    ensures Drilled(b, w, ids, f) == LeafSum(BalanceMap(b, w), f, ids, n)
  {
    if n == 0 {
      assert ids == {};
      TurnoverEmpty(b.entries, w, Debit);
      TurnoverEmpty(b.entries, w, Credit);
      SignedEmpty(b.accounts, b.entries, w);
    } else if n - 1 in ids {
      var rest := ids - {n - 1};
      LinesAreBalances(b, w, rest, n - 1, f);
      LeafSumLocal(BalanceMap(b, w), f, ids, n - 1, n - 1);
      assert ids == rest + {n - 1};
      TurnoverUnion(b.entries, w, rest, {n - 1}, Debit);
      TurnoverUnion(b.entries, w, rest, {n - 1}, Credit);
      SignedUnion(b.accounts, b.entries, w, rest, {n - 1});
      SignedOne(b.accounts, b.entries, w, n - 1);
    } else {
      LinesAreBalances(b, w, ids, n - 1, f);
    }
  }

  /** Drilling down by path gives the figures that rolling up by pointers shows, for every
      account, leaf or parent, without a wildcard in its path, over the same period. */
  lemma DrillDownMatchesRollup(b: Book, w: Window, i: nat, f: Figure)
    requires IsTree(b.accounts) && i < |b.accounts| && Literal(b.accounts[i].path)
    ensures Drilled(b, w, DrillLeaves(b.accounts, i), f)
            == FigureOf(BuildNode(b.accounts, BalanceMap(b, w), i), f)
  {
    DrillLeavesAreTreeLeaves(b.accounts, i);
    NodeIsLeafSum(b.accounts, BalanceMap(b, w), i, f);
    LinesAreBalances(b, w, TreeLeaves(b.accounts, i), |b.accounts|, f);
  }

  // ----- root totals ------------------------------------------------------------------------

  function Leaves(accounts: seq<Account>): set<nat> {
    set j: nat | j < |accounts| && accounts[j].isLeaf
  }

  lemma {:induction false} RootAbove(accounts: seq<Account>, j: nat) returns (c: nat)
    requires IsTree(accounts) && j < |accounts|
    ensures c < |accounts| && accounts[c].parent == None && (j == c || Below(accounts, j, c))
    decreases j
  {
    assert RowOk(accounts, 0, j);
    if accounts[j].parent == None {
      c := j;
    } else {
      c := RootAbove(accounts, accounts[j].parent.value);
    }
  }

  lemma AllLeavesUnderRoots(accounts: seq<Account>)
    requires IsTree(accounts)
    ensures LeavesUnder(accounts, None, |accounts|) == Leaves(accounts)
  {
    forall j: nat | j in Leaves(accounts) ensures j in LeavesUnder(accounts, None, |accounts|) {
      var c := RootAbove(accounts, j);
      LeavesUnderContains(accounts, None, |accounts|, c);
    }
    forall j: nat | j in LeavesUnder(accounts, None, |accounts|) ensures j in Leaves(accounts) {
      LeavesUnderMember(accounts, None, |accounts|, j);
    }
  }

  lemma {:induction false} NoBranchLines(ls: seq<Line>, ids: set<nat>, side: Side)
    requires forall i :: 0 <= i < |ls| ==> ls[i].account !in ids
    ensures LineSum(ls, ids, side) == 0
  {
    if ls != [] { NoBranchLines(ls[..|ls|-1], ids, side); }
  }

  lemma {:induction false} NoBranchTurnover(b: Book, k: nat, w: Window, ids: set<nat>, side: Side)
    requires BookOk(b) && k <= |b.entries| && ids !! Leaves(b.accounts)
    ensures Turnover(b.entries[..k], w, ids, side) == 0
  {
    if k > 0 {
      assert b.entries[..k][..k-1] == b.entries[..k-1];
      NoBranchTurnover(b, k - 1, w, ids, side);
      assert EntryOk(b, b.entries[k-1]);
      var ls := b.entries[k-1].lines;
      forall i | 0 <= i < |ls| ensures ls[i].account !in ids {
        assert Postable(b, ls[i].account);
        assert ls[i].account in Leaves(b.accounts);
      }
      NoBranchLines(ls, ids, side);
    }
  }

  /** Because only leaves are posted to, the roots of the roll-up add up to the trial balance. */
  lemma RootsAreTrialBalance(b: Book, asOf: int)
    requires BookOk(b) && IsTree(b.accounts)
    ensures var roots := BuildRollupTree(b.accounts, BalanceMap(b, Window(None, asOf)));
            && SumAll(roots, DebitTotal) == TrialBalanceAt(b, asOf).totalDebits
            && SumAll(roots, CreditTotal) == TrialBalanceAt(b, asOf).totalCredits
  {
    RootFigure(b, Window(None, asOf), DebitTotal, Debit);
    RootFigure(b, Window(None, asOf), CreditTotal, Credit);
    RowTotals(b, Window(None, asOf), |b.accounts|);
  }

  lemma RootFigure(b: Book, w: Window, f: Figure, side: Side)
    requires BookOk(b) && IsTree(b.accounts)
    requires f == if side == Debit then DebitTotal else CreditTotal
    ensures SumAll(BuildRollupTree(b.accounts, BalanceMap(b, w)), f) == Turnover(b.entries, w, FirstIds(|b.accounts|), side)
  {
    var n, leaves := |b.accounts|, Leaves(b.accounts);
    RootsAreLeafSum(b.accounts, BalanceMap(b, w), n, f);
    AllLeavesUnderRoots(b.accounts);
    LinesAreBalances(b, w, leaves, n, f);
    var branches := FirstIds(n) - leaves;
    assert leaves + branches == FirstIds(n);
    TurnoverUnion(b.entries, w, leaves, branches, side);
    NoBranchTurnover(b, |b.entries|, w, branches, side);
    assert b.entries[..|b.entries|] == b.entries;
  }
}
