/** Drill-down puts an account's path into a LIKE pattern as it is. What it then shows when codes
    contain wildcards or the escape character. */
module Wildcards {
  import opened Accounts
  import opened Coa
  import opened Rollup

  // ----- what a pattern with an open end matches --------------------------------------------

  predicate NoDanglingEscape(a: string) { a == "" || a[|a|-1] != '\\' }

  lemma {:induction false} LikeSplits(a: string, s: string) returns (n: nat)
    requires NoDanglingEscape(a) && Like(a + "%", s)
    ensures n <= |s| && Like(a, s[..n])
    decreases |a|, |s|
  {
    if a == "" {
      n := 0;
    } else {
      assert (a + "%")[1..] == a[1..] + "%";
      if a[0] == '%' {
        if Like(a[1..] + "%", s) {
          n := LikeSplits(a[1..], s);
        } else {
          n := LikeSplits(a, s[1..]);
          n := n + 1;
          assert s[..n][1..] == s[1..][..n-1];
        }
      } else if a[0] == '\\' {
        assert (a + "%")[2..] == a[2..] + "%";
        n := LikeSplits(a[2..], s[1..]);
        n := n + 1;
        assert s[..n][1..] == s[1..][..n-1];
      } else {
        n := LikeSplits(a[1..], s[1..]);
        n := n + 1;
        assert s[..n][1..] == s[1..][..n-1];
      }
    }
  }

  lemma {:induction false} LikeExtends(a: string, s: string, n: nat)
    requires NoDanglingEscape(a) && n <= |s| && Like(a, s[..n])
    ensures Like(a + "%", s)
    decreases |a|, n
  {
    if a == "" {
      assert a + "%" == "%";
      LikeAnything(s);
    } else {
      assert (a + "%")[1..] == a[1..] + "%";
      if n > 0 { assert s[..n][1..] == s[1..][..n-1]; }
      if a[0] == '%' {
        if Like(a[1..], s[..n]) {
          LikeExtends(a[1..], s, n);
        } else {
          LikeExtends(a, s[1..], n - 1);
        }
      } else if a[0] == '\\' {
        assert (a + "%")[2..] == a[2..] + "%";
        LikeExtends(a[2..], s[1..], n - 1);
      } else {
        LikeExtends(a[1..], s[1..], n - 1);
      }
    }
  }

  /** A separator at the end of a pattern stands for itself, escaped or not. */
  lemma {:induction false} LikeEnds(p: string, t: string)
    requires Like(p + ">", t)
    ensures t != "" && t[|t|-1] == '>'
    decreases |p|, |t|
  {
    var a := p + ">";
    if p == "" {
      assert a[1..] == "" && t == ">";
    } else {
      assert a[1..] == p[1..] + ">";
      if p[0] == '%' {
        if Like(p[1..] + ">", t) { LikeEnds(p[1..], t); } else { LikeEnds(p, t[1..]); }
      } else if p[0] == '\\' {
        if |p| == 1 {
          assert a[2..] == "" && t == ">";
        } else {
          assert a[2..] == p[2..] + ">";
          LikeEnds(p[2..], t[1..]);
        }
      } else {
        LikeEnds(p[1..], t[1..]);
      }
    }
  }

  // ----- drill-down by matching branches ------------------------------------------------------

  /** The path `u`, closed by a separator, matches the path `p`, closed by one, as a pattern. */
  predicate PathMatches(p: string, u: string) { Like(p + ">", u + ">") }

  /** What stands before a separator of a path is the path of an account above. */
  lemma {:induction false} PrefixIsAncestor(accounts: seq<Account>, j: nat, u: string) returns (k: nat)
    requires IsTree(accounts) && j < |accounts| && u + ">" <= accounts[j].path
    ensures k < |accounts| && Below(accounts, j, k) && accounts[k].path == u
    decreases j
  {
    assert RowOk(accounts, 0, j);
    RootPath(accounts, j);
    if accounts[j].parent == None {
      NotInCode(u, accounts[j].code);
      assert false;
    }
    k := accounts[j].parent.value;
    PathShape(accounts, k);
    PrefixOfJoined(u, accounts[k].path, accounts[j].code);
    if u != accounts[k].path {
      k := PrefixIsAncestor(accounts, k, u);
    }
  }

  lemma MatchedBelow(accounts: seq<Account>, i: nat, j: nat) returns (k: nat)
    requires IsTree(accounts) && i < |accounts| && j < |accounts|
    requires Like(accounts[i].path + ">" + "%", accounts[j].path)
    ensures k < |accounts| && Below(accounts, j, k) && PathMatches(accounts[i].path, accounts[k].path)
  {
    var s := accounts[j].path;
    var n := LikeSplits(accounts[i].path + ">", s);
    LikeEnds(accounts[i].path, s[..n]);
    assert s[..n] == s[..n-1] + ">";
    k := PrefixIsAncestor(accounts, j, s[..n-1]);
  }

  lemma BelowMatched(accounts: seq<Account>, i: nat, j: nat, k: nat)
    requires IsTree(accounts) && i < |accounts| && j < |accounts| && k < |accounts|
    requires Below(accounts, j, k) && PathMatches(accounts[i].path, accounts[k].path)
    ensures Like(accounts[i].path + ">" + "%", accounts[j].path)
  {
    PathIsPointers(accounts, j, k);
    var u := accounts[k].path + ">";
    assert accounts[j].path[..|u|] == u;
    LikeExtends(accounts[i].path + ">", accounts[j].path, |u|);
  }

  ghost predicate MatchedAbove(accounts: seq<Account>, i: nat, j: nat)
    requires i < |accounts| && j < |accounts|
  {
    exists k: nat :: k < |accounts| && Below(accounts, j, k) && PathMatches(accounts[i].path, accounts[k].path)
  }

  /** Whatever the codes, drill-down into a parent shows exactly the leaves below the accounts whose
      path matches its path as a pattern. */
  lemma DrillShowsMatches(accounts: seq<Account>, i: nat, j: nat)
    requires IsTree(accounts) && i < |accounts| && !accounts[i].isLeaf && j < |accounts|
    ensures j in DrillLeaves(accounts, i) <==> accounts[j].isLeaf && MatchedAbove(accounts, i, j)
  {
    PathShape(accounts, i);
    if Like(accounts[i].path + ">" + "%", accounts[j].path) {
      var k := MatchedBelow(accounts, i, j);
    }
    if MatchedAbove(accounts, i, j) {
      var k: nat :| k < |accounts| && Below(accounts, j, k) && PathMatches(accounts[i].path, accounts[k].path);
      BelowMatched(accounts, i, j, k);
    }
  }

  // ----- counting separators -------------------------------------------------------------------

  function Separators(s: string): nat {
    if s == "" then 0 else (if s[0] == '>' then 1 else 0) + Separators(s[1..])
  }

  lemma {:induction false} SeparatorsAdd(a: string, c: string)
    ensures Separators(a + c) == Separators(a) + Separators(c)
  {
    if a == "" {
      assert a + c == c;
    } else {
      assert (a + c)[1..] == a[1..] + c;
      SeparatorsAdd(a[1..], c);
    }
  }

  /** A match has at least the separators of the pattern. */
  lemma {:induction false} LikeSeparators(p: string, s: string)
    requires Like(p, s)
    ensures Separators(p) <= Separators(s)
    decreases |p|, |s|
  {
    if p != "" {
      if p[0] == '%' {
        if Like(p[1..], s) { LikeSeparators(p[1..], s); } else { LikeSeparators(p, s[1..]); }
      } else if p[0] == '\\' && |p| > 1 {
        assert p[1..][1..] == p[2..];
        LikeSeparators(p[2..], s[1..]);
      } else {
        LikeSeparators(p[1..], s[1..]);
      }
    }
  }

  /** An account never matches one below it. */
  lemma AncestorsDiffer(accounts: seq<Account>, i: nat, k: nat)
    requires IsTree(accounts) && i < |accounts| && k < |accounts| && Below(accounts, i, k)
    ensures !PathMatches(accounts[i].path, accounts[k].path)
  {
    PathIsPointers(accounts, i, k);
    var p, u := accounts[i].path, accounts[k].path + ">";
    assert p == u + p[|u|..];
    SeparatorsAdd(u, p[|u|..]);
    SeparatorsAdd(p, ">");
    assert Separators(">") == 1 by { assert ">"[1..] == ""; }
    if Like(p + ">", u) {
      LikeSeparators(p + ">", u);
    }
  }

  // ----- the exact condition -------------------------------------------------------------------

  /** Every account that is not a leaf has a child, as in every instantiated chart. */
  ghost predicate BranchesHaveChildren(accounts: seq<Account>) {
    forall i: nat :: i < |accounts| && !accounts[i].isLeaf ==> HasChild(accounts, i)
  }

  ghost predicate HasChild(accounts: seq<Account>, i: nat) {
    exists j: nat :: j < |accounts| && accounts[j].parent == Some(i)
  }

  lemma {:induction false} LeafBelow(accounts: seq<Account>, k: nat) returns (j: nat)
    requires IsTree(accounts) && BranchesHaveChildren(accounts) && k < |accounts| && !accounts[k].isLeaf
    ensures j < |accounts| && accounts[j].isLeaf && Below(accounts, j, k)
    decreases |accounts| - k
  {
    assert HasChild(accounts, k);
    var c: nat :| c < |accounts| && accounts[c].parent == Some(k);
    assert RowOk(accounts, 0, c);
    if accounts[c].isLeaf {
      j := c;
    } else {
      j := LeafBelow(accounts, c);
      BelowChild(accounts, j, c, k);
    }
  }

  /** Two accounts above the same one are in line. */
  lemma AboveInLine(accounts: seq<Account>, j: nat, i: nat, k: nat)
    requires j < |accounts| && i < |accounts| && k < |accounts| && Below(accounts, j, i) && Below(accounts, j, k)
    ensures i == k || Below(accounts, k, i) || Below(accounts, i, k)
  {
    if i < k {
      InLine(accounts, j, i, k);
    } else if k < i {
      InLine(accounts, j, k, i);
    }
  }

  lemma {:induction false} BelowTrans(accounts: seq<Account>, j: nat, k: nat, i: nat)
    requires j < |accounts| && k < |accounts| && Below(accounts, j, k) && Below(accounts, k, i)
    ensures Below(accounts, j, i)
    decreases j
  {
    var p := accounts[j].parent.value;
    if p != k { BelowTrans(accounts, p, k, i); }
  }

  /** Every parent account whose path matches the one of `i` is `i` or lies below it. */
  ghost predicate MatchesInside(accounts: seq<Account>, i: nat)
    requires i < |accounts|
  {
    forall k: nat :: k < |accounts| && !accounts[k].isLeaf && PathMatches(accounts[i].path, accounts[k].path) ==>
      k == i || Below(accounts, k, i)
  }

  /** Every leaf below `i` lies below an account whose path matches the one of `i`. */
  ghost predicate LeavesMatched(accounts: seq<Account>, i: nat)
    requires i < |accounts|
  {
    forall j: nat :: j < |accounts| && accounts[j].isLeaf && Below(accounts, j, i) ==> MatchedAbove(accounts, i, j)
  }

  lemma NothingForeign(accounts: seq<Account>, i: nat)
    requires IsTree(accounts) && i < |accounts| && !accounts[i].isLeaf && MatchesInside(accounts, i)
    ensures DrillLeaves(accounts, i) <= TreeLeaves(accounts, i)
  {
    forall j | j in DrillLeaves(accounts, i) ensures j in TreeLeaves(accounts, i) {
      DrillShowsMatches(accounts, i, j);
      var k: nat :| k < |accounts| && Below(accounts, j, k) && PathMatches(accounts[i].path, accounts[k].path);
      LeafHasNothingBelow(accounts, j, k);
      if k != i { BelowTrans(accounts, j, k, i); }
    }
  }

  lemma SomethingForeign(accounts: seq<Account>, i: nat, k: nat) returns (j: nat)
    requires IsTree(accounts) && BranchesHaveChildren(accounts) && i < |accounts| && !accounts[i].isLeaf
    requires k < |accounts| && !accounts[k].isLeaf && PathMatches(accounts[i].path, accounts[k].path)
    requires k != i && !Below(accounts, k, i)
    ensures j in DrillLeaves(accounts, i) && j !in TreeLeaves(accounts, i)
  {
    j := LeafBelow(accounts, k);
    DrillShowsMatches(accounts, i, j);
    if Below(accounts, i, k) {
      AncestorsDiffer(accounts, i, k);
    }
    if Below(accounts, j, i) {
      AboveInLine(accounts, j, i, k);
    }
  }

  /** Whatever the codes, path and pointers select the same leaves of a parent if and only if every
      parent account that its path matches lies in its branch, and every leaf of its branch lies below one. */
  lemma DrillAgreesExactly(accounts: seq<Account>, i: nat)
    requires IsTree(accounts) && BranchesHaveChildren(accounts) && i < |accounts| && !accounts[i].isLeaf
    ensures DrillLeaves(accounts, i) == TreeLeaves(accounts, i)
       <==> MatchesInside(accounts, i) && LeavesMatched(accounts, i)
  {
    forall j: nat | j < |accounts| && accounts[j].isLeaf && Below(accounts, j, i)
      ensures j in TreeLeaves(accounts, i) && (j in DrillLeaves(accounts, i) <==> MatchedAbove(accounts, i, j))
    {
      DrillShowsMatches(accounts, i, j);
    }
    if MatchesInside(accounts, i) {
      NothingForeign(accounts, i);
    } else {
      var k: nat :| k < |accounts| && !accounts[k].isLeaf && PathMatches(accounts[i].path, accounts[k].path)
                    && k != i && !Below(accounts, k, i);
      var j := SomethingForeign(accounts, i, k);
    }
  }

  lemma {:induction false} LikeItself(p: string)
    requires '\\' !in p
    ensures Like(p, p)
  {
    if p != "" {
      LikeItself(p[1..]);
      if p[0] == '%' { LikeRest(p[1..], p); }
    }
  }

  lemma LikeRest(rest: string, p: string)
    requires p != "" && p[0] == '%' && rest == p[1..] && Like(rest, rest)
    ensures Like(p, p)
  {
    assert Like(p[1..], p[1..]);
    assert Like(p, p[1..]);
  }

  /** Without the escape character in the path a branch always shows its own leaves, so the two agree
      if and only if the path matches no parent account of another branch. */
  lemma WildcardsAgreeExactly(accounts: seq<Account>, i: nat)
    requires IsTree(accounts) && BranchesHaveChildren(accounts) && i < |accounts| && !accounts[i].isLeaf
    requires '\\' !in accounts[i].path
    ensures TreeLeaves(accounts, i) <= DrillLeaves(accounts, i)
    ensures DrillLeaves(accounts, i) == TreeLeaves(accounts, i) <==> MatchesInside(accounts, i)
  {
    LikeItself(accounts[i].path + ">");
    forall j: nat | j < |accounts| && accounts[j].isLeaf && Below(accounts, j, i)
      ensures MatchedAbove(accounts, i, j) && j in DrillLeaves(accounts, i)
    {
      assert PathMatches(accounts[i].path, accounts[i].path);
      DrillShowsMatches(accounts, i, j);
    }
    DrillAgreesExactly(accounts, i);
  }

  // ----- templates with such codes -------------------------------------------------------------

  /** Two branches with one leaf each. */
  function TwoBranches(one: string, other: string): seq<Node> {
    [Node(one, "", Asset, None), Node(other, "", Asset, None),
     Node("1", "", Asset, Some(one)), Node("2", "", Asset, Some(other))]
  }

  function TwoBranchRows(one: string, other: string): seq<Account> {
    [Account(one, "", Asset, None, one, 0, false, true), Account(other, "", Asset, None, other, 0, false, true),
     Account("1", "", Asset, Some(0), one + ">1", 1, true, true),
     Account("2", "", Asset, Some(1), other + ">2", 1, true, true)]
  }

  lemma TwoBranchParents(one: string, other: string)
    requires |one| == 2 && |other| == 2 && one != other
    ensures UniqueNodes(TwoBranches(one, other)) && ParentsFirst(TwoBranches(one, other))
    ensures ParentCodes(TwoBranches(one, other)) == {one, other}
  {
    var ns := TwoBranches(one, other);
    assert ns[2].parent.value == ns[0].code && ns[3].parent.value == ns[1].code;
    assert ns[2] in ns && ns[3] in ns;
  }

  ghost predicate IsInstantiated(ns: seq<Node>, rows: seq<Account>) {
    UniqueNodes(ns) && Installs([], ns, []) && exists ids :: IsChart([], ns, [], rows, ids)
  }

  lemma TwoBranchesPlanted(one: string, other: string)
    requires |one| == 2 && |other| == 2 && one != other
    ensures Planted(TwoBranches(one, other), {one, other}).0 == TwoBranchRows(one, other)
  {
    assert PathUnder(one, "1") == one + ">1" && PathUnder(other, "2") == other + ">2";
    PlantedFour(TwoBranches(one, other), TwoBranchRows(one, other), {one, other});
  }

  lemma TwoBranchChart(one: string, other: string)
    requires |one| == 2 && |other| == 2 && one != other
    ensures IsInstantiated(TwoBranches(one, other), TwoBranchRows(one, other))
  {
    TwoBranchParents(one, other);
    TwoBranchesPlanted(one, other);
    PlantedIsChart(TwoBranches(one, other));
  }

  /** What drill-down and the pointers select for the first branch. */
  lemma FirstBranch(one: string, other: string)
    requires |one| == 2 && |other| == 2
    ensures var rows := TwoBranchRows(one, other);
            && TreeLeaves(rows, 0) == {2}
            && (2 in DrillLeaves(rows, 0) <==> Like(one + ">%", one + ">1"))
            && (3 in DrillLeaves(rows, 0) <==> Like(one + ">%", other + ">2"))
            && DrillLeaves(rows, 0) <= {2, 3}
  {
    var rows := TwoBranchRows(one, other);
    assert one + ">" + "%" == one + ">%";
    assert Below(rows, 2, 0) && !Below(rows, 3, 0);
  }

  lemma LikeStep(p: string, s: string)
    requires |p| > 0 && |s| > 0 && p[0] != '%' && p[0] != '\\'
    ensures Like(p, s) <==> (p[0] == '_' || p[0] == s[0]) && Like(p[1..], s[1..])
  {
  }

  /** A template with the branches `a_` and `ac`, such as `1_` and `10`: drill-down into the first one
      also shows the leaf of the second. */
  lemma WildcardCodesMixBranches(a: char, c: char)
    requires c != '_' && a != '%' && a != '\\'
    ensures var ns, rows := TwoBranches([a, '_'], [a, c]), TwoBranchRows([a, '_'], [a, c]);
            IsInstantiated(ns, rows) && DrillLeaves(rows, 0) == {2, 3} && TreeLeaves(rows, 0) == {2}
  {
    TwoBranchChart([a, '_'], [a, c]);
    FirstBranch([a, '_'], [a, c]);
    WildcardMatches(a, '_', ">1");
    WildcardMatches(a, c, ">2");
  }

  lemma WildcardMatches(a: char, c: char, tail: string)
    requires tail != "" && tail[0] == '>' && a != '%' && a != '\\'
    ensures Like([a, '_'] + ">%", [a, c] + tail)
  {
    var p, s := [a, '_'] + ">%", [a, c] + tail;
    assert p[1..][1..] == ">%" && ">%"[1..] == "%";
    assert s[1..][1..] == tail;
    LikeAnything(tail[1..]);
    LikeStep(">%", tail);
    LikeStep(p[1..], s[1..]);
    LikeStep(p, s);
  }

  /** A template with a branch `a\`: the separator is escaped away, and drill-down shows nothing. */
  lemma EscapedCodeHidesBranch(a: char, c: char)
    requires c != '\\' && c != '>' && a != '%' && a != '\\'
    ensures var ns, rows := TwoBranches([a, '\\'], [a, c]), TwoBranchRows([a, '\\'], [a, c]);
            IsInstantiated(ns, rows) && DrillLeaves(rows, 0) == {} && TreeLeaves(rows, 0) == {2}
  {
    TwoBranchChart([a, '\\'], [a, c]);
    FirstBranch([a, '\\'], [a, c]);
    EscapeMisses(a, '\\', ">1");
    EscapeMisses(a, c, ">2");
  }

  lemma EscapeMisses(a: char, c: char, tail: string)
    requires c != '>' && a != '%' && a != '\\'
    ensures !Like([a, '\\'] + ">%", [a, c] + tail)
  {
    var p, s := [a, '\\'] + ">%", [a, c] + tail;
    assert p[1..][0] == '\\' && p[1..][1] == '>' && s[1..][0] == c;
    LikeStep(p, s);
  }
}
