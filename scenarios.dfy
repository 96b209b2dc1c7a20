/** The three plans of phint_test.go and the hint blocks the derivation
    produces for them, worked out from the definitions of module HintSpec,
    a plan of two branches whose Leading shares run together, a bitmap heap
    scan whose BitmapOr holds a BitmapAnd, and a self-join. */
module Scenarios {
  import opened Text
  import opened PlanTree
  import opened HintSpec

  // ---------------------------------------------------------------------------
  // Building blocks

  /** A scan node without children; the alias is the relation name. */
  function ScanNode(nodeType: string, rel: string, index: string): Node {
    Node(nodeType, "", rel, index, "", rel, "", "", [])
  }

  function CteNode(name: string): Node {
    Node("CTE Scan", "", "", "", name, name, "", "", [])
  }

  function JoinOf(nodeType: string, childs: seq<Node>): Node {
    Node(nodeType, "Inner", "", "", "", "", "", "", childs)
  }

  function Over(nodeType: string, childs: seq<Node>): Node {
    Node(nodeType, "", "", "", "", "", "", "", childs)
  }

  /** A leaf-like subtree: it contributes `name` to Leading and to the open
      join entries, the scan fragments `s`, and no join entry. */
  predicate LeafOf(n: Node, name: string, s: seq<string>) {
    && Walkable(n) && LeadingExpr(n) == name && Leaves(n) == [name]
    && Scans(n) == s && JoinFrags(n) == []
  }

  /** What a subtree contributes, as a whole. */
  predicate Contributes(n: Node, lead: string, names: seq<string>, s: seq<string>, js: seq<string>) {
    && Walkable(n) && LeadingExpr(n) == lead && Leaves(n) == names
    && Scans(n) == s && JoinFrags(n) == js
  }

  lemma PlainLeaf(n: Node)
    requires CategoryOf(n.nodeType) == PlainScan && n.nodeType != "Index Scan"
    ensures Walkable(n)
    ensures LeadingExpr(n) == n.relationName && Leaves(n) == [n.relationName]
    ensures Scans(n) == [HintKeyword(n.nodeType) + "(" + n.relationName + ")"]
    ensures JoinFrags(n) == []
  {
  }

  /** An index-only scan names its relation but not its index. */
  lemma IndexOnlyLeaf(n: Node)
    requires n.nodeType == "Index Only Scan" && n.childs == []
    ensures LeafOf(n, n.relationName, ["IndexOnlyScan" + "(" + n.relationName + ")"])
  {
    PlainLeaf(n);
  }

  lemma CteLeaf(name: string)
    ensures LeafOf(CteNode(name), name, [])
  {
  }

  /** Walking a one-branch plan is walking its root. */
  lemma OneBranch(plan: Plan)
    requires |plan.branches| == 1 && Walkable(plan.branches[0].root)
    ensures AllBranchesWalkable(plan.branches)
    ensures PlanLeadingHint(plan) == "Leading(" + LeadingExpr(plan.branches[0].root) + ")"
    ensures PlanJoins(plan.branches) == JoinFrags(plan.branches[0].root)
    ensures PlanScans(plan.branches) == Scans(plan.branches[0].root)
  {
    PlanLeadingOfOne(plan.branches);
    assert plan.branches[..0] == [];
  }

  // ---------------------------------------------------------------------------
  // Joins of two and three children

  lemma LeavesOfTwo(cs: seq<Node>)
    requires |cs| == 2 && AllWalkable(cs)
    ensures LeavesOfAll(cs) == Leaves(cs[0]) + Leaves(cs[1])
  {
    assert cs[..1] == [cs[0]] && [cs[0]][..0] == [];
    assert LeavesOfAll([cs[0]]) == LeavesOfAll([]) + Leaves(cs[0]) == Leaves(cs[0]);
  }

  lemma ScansOfTwo(cs: seq<Node>)
    requires |cs| == 2 && AllWalkable(cs)
    ensures ScansOfAll(cs) == Scans(cs[0]) + Scans(cs[1])
  {
    assert cs[..1] == [cs[0]] && [cs[0]][..0] == [];
    assert ScansOfAll([cs[0]]) == ScansOfAll([]) + Scans(cs[0]) == Scans(cs[0]);
  }

  lemma FragsOfTwo(cs: seq<Node>)
    requires |cs| == 2 && AllWalkable(cs)
    ensures JoinFragsOfAll(cs) == JoinFrags(cs[0]) + JoinFrags(cs[1])
  {
    assert cs[..1] == [cs[0]] && [cs[0]][..0] == [];
    assert JoinFragsOfAll([cs[0]]) == JoinFragsOfAll([]) + JoinFrags(cs[0]) == JoinFrags(cs[0]);
  }

  lemma JoinLeadingTwo(n: Node)
    requires CategoryOf(n.nodeType) == JoinNode && |n.childs| == 2
    requires Walkable(n.childs[0]) && Walkable(n.childs[1])
    ensures Walkable(n)
    ensures LeadingExpr(n) == "(" + LeadingExpr(n.childs[0]) + " " + LeadingExpr(n.childs[1]) + ")"
  {
    var cs := n.childs;
    assert AllWalkable(cs);
    JoinUnfold(n);
    assert cs[..0] == [] && cs[..2] == cs;
    ChildStep(cs, 0);
    ChildStep(cs, 1);
    var l0, l1 := LeadingExpr(cs[0]), LeadingExpr(cs[1]);
    assert LeadingOfAll(cs) == l0 + " " + l1;
    ConcatAssoc("(", l0 + " ", l1);
    ConcatAssoc("(", l0, " ");
  }

  lemma LeavesOfThree(cs: seq<Node>)
    requires |cs| == 3 && AllWalkable(cs)
    ensures LeavesOfAll(cs) == Leaves(cs[0]) + Leaves(cs[1]) + Leaves(cs[2])
  {
    assert cs[..2] == [cs[0], cs[1]];
    LeavesOfTwo(cs[..2]);
  }

  lemma ScansOfThree(cs: seq<Node>)
    requires |cs| == 3 && AllWalkable(cs)
    ensures ScansOfAll(cs) == Scans(cs[0]) + Scans(cs[1]) + Scans(cs[2])
  {
    assert cs[..2] == [cs[0], cs[1]];
    ScansOfTwo(cs[..2]);
  }

  lemma FragsOfThree(cs: seq<Node>)
    requires |cs| == 3 && AllWalkable(cs)
    ensures JoinFragsOfAll(cs) == JoinFrags(cs[0]) + JoinFrags(cs[1]) + JoinFrags(cs[2])
  {
    assert cs[..2] == [cs[0], cs[1]];
    FragsOfTwo(cs[..2]);
  }

  lemma JoinLeadingThree(n: Node)
    requires CategoryOf(n.nodeType) == JoinNode && |n.childs| == 3
    requires Walkable(n.childs[0]) && Walkable(n.childs[1]) && Walkable(n.childs[2])
    ensures Walkable(n)
    ensures LeadingExpr(n)
      == "(" + LeadingExpr(n.childs[0]) + " " + LeadingExpr(n.childs[1]) + " " + LeadingExpr(n.childs[2]) + ")"
  {
    var cs := n.childs;
    assert AllWalkable(cs);
    JoinUnfold(n);
    assert cs[..0] == [] && cs[..3] == cs;
    ChildStep(cs, 0);
    ChildStep(cs, 1);
    ChildStep(cs, 2);
    var l0, l1, l2 := LeadingExpr(cs[0]), LeadingExpr(cs[1]), LeadingExpr(cs[2]);
    assert LeadingOfAll(cs) == l0 + " " + l1 + " " + l2;
    ConcatAssoc("(", l0 + " " + l1 + " ", l2);
    ConcatAssoc("(", l0 + " " + l1, " ");
    ConcatAssoc("(", l0 + " ", l1);
    ConcatAssoc("(", l0, " ");
  }

  lemma PairLeading(t: string, x: Node, a: string, sa: seq<string>, y: Node, b: string, sb: seq<string>)
    requires CategoryOf(t) == JoinNode && LeafOf(x, a, sa) && LeafOf(y, b, sb)
    ensures Walkable(JoinOf(t, [x, y]))
    ensures LeadingExpr(JoinOf(t, [x, y])) == "(" + a + " " + b + ")"
  {
    JoinLeadingTwo(JoinOf(t, [x, y]));
  }

  lemma PairLists(t: string, x: Node, a: string, sa: seq<string>, y: Node, b: string, sb: seq<string>)
    requires CategoryOf(t) == JoinNode && LeafOf(x, a, sa) && LeafOf(y, b, sb)
    ensures Walkable(JoinOf(t, [x, y]))
    ensures Leaves(JoinOf(t, [x, y])) == [a, b]
    ensures Scans(JoinOf(t, [x, y])) == sa + sb
  {
    var n := JoinOf(t, [x, y]);
    assert AllWalkable(n.childs);
    LeavesOfTwo(n.childs);
    ScansOfTwo(n.childs);
  }

  lemma PairFrags(t: string, x: Node, a: string, sa: seq<string>, y: Node, b: string, sb: seq<string>)
    requires CategoryOf(t) == JoinNode && LeafOf(x, a, sa) && LeafOf(y, b, sb)
    requires GoodName(a) && GoodName(b)
    ensures Walkable(JoinOf(t, [x, y]))
    ensures JoinFrags(JoinOf(t, [x, y])) == [HintKeyword(t) + "(" + a + " " + b + ")"]
  {
    var n := JoinOf(t, [x, y]);
    PairLists(t, x, a, sa, y, b, sb);
    FragsOfTwo(n.childs);
    JoinUnfold(n);
    FreshPair(HintKeyword(t), a, b);
  }

  lemma TripleLeading(t: string, x: Node, a: string, sa: seq<string>,
                      y: Node, ly: string, ny: seq<string>, sy: seq<string>, fy: seq<string>,
                      z: Node, c: string, sc: seq<string>)
    requires CategoryOf(t) == JoinNode && LeafOf(x, a, sa) && Contributes(y, ly, ny, sy, fy) && LeafOf(z, c, sc)
    ensures Walkable(JoinOf(t, [x, y, z]))
    ensures LeadingExpr(JoinOf(t, [x, y, z])) == "(" + a + " " + ly + " " + c + ")"
  {
    JoinLeadingThree(JoinOf(t, [x, y, z]));
  }

  lemma TripleLists(t: string, x: Node, a: string, sa: seq<string>,
                    y: Node, ly: string, ny: seq<string>, sy: seq<string>, fy: seq<string>,
                    z: Node, c: string, sc: seq<string>)
    requires CategoryOf(t) == JoinNode && LeafOf(x, a, sa) && Contributes(y, ly, ny, sy, fy) && LeafOf(z, c, sc)
    ensures Walkable(JoinOf(t, [x, y, z]))
    ensures Leaves(JoinOf(t, [x, y, z])) == [a] + ny + [c]
    ensures Scans(JoinOf(t, [x, y, z])) == sa + sy + sc
    ensures JoinFragsOfAll(JoinOf(t, [x, y, z]).childs) == fy
  {
    var n := JoinOf(t, [x, y, z]);
    assert AllWalkable(n.childs);
    LeavesOfThree(n.childs);
    ScansOfThree(n.childs);
    FragsOfThree(n.childs);
  }

  lemma TripleFrags(t: string, x: Node, a: string, sa: seq<string>,
                    y: Node, ly: string, ny: seq<string>, sy: seq<string>, fy: seq<string>,
                    z: Node, c: string, sc: seq<string>)
    requires CategoryOf(t) == JoinNode && LeafOf(x, a, sa) && Contributes(y, ly, ny, sy, fy) && LeafOf(z, c, sc)
    ensures Walkable(JoinOf(t, [x, y, z]))
    ensures JoinFrags(JoinOf(t, [x, y, z])) == [AddRels(HintKeyword(t) + "(", [a] + ny + [c]) + ")"] + fy
  {
    TripleLists(t, x, a, sa, y, ly, ny, sy, fy, z, c, sc);
    JoinUnfold(JoinOf(t, [x, y, z]));
  }

  /** A fresh join entry that receives two good names. */
  lemma FreshPair(kw: string, a: string, b: string)
    requires GoodName(a) && GoodName(b)
    ensures AddRels(kw + "(", [a, b]) + ")" == kw + "(" + a + " " + b + ")"
  {
    AddRelsToFresh(kw, [a, b]);
    assert [a, b][..1] == [a];
    ConcatAssoc(kw + "(", a + " ", b);
    ConcatAssoc(kw + "(", a, " ");
  }

  /** A fresh join entry that receives four good names. */
  lemma FreshFour(kw: string, a: string, b: string, c: string, d: string)
    requires GoodName(a) && GoodName(b) && GoodName(c) && GoodName(d)
    ensures AddRels(kw + "(", [a, b, c, d]) + ")" == kw + "(" + (a + " " + b + " " + c + " " + d) + ")"
  {
    var xs := [a, b, c, d];
    AddRelsToFresh(kw, xs);
    SpacedStep(xs, 1);
    SpacedStep(xs, 2);
    SpacedStep(xs, 3);
    assert xs[..1] == [a] && xs[..4] == xs;
  }

  // ---------------------------------------------------------------------------
  // Small sequence shapes. These and the small lemmas below that only fold
  // string and sequence literals keep each literal in a proof of its own,
  // which keeps the solver's work on the larger lemmas small.

  lemma ConcatTwo<T>(a: T, b: T)
    ensures [a] + [b] == [a, b]
  {
  }

  lemma ConcatThree<T>(a: T, b: T, c: T)
    ensures [a] + [b] + [c] == [a, b, c]
  {
  }

  lemma Bracketed<T>(a: T, p: T, q: T, b: T)
    ensures [a] + [p, q] + [b] == [a, p, q, b]
  {
  }

  lemma BlockOfFour<T>(a: T, b: T, c: T, d: T)
    ensures [a] + [b] + [c, d] == [a, b, c, d]
  {
  }

  lemma BlockOfSix<T>(a: T, b: T, c: T, d: T, e: T, f: T)
    ensures [a] + [b, c] + [d, e, f] == [a, b, c, d, e, f]
  {
  }

  lemma DedupTwin(x: string)
    ensures Dedup([x, x]) == [x]
  {
    assert [x, x][..1] == [x];
    assert [x][..0] == [];
  }

  // ---------------------------------------------------------------------------
  // TestBitmapOR and TestHash: a hash join of a sequential scan of tbl2 and a
  // Hash node over a scan of tbl1. In TestBitmapOR the scan of tbl1 is a
  // bitmap heap scan whose BitmapOr reads the same index twice; in TestHash
  // it is a sequential scan.

  function SeqHashJoin(inner: Node): Node {
    JoinOf("Hash Join", [ScanNode("Seq Scan", "tbl2", ""), Over("Hash", [inner])])
  }

  function BitmapOrHeap(): Node {
    var member := Over("Bitmap Index Scan", []).(indexName := "tbl1_pkey");
    Over("Bitmap Heap Scan", [Over("BitmapOr", [member, member])]).(relationName := "tbl1")
  }

  /** The heap scan names the index read twice by its BitmapOr once. */
  lemma BitmapOrHeapParts()
    ensures LeafOf(BitmapOrHeap(), "tbl1", ["BitmapScan(tbl1 tbl1_pkey)"])
  {
    var heap := BitmapOrHeap();
    assert IndexNames(heap.childs[0].childs) == ["tbl1_pkey", "tbl1_pkey"];
    DedupTwin("tbl1_pkey");
    assert Spaced(["tbl1_pkey"]) == "tbl1_pkey";
    assert ChildIdxName(heap) == "tbl1_pkey";
    assert HintKeyword(heap.nodeType) == "BitmapScan";
    assert "BitmapScan" + "(" + "tbl1" + " " + "tbl1_pkey" + ")" == "BitmapScan(tbl1 tbl1_pkey)";
  }

  lemma SeqTbl1Parts()
    ensures LeafOf(ScanNode("Seq Scan", "tbl1", ""), "tbl1", ["SeqScan(tbl1)"])
  {
    PlainLeaf(ScanNode("Seq Scan", "tbl1", ""));
    assert HintKeyword("Seq Scan") == "SeqScan";
    assert "SeqScan" + "(" + "tbl1" + ")" == "SeqScan(tbl1)";
  }

  lemma SeqHashJoinLeading(inner: Node, s: string)
    requires LeafOf(inner, "tbl1", [s])
    ensures Walkable(SeqHashJoin(inner))
    ensures LeadingExpr(SeqHashJoin(inner)) == "(tbl2 tbl1)"
  {
    PlainLeaf(ScanNode("Seq Scan", "tbl2", ""));
    PassThroughContributesChild(Over("Hash", [inner]));
    JoinLeadingTwo(SeqHashJoin(inner));
  }

  lemma SeqHashJoinScans(inner: Node, s: string)
    requires LeafOf(inner, "tbl1", [s])
    ensures Walkable(SeqHashJoin(inner))
    ensures Scans(SeqHashJoin(inner)) == ["SeqScan(tbl2)", s]
  {
    var root := SeqHashJoin(inner);
    PlainLeaf(root.childs[0]);
    PassThroughContributesChild(root.childs[1]);
    assert AllWalkable(root.childs);
    JoinUnfold(root);
    ScansOfTwo(root.childs);
    assert HintKeyword("Seq Scan") == "SeqScan";
    assert "SeqScan" + "(" + "tbl2" + ")" == "SeqScan(tbl2)";
  }

  lemma SeqHashJoinLeaves(inner: Node, s: string)
    requires LeafOf(inner, "tbl1", [s])
    ensures Walkable(SeqHashJoin(inner))
    ensures Leaves(SeqHashJoin(inner)) == ["tbl2", "tbl1"]
    ensures JoinFragsOfAll(SeqHashJoin(inner).childs) == []
  {
    var root := SeqHashJoin(inner);
    PlainLeaf(root.childs[0]);
    PassThroughContributesChild(root.childs[1]);
    assert AllWalkable(root.childs);
    LeavesOfTwo(root.childs);
    FragsOfTwo(root.childs);
  }

  lemma SeqHashJoinFrags(inner: Node, s: string)
    requires LeafOf(inner, "tbl1", [s])
    ensures Walkable(SeqHashJoin(inner))
    ensures JoinFrags(SeqHashJoin(inner)) == ["HashJoin(tbl2 tbl1)"]
  {
    var root := SeqHashJoin(inner);
    SeqHashJoinLeaves(inner, s);
    JoinUnfold(root);
    assert HintKeyword("Hash Join") == "HashJoin";
    FreshPair("HashJoin", "tbl2", "tbl1");
    assert "HashJoin" + "(" + "tbl2" + " " + "tbl1" + ")" == "HashJoin(tbl2 tbl1)";
  }

  lemma SeqHashJoinHints(inner: Node, s: string)
    requires LeafOf(inner, "tbl1", [s])
    ensures AllBranchesWalkable([PlanBranch(SeqHashJoin(inner))])
    ensures HintText(Plan([PlanBranch(SeqHashJoin(inner))], ""))
      == Block(["Leading((tbl2 tbl1))", "HashJoin(tbl2 tbl1)", "SeqScan(tbl2)", s])
  {
    var plan := Plan([PlanBranch(SeqHashJoin(inner))], "");
    SeqHashJoinLeading(inner, s);
    SeqHashJoinScans(inner, s);
    SeqHashJoinFrags(inner, s);
    OneBranch(plan);
    assert "Leading(" + "(tbl2 tbl1)" + ")" == "Leading((tbl2 tbl1))";
    RenderHintsBlock("Leading((tbl2 tbl1))", ["HashJoin(tbl2 tbl1)"], ["SeqScan(tbl2)", s]);
    BlockOfFour("Leading((tbl2 tbl1))", "HashJoin(tbl2 tbl1)", "SeqScan(tbl2)", s);
  }

  /** TestBitmapOR: the index read twice under the BitmapOr is named once. */
  lemma BitmapOrHints()
    ensures AllBranchesWalkable([PlanBranch(SeqHashJoin(BitmapOrHeap()))])
    ensures HintText(Plan([PlanBranch(SeqHashJoin(BitmapOrHeap()))], ""))
      == Block(["Leading((tbl2 tbl1))", "HashJoin(tbl2 tbl1)", "SeqScan(tbl2)", "BitmapScan(tbl1 tbl1_pkey)"])
  {
    BitmapOrHeapParts();
    SeqHashJoinHints(BitmapOrHeap(), "BitmapScan(tbl1 tbl1_pkey)");
  }

  /** TestHash. */
  lemma HashHints()
    ensures AllBranchesWalkable([PlanBranch(SeqHashJoin(ScanNode("Seq Scan", "tbl1", "")))])
    ensures HintText(Plan([PlanBranch(SeqHashJoin(ScanNode("Seq Scan", "tbl1", "")))], ""))
      == Block(["Leading((tbl2 tbl1))", "HashJoin(tbl2 tbl1)", "SeqScan(tbl2)", "SeqScan(tbl1)"])
  {
    SeqTbl1Parts();
    SeqHashJoinHints(ScanNode("Seq Scan", "tbl1", ""), "SeqScan(tbl1)");
  }

  // ---------------------------------------------------------------------------
  // TestCte: a nested loop over an index-only scan of hoge (the CTE's own
  // subplan), an inner nested loop of the CTE scan aaa and tbl2, and tbl1.

  function CteInner(): Node {
    JoinOf("Nested Loop", [CteNode("aaa"), ScanNode("Index Only Scan", "tbl2", "tbl2_pkey")])
  }

  lemma CteInnerText()
    ensures HintKeyword("Nested Loop") == "NestLoop"
    ensures "(" + "aaa" + " " + "tbl2" + ")" == "(aaa tbl2)"
    ensures "IndexOnlyScan" + "(" + "tbl2" + ")" == "IndexOnlyScan(tbl2)"
    ensures "NestLoop" + "(" + "aaa" + " " + "tbl2" + ")" == "NestLoop(aaa tbl2)"
  {
  }

  lemma CteInnerParts()
    ensures Walkable(CteInner())
    ensures LeadingExpr(CteInner()) == "(aaa tbl2)"
    ensures Leaves(CteInner()) == ["aaa", "tbl2"]
    ensures Scans(CteInner()) == ["IndexOnlyScan(tbl2)"]
    ensures JoinFrags(CteInner()) == ["NestLoop(aaa tbl2)"]
  {
    var x, y := CteNode("aaa"), ScanNode("Index Only Scan", "tbl2", "tbl2_pkey");
    var sy := ["IndexOnlyScan" + "(" + "tbl2" + ")"];
    CteLeaf("aaa");
    IndexOnlyLeaf(y);
    PairLeading("Nested Loop", x, "aaa", [], y, "tbl2", sy);
    PairLists("Nested Loop", x, "aaa", [], y, "tbl2", sy);
    PairFrags("Nested Loop", x, "aaa", [], y, "tbl2", sy);
    CteInnerText();
  }

  function CteRoot(): Node {
    JoinOf("Nested Loop", [
      Node("Index Only Scan", "", "hoge", "hoge_idx", "", "hoge", "", "CTE aaa", []),
      CteInner(),
      ScanNode("Index Only Scan", "tbl1", "tbl1_pkey")])
  }

  lemma CteLeadingText()
    ensures "(" + "hoge" + " " + "(aaa tbl2)" + " " + "tbl1" + ")" == "(hoge (aaa tbl2) tbl1)"
  {
  }

  lemma CteLeadingHintText()
    ensures "Leading(" + "(hoge (aaa tbl2) tbl1)" + ")" == "Leading((hoge (aaa tbl2) tbl1))"
  {
  }

  lemma CteScanText()
    ensures "IndexOnlyScan" + "(" + "hoge" + ")" == "IndexOnlyScan(hoge)"
    ensures "IndexOnlyScan" + "(" + "tbl1" + ")" == "IndexOnlyScan(tbl1)"
  {
  }

  lemma CteJoinText()
    ensures "NestLoop" + "(" + ("hoge" + " " + "aaa" + " " + "tbl2" + " " + "tbl1") + ")" == "NestLoop(hoge aaa tbl2 tbl1)"
  {
  }

  /** The leaves and the middle subtree of the outer nested loop. */
  predicate CteRootChilds(x: Node, y: Node, z: Node) {
    && CteRoot().childs == [x, y, z]
    && LeafOf(x, "hoge", ["IndexOnlyScan" + "(" + "hoge" + ")"])
    && Contributes(y, "(aaa tbl2)", ["aaa", "tbl2"], ["IndexOnlyScan(tbl2)"], ["NestLoop(aaa tbl2)"])
    && LeafOf(z, "tbl1", ["IndexOnlyScan" + "(" + "tbl1" + ")"])
  }

  lemma CteChilds() returns (x: Node, y: Node, z: Node)
    ensures CteRootChilds(x, y, z)
  {
    x, y, z := CteRoot().childs[0], CteInner(), CteRoot().childs[2];
    IndexOnlyLeaf(x);
    IndexOnlyLeaf(z);
    CteInnerParts();
  }

  lemma CteRootLeading()
    ensures Walkable(CteRoot()) && LeadingExpr(CteRoot()) == "(hoge (aaa tbl2) tbl1)"
  {
    var x, y, z := CteChilds();
    var ny, sy, fy := ["aaa", "tbl2"], ["IndexOnlyScan(tbl2)"], ["NestLoop(aaa tbl2)"];
    TripleLeading("Nested Loop", x, "hoge", Scans(x), y, "(aaa tbl2)", ny, sy, fy, z, "tbl1", Scans(z));
    CteLeadingText();
  }

  lemma CteRootLists()
    ensures Walkable(CteRoot())
    ensures Leaves(CteRoot()) == ["hoge", "aaa", "tbl2", "tbl1"]
    ensures Scans(CteRoot()) == ["IndexOnlyScan(hoge)", "IndexOnlyScan(tbl2)", "IndexOnlyScan(tbl1)"]
  {
    var x, y, z := CteChilds();
    var ny, sy, fy := ["aaa", "tbl2"], ["IndexOnlyScan(tbl2)"], ["NestLoop(aaa tbl2)"];
    TripleLists("Nested Loop", x, "hoge", Scans(x), y, "(aaa tbl2)", ny, sy, fy, z, "tbl1", Scans(z));
    CteScanText();
    ConcatThree("IndexOnlyScan(hoge)", "IndexOnlyScan(tbl2)", "IndexOnlyScan(tbl1)");
    Bracketed("hoge", "aaa", "tbl2", "tbl1");
  }

  lemma CteOuterEntry()
    ensures AddRels(HintKeyword("Nested Loop") + "(", ["hoge", "aaa", "tbl2", "tbl1"]) + ")"
         == "NestLoop(hoge aaa tbl2 tbl1)"
  {
    CteInnerText();
    FreshFour("NestLoop", "hoge", "aaa", "tbl2", "tbl1");
    CteJoinText();
  }

  lemma CteRootFrags()
    ensures Walkable(CteRoot())
    ensures JoinFrags(CteRoot()) == ["NestLoop(hoge aaa tbl2 tbl1)", "NestLoop(aaa tbl2)"]
  {
    var x, y, z := CteChilds();
    var ny, sy, fy := ["aaa", "tbl2"], ["IndexOnlyScan(tbl2)"], ["NestLoop(aaa tbl2)"];
    TripleFrags("Nested Loop", x, "hoge", Scans(x), y, "(aaa tbl2)", ny, sy, fy, z, "tbl1", Scans(z));
    Bracketed("hoge", "aaa", "tbl2", "tbl1");
    CteOuterEntry();
    ConcatTwo("NestLoop(hoge aaa tbl2 tbl1)", "NestLoop(aaa tbl2)");
  }

  lemma CtePlanParts()
    ensures AllBranchesWalkable([PlanBranch(CteRoot())])
    ensures PlanLeadingHint(Plan([PlanBranch(CteRoot())], "")) == "Leading((hoge (aaa tbl2) tbl1))"
    ensures PlanJoins([PlanBranch(CteRoot())]) == ["NestLoop(hoge aaa tbl2 tbl1)", "NestLoop(aaa tbl2)"]
    ensures PlanScans([PlanBranch(CteRoot())]) == ["IndexOnlyScan(hoge)", "IndexOnlyScan(tbl2)", "IndexOnlyScan(tbl1)"]
  {
    CteRootLeading();
    CteRootLists();
    CteRootFrags();
    OneBranch(Plan([PlanBranch(CteRoot())], ""));
    CteLeadingHintText();
  }

  /** TestCte: the CTE scan contributes its CTE name to Leading and to both
      nested loops, and no scan fragment; an index-only scan's fragment names
      no index. */
  lemma CteHints()
    ensures AllBranchesWalkable([PlanBranch(CteRoot())])
    ensures HintText(Plan([PlanBranch(CteRoot())], ""))
      == Block(["Leading((hoge (aaa tbl2) tbl1))", "NestLoop(hoge aaa tbl2 tbl1)", "NestLoop(aaa tbl2)",
                "IndexOnlyScan(hoge)", "IndexOnlyScan(tbl2)", "IndexOnlyScan(tbl1)"])
  {
    CtePlanParts();
    var js := ["NestLoop(hoge aaa tbl2 tbl1)", "NestLoop(aaa tbl2)"];
    var ss := ["IndexOnlyScan(hoge)", "IndexOnlyScan(tbl2)", "IndexOnlyScan(tbl1)"];
    RenderHintsBlock("Leading((hoge (aaa tbl2) tbl1))", js, ss);
    BlockOfSix("Leading((hoge (aaa tbl2) tbl1))", "NestLoop(hoge aaa tbl2 tbl1)", "NestLoop(aaa tbl2)",
      "IndexOnlyScan(hoge)", "IndexOnlyScan(tbl2)", "IndexOnlyScan(tbl1)");
  }

  // ---------------------------------------------------------------------------
  // Two branches: the Leading shares of sequential scans of a and b run
  // together, so the hint names one relation "ab" and neither a nor b.

  /** A plan of two branches, each a sequential scan. */
  function TwoScans(a: string, b: string): Plan {
    Plan([PlanBranch(ScanNode("Seq Scan", a, "")), PlanBranch(ScanNode("Seq Scan", b, ""))], "")
  }

  lemma TwoScansLeading(a: string, b: string)
    ensures AllBranchesWalkable(TwoScans(a, b).branches)
    ensures PlanLeadingHint(TwoScans(a, b)) == "Leading(" + (a + b) + ")"
  {
    PlainLeaf(ScanNode("Seq Scan", a, ""));
    PlainLeaf(ScanNode("Seq Scan", b, ""));
    PlanLeadingOfTwo(PlanBranch(ScanNode("Seq Scan", a, "")), PlanBranch(ScanNode("Seq Scan", b, "")), "");
  }

  lemma MergedLeadingText()
    ensures "Leading(" + ("a" + "b") + ")" == "Leading(ab)"
    ensures "Leading" + "(" + "ab" + ")" == "Leading(ab)"
  {
  }

  lemma MergedLeadingWords()
    ensures Words("Leading(ab)") == ["Leading", "ab"]
  {
    MergedLeadingText();
    WordsBracketed("Leading", "ab");
    LeadingIsOneWord();
    assert IsPlain("ab");
    WordsOfPlain("ab");
  }

  /** Sequential scans of a and b in two branches give the Leading hint
      "Leading(ab)", which reads as the one name ab. */
  lemma TwoBranchesMergeNames()
    ensures AllBranchesWalkable(TwoScans("a", "b").branches)
    ensures PlanLeadingHint(TwoScans("a", "b")) == "Leading(ab)"
    ensures Words(PlanLeadingHint(TwoScans("a", "b"))) == ["Leading", "ab"]
  {
    TwoScansLeading("a", "b");
    MergedLeadingText();
    MergedLeadingWords();
  }

  // ---------------------------------------------------------------------------
  // A BitmapOr over a BitmapAnd and a Bitmap Index Scan: only the immediate
  // members' index names are read, and the BitmapAnd carries none, so i1 and
  // i2 are lost and the index part starts with a space.

  function NestedBitmapHeap(): Node {
    var i1 := Over("Bitmap Index Scan", []).(indexName := "i1");
    var i2 := Over("Bitmap Index Scan", []).(indexName := "i2");
    var i3 := Over("Bitmap Index Scan", []).(indexName := "i3");
    Over("Bitmap Heap Scan", [Over("BitmapOr", [Over("BitmapAnd", [i1, i2]), i3])]).(relationName := "t")
  }

  lemma DedupOfTwo(x: string, y: string)
    requires x != y
    ensures Dedup([x, y]) == [x, y]
  {
    assert [x, y][..1] == [x];
    assert [x][..0] == [];
  }

  lemma NestedBitmapIndexPart()
    ensures |NestedBitmapHeap().childs| >= 1
    ensures ChildIdxName(NestedBitmapHeap()) == " i3"
  {
    var heap := NestedBitmapHeap();
    assert IndexNames(heap.childs[0].childs) == ["", "i3"];
    DedupOfTwo("", "i3");
    assert ["", "i3"][..1] == [""];
    assert Spaced(["", "i3"]) == "" + " " + "i3";
  }

  /** The heap scan's fragment names neither i1 nor i2, and holds two spaces
      after the relation name. */
  lemma NestedBitmapLosesNames()
    ensures Walkable(NestedBitmapHeap())
    ensures Scans(NestedBitmapHeap()) == ["BitmapScan(t  i3)"]
  {
    NestedBitmapIndexPart();
    assert HintKeyword("Bitmap Heap Scan") == "BitmapScan";
    assert "BitmapScan" + "(" + "t" + " " + " i3" + ")" == "BitmapScan(t  i3)";
  }

  // ---------------------------------------------------------------------------
  // A self-join: both scans read relation t under the aliases t1 and t2. The
  // hints name relations and never aliases, so t is named twice.

  function AliasedScan(rel: string, alias: string): Node {
    ScanNode("Seq Scan", rel, "").(alias := alias)
  }

  function SelfJoin(rel: string): Node {
    JoinOf("Hash Join", [AliasedScan(rel, rel + "1"), AliasedScan(rel, rel + "2")])
  }

  lemma SelfJoinParts(rel: string)
    requires GoodName(rel)
    ensures Walkable(SelfJoin(rel))
    ensures LeadingExpr(SelfJoin(rel)) == "(" + rel + " " + rel + ")"
    ensures Leaves(SelfJoin(rel)) == [rel, rel]
    ensures JoinFrags(SelfJoin(rel)) == ["HashJoin" + "(" + rel + " " + rel + ")"]
  {
    var x, y := AliasedScan(rel, rel + "1"), AliasedScan(rel, rel + "2");
    PlainLeaf(x);
    PlainLeaf(y);
    PairLeading("Hash Join", x, rel, Scans(x), y, rel, Scans(y));
    PairLists("Hash Join", x, rel, Scans(x), y, rel, Scans(y));
    PairFrags("Hash Join", x, rel, Scans(x), y, rel, Scans(y));
  }

  lemma SelfJoinText()
    ensures GoodName("t")
    ensures "(" + "t" + " " + "t" + ")" == "(t t)"
    ensures "HashJoin" + "(" + "t" + " " + "t" + ")" == "HashJoin(t t)"
    ensures "Leading(" + "(t t)" + ")" == "Leading((t t))"
  {
  }

  /** A self-join of t under two aliases gives the join entry "HashJoin(t t)"
      and the Leading hint "Leading((t t))": the same name twice. */
  lemma SelfJoinRepeatsName()
    ensures AllBranchesWalkable([PlanBranch(SelfJoin("t"))])
    ensures JoinFrags(SelfJoin("t")) == ["HashJoin(t t)"]
    ensures PlanLeadingHint(Plan([PlanBranch(SelfJoin("t"))], "")) == "Leading((t t))"
  {
    SelfJoinText();
    SelfJoinParts("t");
    OneBranch(Plan([PlanBranch(SelfJoin("t"))], ""));
  }
}
