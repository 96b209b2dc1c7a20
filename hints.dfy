/** The imperative part of pgplan/pgplan.go: the Hint accumulator that the
    tree walk updates in place, the index-name collector, the top-level driver
    and the renderer. Each method is proved to do exactly what the functions
    of module HintSpec describe. */
module Hints {
  import opened Text
  import opened PlanTree
  import opened HintSpec

  datatype Option<T> = None | Some(value: T)

  /** The index part of a Bitmap Heap Scan's hint: the index names of the
      members of a BitmapOr or BitmapAnd first child, listed, deduplicated with
      a seen-set and joined with single spaces; for any other first child, its
      own index name. */
  method GetChildIdxName(n: Node) returns (indName: string)
    requires |n.childs| >= 1
    ensures indName == ChildIdxName(n)
  {
    var c := n.childs[0];
    if c.nodeType == "BitmapOr" || c.nodeType == "BitmapAnd" {
      var indexNameList: seq<string> := [];
      for i := 0 to |c.childs|
        invariant |indexNameList| == i
        invariant forall k :: 0 <= k < i ==> indexNameList[k] == c.childs[k].indexName
      {
        indexNameList := indexNameList + [c.childs[i].indexName];
      }
      assert indexNameList == IndexNames(c.childs);

      var seen: set<string> := {};
      var indexNameUniqueList: seq<string> := [];
      for i := 0 to |indexNameList|
        invariant indexNameUniqueList == Dedup(indexNameList[..i])
        invariant forall x :: x in seen <==> x in indexNameList[..i]
      {
        DedupStep(indexNameList, i);
        if indexNameList[i] !in seen {
          seen := seen + {indexNameList[i]};
          indexNameUniqueList := indexNameUniqueList + [indexNameList[i]];
        }
      }
      assert indexNameList[..|indexNameList|] == indexNameList;

      var sp := "";
      indName := "";
      for i := 0 to |indexNameUniqueList|
        invariant sp == if i == 0 then "" else " "
        invariant indName == Spaced(indexNameUniqueList[..i])
      {
        SpacedStep(indexNameUniqueList, i);
        indName := indName + sp + indexNameUniqueList[i];
        sp := " ";
      }
      assert indexNameUniqueList[..|indexNameUniqueList|] == indexNameUniqueList;
    } else {
      indName := c.indexName;
    }
  }

  /** The accumulator of one derivation run. */
  class Hint {
    var leading: string
    var scan: seq<string>
    var join: seq<string>
    var origPlan: Option<Plan>

    /** Every join entry is non-empty, so its last character can be read. */
    ghost predicate Valid()
      reads this
    {
      AllNonEmpty(join)
    }

    /** A fresh accumulator with every field at its zero value. */
    constructor ()
      ensures Valid()
      ensures leading == "" && scan == [] && join == [] && origPlan == None
    {
      leading := "";
      scan := [];
      join := [];
      origPlan := None;
    }

    /** Adds `relname` to every open join entry, in place. Closed entries,
        the number of entries, Leading and the scan list do not change. */
    method AddJoinRel(relname: string)
      requires Valid()
      modifies this`join
      ensures Valid()
      ensures leading == old(leading) && scan == old(scan)
      ensures |join| == |old(join)|
      ensures forall i :: 0 <= i < |join| && Closed(old(join)[i]) ==> join[i] == old(join)[i]
      ensures forall i :: 0 <= i < |join| && !Closed(old(join)[i]) ==>
        join[i] == old(join)[i] + Separator(old(join)[i]) + relname
      ensures join == AddRelsAll(old(join), [relname])
    {
      var i := 0;
      while i < |join|
        invariant 0 <= i <= |join| == |old(join)|
        invariant forall k :: 0 <= k < i ==> join[k] == AddRel(old(join)[k], relname)
        invariant forall k :: i <= k < |join| ==> join[k] == old(join)[k]
      {
        var j := join[i];
        var len := |j|;
        var sp := "";
        if j[len - 1] != '(' {
          sp := " ";
        }
        if j[len - 1] != ')' {
          join := join[i := j + sp + relname];
        }
        i := i + 1;
      }
      forall i | 0 <= i < |join|
        ensures join[i] == AddRels(old(join)[i], [relname])
      {
        AddRelsSingle(old(join)[i], relname);
      }
    }

    /** Walks the subtree `n`: appends its Leading contribution, its scan
        fragments and one entry per join node below it, and adds every name it
        reaches to the join entries that were still open. */
    method GetHintFromNode(n: Node)
      requires Valid() && Walkable(n)
      modifies this`leading, this`scan, this`join
      decreases n, 3
      ensures Valid()
      ensures leading == old(leading) + LeadingExpr(n)
      ensures scan == old(scan) + Scans(n)
      ensures join == AddRelsAll(old(join), Leaves(n)) + JoinFrags(n)
      ensures CategoryOf(n.nodeType) == Unrecognized ==>
        leading == old(leading) && scan == old(scan) && join == old(join)
    {
      match CategoryOf(n.nodeType)
      case JoinNode =>
        GetHintFromJoin(n);
      case CteScan =>
        leading := leading + n.cteName;
        AddJoinRel(n.cteName);
      case BitmapHeapScan =>
        leading := leading + n.relationName;
        var idx := GetChildIdxName(n);
        scan := scan + [HintKeyword(n.nodeType) + "(" + n.relationName + " " + idx + ")"];
        AddJoinRel(n.relationName);
      case PlainScan =>
        leading := leading + n.relationName;
        if n.nodeType == "Index Scan" {
          scan := scan + [HintKeyword(n.nodeType) + "(" + n.relationName + " " + n.indexName + ")"];
        } else {
          scan := scan + [HintKeyword(n.nodeType) + "(" + n.relationName + ")"];
        }
        AddJoinRel(n.relationName);
      case PassThrough =>
        GetHintFromNode(n.childs[0]);
      case Unrecognized =>
        assert AddRelsAll(join, []) == join;
    }

    /** Walks a join node: opens its parenthesis in Leading and its own join
        entry, walks the children in order with single spaces between their
        Leading contributions, then closes both. */
    method GetHintFromJoin(n: Node)
      requires Valid() && Walkable(n) && CategoryOf(n.nodeType) == JoinNode
      modifies this`leading, this`scan, this`join
      decreases n, 2
      ensures Valid()
      ensures leading == old(leading) + LeadingExpr(n)
      ensures scan == old(scan) + Scans(n)
      ensures join == AddRelsAll(old(join), Leaves(n)) + JoinFrags(n)
    {
      leading := leading + "(";
      join := join + [HintKeyword(n.nodeType) + "("];
      var myJoinPos := |join| - 1;
      GetHintFromChilds(n, old(join), HintKeyword(n.nodeType) + "(");
      JoinDone(old(leading), old(scan), old(join), n, leading, scan, join);
      leading := leading + ")";
      join := join[myJoinPos := join[myJoinPos] + ")"];
    }

    /** Walks the children of a join node in order, with single spaces
        between their Leading contributions; `own` is the join's open entry,
        the last one. */
    method GetHintFromChilds(n: Node, ghost before: seq<string>, ghost own: string)
      requires Walkable(n) && CategoryOf(n.nodeType) == JoinNode
      requires Valid() && AllNonEmpty(before) && |own| > 0 && join == before + [own]
      modifies this`leading, this`scan, this`join
      decreases n, 1
      ensures Valid()
      ensures leading == old(leading) + LeadingOfAll(n.childs)
      ensures scan == old(scan) + ScansOfAll(n.childs)
      ensures join == JoinsWhileWalking(before, own, n.childs, |n.childs|)
    {
      ghost var leading0, scan0 := leading, scan;
      WalkedNone(leading, scan, before, own, n.childs);
      var sp := "";
      for k := 0 to |n.childs|
        invariant Valid()
        invariant sp == if k == 0 then "" else " "
        invariant WalkedFirst(leading, scan, join, leading0, scan0, before, own, n.childs, k)
      {
        GetHintFromChild(n, k, sp, leading0, scan0, before, own);
        sp := " ";
      }
      WalkedAll(leading, scan, join, leading0, scan0, before, own, n.childs);
    }

    /** One turn of the loop over a join node's children: the separator,
        then the walk of child `k`. */
    method GetHintFromChild(n: Node, k: nat, sp: string, ghost leading0: string, ghost scan0: seq<string>,
                            ghost before: seq<string>, ghost own: string)
      requires Valid() && k < |n.childs| && sp == if k == 0 then "" else " "
      requires WalkedFirst(leading, scan, join, leading0, scan0, before, own, n.childs, k)
      modifies this`leading, this`scan, this`join
      decreases n, 0
      ensures Valid()
      ensures WalkedFirst(leading, scan, join, leading0, scan0, before, own, n.childs, k + 1)
    {
      leading := leading + sp;
      GetHintFromNode(n.childs[k]);
      WalkedChild(leading0, scan0, before, own, n.childs, k, old(leading), old(scan), old(join), leading, scan, join);
    }

    /** Walks the root of one plan branch. */
    method GetHintFromBranch(b: PlanBranch)
      requires Valid() && Walkable(b.root)
      modifies this`leading, this`scan, this`join
      ensures Valid()
      ensures leading == old(leading) + LeadingExpr(b.root)
      ensures scan == old(scan) + Scans(b.root)
      ensures join == AddRelsAll(old(join), Leaves(b.root)) + JoinFrags(b.root)
    {
      GetHintFromNode(b.root);
    }

    /** The hint block: the opening marker, the Leading hint, every join
        entry, every scan fragment and the closing marker, one per line, in
        the order they were derived. */
    method GetAllHints() returns (allHints: string)
      ensures allHints == RenderHints(leading, join, scan)
    {
      allHints := "/*+\n";
      allHints := allHints + leading + "\n";
      for i := 0 to |join|
        invariant allHints == "/*+\n" + leading + "\n" + Lines(join[..i])
      {
        assert join[..i + 1][..i] == join[..i];
        allHints := allHints + join[i] + "\n";
      }
      assert join[..|join|] == join;
      for i := 0 to |scan|
        invariant allHints == "/*+\n" + leading + "\n" + Lines(join) + Lines(scan[..i])
      {
        assert scan[..i + 1][..i] == scan[..i];
        allHints := allHints + scan[i] + "\n";
      }
      assert scan[..|scan|] == scan;
      allHints := allHints + "*/";
    }
  }

  /** Derives the hints of a whole plan: Leading opens with "Leading(", takes
      the branches' contributions one after the other and is closed; the join
      entries and scan fragments are those of the branches in order. */
  method GetHintFromPlan(plan: Plan) returns (hint: Hint)
    requires AllBranchesWalkable(plan.branches)
    ensures fresh(hint) && hint.Valid()
    ensures hint.leading == PlanLeadingHint(plan)
    ensures hint.join == PlanJoins(plan.branches)
    ensures hint.scan == PlanScans(plan.branches)
    ensures hint.origPlan == Some(plan)
  {
    hint := new Hint();
    hint.leading := "Leading(";
    hint.origPlan := Some(plan);
    var bs := plan.branches;
    for i := 0 to |bs|
      invariant hint.Valid()
      invariant hint.leading == "Leading(" + PlanLeading(bs[..i])
      invariant hint.join == PlanJoins(bs[..i])
      invariant hint.scan == PlanScans(bs[..i])
      invariant hint.origPlan == Some(plan)
    {
      PlanStep(bs, i);
      ConcatAssoc("Leading(", PlanLeading(bs[..i]), LeadingExpr(bs[i].root));
      hint.GetHintFromBranch(bs[i]);
    }
    assert bs[..|bs|] == bs;
    hint.leading := hint.leading + ")";
  }

  /** The whole derivation as a caller runs it: walk the plan, then render
      the accumulated hints. */
  method DeriveHintText(plan: Plan) returns (text: string)
    requires AllBranchesWalkable(plan.branches)
    ensures text == HintText(plan)
  {
    var hint := GetHintFromPlan(plan);
    text := hint.GetAllHints();
  }
}
