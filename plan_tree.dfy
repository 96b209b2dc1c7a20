/** The plan model of package pgplan: a plan as the JSON decoder leaves it
    (branches, each wrapping one root node), the node-type keyword table and
    the walker's classification of node types. */
module PlanTree {
  import opened Text

  /** One operator of an EXPLAIN plan. Only the string attributes are kept;
      the cost, row and timing figures and the boolean flags play no part in
      the derivation. `childs` keeps the planner's order. */
  datatype Node = Node(
    nodeType: string,
    joinType: string,
    relationName: string,
    indexName: string,
    cteName: string,
    alias: string,
    parentRelationship: string,
    subplanName: string,
    childs: seq<Node>)

  datatype PlanBranch = PlanBranch(root: Node)

  /** One EXPLAIN result: its branches in order and the text it was read from. */
  datatype Plan = Plan(branches: seq<PlanBranch>, planStr: string)

  /** The node types the keyword table knows. */
  const KeywordTypes: set<string> := {
    "Nested Loop", "Hash Join", "Merge Join",
    "Seq Scan", "Index Scan", "Index Only Scan",
    "Bitmap Heap Scan", "CTE Scan", "Sample Scan"
  }

  /** The pg_hint_plan keyword of a node type, or "" for a type the table
      does not know (where the source logs an error). */
  function HintKeyword(nodeType: string): string
  {
    match nodeType
    case "Nested Loop" => "NestLoop"
    case "Hash Join" => "HashJoin"
    case "Merge Join" => "MergeJoin"
    case "Seq Scan" => "SeqScan"
    case "Index Scan" => "IndexScan"
    case "Index Only Scan" => "IndexOnlyScan"
    case "Bitmap Heap Scan" => "BitmapScan"
    case "CTE Scan" => "CTEScan"
    case "Sample Scan" => "SampleScan"
    case _ => ""
  }

  /** Exactly the nine tabled node types have a keyword, and a keyword is
      always one plain word, so it never disturbs the parentheses of a
      fragment. */
  lemma KeywordTable(nodeType: string)
    ensures HintKeyword(nodeType) != "" <==> nodeType in KeywordTypes
    ensures HintKeyword(nodeType) != "" ==> IsPlain(HintKeyword(nodeType))
  {
  }

  /** How the walker treats a node. */
  datatype Category =
    | JoinNode        // Nested Loop, Hash Join, Merge Join
    | CteScan         // CTE Scan
    | BitmapHeapScan  // Bitmap Heap Scan
    | PlainScan       // Seq Scan, Index Scan, Index Only Scan
    | PassThrough     // contributes nothing, delegates to its first child
    | Unrecognized    // contributes nothing, its subtree is not visited

  /** The walker's case analysis on node types. */
  function CategoryOf(nodeType: string): Category
  {
    match nodeType
    case "Nested Loop" => JoinNode
    case "Hash Join" => JoinNode
    case "Merge Join" => JoinNode
    case "CTE Scan" => CteScan
    case "Bitmap Heap Scan" => BitmapHeapScan
    case "Seq Scan" => PlainScan
    case "Index Scan" => PlainScan
    case "Index Only Scan" => PlainScan
    case "Materialize" => PassThrough
    case "Sort" => PassThrough
    case "Hash" => PassThrough
    case "Bitmap Index Scan" => PassThrough
    case "BitmapOr" => PassThrough
    case "BitmapAnd" => PassThrough
    case "Result" => PassThrough
    case "Aggregate" => PassThrough
    case "Hash Aggregate" => PassThrough
    case _ => Unrecognized
  }

  /** Every category that emits a hint fragment has a keyword, and "Sample
      Scan" is the one node type with a keyword that the walker does not
      recognize. */
  lemma KeywordOfEmittingCategories(nodeType: string)
    ensures CategoryOf(nodeType) in {JoinNode, CteScan, BitmapHeapScan, PlainScan} ==>
      HintKeyword(nodeType) != ""
    ensures HintKeyword(nodeType) != "" && CategoryOf(nodeType) == Unrecognized ==>
      nodeType == "Sample Scan"
  {
  }

  /** The walk never indexes a missing child: every pass-through node and
      every Bitmap Heap Scan it reaches has a first child. Subtrees below an
      unrecognized node are not visited and need nothing. */
  predicate Walkable(n: Node) {
    match CategoryOf(n.nodeType)
    case JoinNode => AllWalkable(n.childs)
    case BitmapHeapScan => |n.childs| >= 1
    case PassThrough => |n.childs| >= 1 && Walkable(n.childs[0])
    case _ => true
  }

  predicate AllWalkable(cs: seq<Node>) {
    forall i :: 0 <= i < |cs| ==> Walkable(cs[i])
  }

  predicate AllBranchesWalkable(bs: seq<PlanBranch>) {
    forall i :: 0 <= i < |bs| ==> Walkable(bs[i].root)
  }
}
