/** What the tree walk of pgplan/pgplan.go computes, stated as functions of
    the plan tree, and the properties of the hints it derives. The imperative
    walker in module Hints is proved to change its accumulator exactly as
    these functions say. */
module HintSpec {
  import opened Text
  import opened PlanTree

  // ---------------------------------------------------------------------------
  // Join entries and relation-name propagation

  /** A join entry is closed once its last character is ')'. */
  predicate Closed(entry: string) {
    |entry| > 0 && entry[|entry| - 1] == ')'
  }

  predicate AllNonEmpty(js: seq<string>) {
    "" !in js
  }

  predicate AllClosed(js: seq<string>) {
    forall i :: 0 <= i < |js| ==> Closed(js[i])
  }

  /** A name that propagation can add without merging it into its
      neighbours: non-empty and not ending in a parenthesis. */
  predicate GoodName(s: string) {
    |s| > 0 && s[|s| - 1] != '(' && s[|s| - 1] != ')'
  }

  predicate AllGood(xs: seq<string>) {
    forall i :: 0 <= i < |xs| ==> GoodName(xs[i])
  }

  /** What goes between an entry and the next name: nothing right after the
      opening parenthesis, one space otherwise. */
  function Separator(entry: string): string
    requires |entry| > 0
  {
    if entry[|entry| - 1] != '(' then " " else ""
  }

  /** One join entry after `relname` is added to it: an entry whose last
      character is not ')' gets the separator and the name; a closed entry is
      left as it is. */
  function AddRel(entry: string, relname: string): string
    requires |entry| > 0
  {
    if entry[|entry| - 1] != ')' then entry + Separator(entry) + relname else entry
  }

  /** One join entry after the names were added one after another. */
  function AddRels(entry: string, names: seq<string>): (r: string)
    requires |entry| > 0
    ensures |r| >= |entry|
  {
    if names == [] then entry
    else AddRel(AddRels(entry, names[..|names| - 1]), names[|names| - 1])
  }

  /** Adding names only ever appends: the old entry, a join's "Kw(" say,
      stays a prefix of the new one. */
  lemma {:induction false} AddRelsKeepsEntry(entry: string, names: seq<string>)
    requires |entry| > 0
    ensures AddRels(entry, names)[..|entry|] == entry
  {
    if names != [] {
      var x := AddRels(entry, names[..|names| - 1]);
      AddRelsKeepsEntry(entry, names[..|names| - 1]);
      assert AddRel(x, names[|names| - 1])[..|x|] == x;
      assert x[..|entry|] == entry;
    }
  }

  /** Every join entry after the names were added one after another. */
  function AddRelsAll(js: seq<string>, names: seq<string>): (r: seq<string>)
    requires AllNonEmpty(js)
    ensures |r| == |js| && AllNonEmpty(r)
    ensures forall i :: 0 <= i < |js| ==> r[i] == AddRels(js[i], names)
  {
    seq(|js|, i requires 0 <= i < |js| => AddRels(js[i], names))
  }

  lemma AddRelsSingle(entry: string, relname: string)
    requires |entry| > 0
    ensures AddRels(entry, [relname]) == AddRel(entry, relname)
  {
    assert [relname][..0] == [];
  }

  lemma {:induction false} AddRelsAppend(entry: string, a: seq<string>, b: seq<string>)
    requires |entry| > 0
    ensures AddRels(entry, a + b) == AddRels(AddRels(entry, a), b)
  {
    if b == [] {
      assert a + b == a;
    } else {
      var b' := b[..|b| - 1];
      assert (a + b)[..|a + b| - 1] == a + b';
      AddRelsAppend(entry, a, b');
    }
  }

  /** Propagation never reopens a closed entry. */
  lemma {:induction false} AddRelsClosed(entry: string, names: seq<string>)
    requires Closed(entry)
    ensures AddRels(entry, names) == entry
  {
    if names != [] {
      AddRelsClosed(entry, names[..|names| - 1]);
    }
  }

  /** A name ending in ')' closes the open entry it is added to, so every
      name added after it is dropped from that entry. */
  lemma NameEndingInParenClosesEntry(entry: string, name: string, rest: seq<string>)
    requires |entry| > 0 && !Closed(entry) && |name| > 0 && name[|name| - 1] == ')'
    ensures AddRels(entry, [name] + rest) == entry + Separator(entry) + name
  {
    AddRelsAppend(entry, [name], rest);
    AddRelsSingle(entry, name);
    AddRelsClosed(AddRel(entry, name), rest);
  }

  /** A fresh entry `kw(` that receives good names lists them separated by
      single spaces. */
  lemma {:induction false} AddRelsToFresh(kw: string, names: seq<string>)
    requires AllGood(names)
    ensures AddRels(kw + "(", names) == kw + "(" + Spaced(names)
  {
    if names != [] {
      var init, x := names[..|names| - 1], names[|names| - 1];
      AddRelsToFresh(kw, init);
      if init == [] {
        assert kw + "(" + Spaced(init) == kw + "(";
      } else {
        SpacedLastChar(init);
        ConcatAssoc(kw + "(" + Spaced(init), " ", x);
        ConcatAssoc(kw + "(", Spaced(init), " " + x);
        ConcatAssoc(Spaced(init), " ", x);
      }
    }
  }

  lemma AddRelsAllAppend(js: seq<string>, a: seq<string>, b: seq<string>)
    requires AllNonEmpty(js)
    ensures AddRelsAll(AddRelsAll(js, a), b) == AddRelsAll(js, a + b)
  {
    forall i | 0 <= i < |js| {
      AddRelsAppend(js[i], a, b);
    }
  }

  lemma AddRelsAllConcat(xs: seq<string>, ys: seq<string>, names: seq<string>)
    requires AllNonEmpty(xs) && AllNonEmpty(ys)
    ensures AllNonEmpty(xs + ys)
    ensures AddRelsAll(xs + ys, names) == AddRelsAll(xs, names) + AddRelsAll(ys, names)
  {
  }

  lemma AddRelsAllClosed(js: seq<string>, names: seq<string>)
    requires AllClosed(js)
    ensures AllNonEmpty(js)
    ensures AddRelsAll(js, names) == js
  {
    forall i | 0 <= i < |js| {
      AddRelsClosed(js[i], names);
    }
  }

  // ---------------------------------------------------------------------------
  // Index names of a Bitmap Heap Scan

  /** The index names of the given nodes, in order. */
  function IndexNames(cs: seq<Node>): (r: seq<string>)
    ensures |r| == |cs|
    ensures forall i :: 0 <= i < |cs| ==> r[i] == cs[i].indexName
  {
    seq(|cs|, i requires 0 <= i < |cs| => cs[i].indexName)
  }

  predicate IsBitmapFanIn(c: Node) {
    c.nodeType == "BitmapOr" || c.nodeType == "BitmapAnd"
  }

  /** The index part of a Bitmap Heap Scan's hint: below a BitmapOr or
      BitmapAnd, the distinct index names of that node's own children in
      first-seen order; otherwise the first child's index name. */
  function ChildIdxName(n: Node): string
    requires |n.childs| >= 1
  {
    var c := n.childs[0];
    if IsBitmapFanIn(c) then Spaced(Dedup(IndexNames(c.childs))) else c.indexName
  }

  /** Below a BitmapOr or BitmapAnd whose members have plain index names, the
      index part reads back as those names, each once, in first-seen order. */
  lemma ChildIdxNameDistinctInOrder(n: Node)
    requires |n.childs| >= 1 && IsBitmapFanIn(n.childs[0])
    requires AllPlain(IndexNames(n.childs[0].childs))
    ensures var names := IndexNames(n.childs[0].childs);
      var ws := Words(ChildIdxName(n));
      && ws == Dedup(names)
      && (forall x :: x in ws <==> x in names)
      && (forall i, j :: 0 <= i < j < |ws| ==> ws[i] != ws[j])
      && (forall i, j :: 0 <= i < j < |ws| ==> FirstIndex(names, ws[i]) < FirstIndex(names, ws[j]))
  {
    var names := IndexNames(n.childs[0].childs);
    var d := Dedup(names);
    forall i | 0 <= i < |d| ensures IsPlain(d[i]) {
      assert d[i] in names;
    }
    SpacedWords(d);
    DedupDistinct(names);
    DedupFirstSeenOrder(names);
  }

  // ---------------------------------------------------------------------------
  // What the walk contributes for one subtree

  /** What the walk appends to Leading for `n`: a join is a parenthesised,
      space-separated list of its children's contributions; a scan is its
      relation; a CTE scan its CTE name; a pass-through node is its first
      child; an unrecognized node is nothing. */
  function LeadingExpr(n: Node): string
    requires Walkable(n)
  {
    match CategoryOf(n.nodeType)
    case JoinNode => "(" + LeadingOfAll(n.childs) + ")"
    case CteScan => n.cteName
    case BitmapHeapScan => n.relationName
    case PlainScan => n.relationName
    case PassThrough => LeadingExpr(n.childs[0])
    case Unrecognized => ""
  }

  /** The contributions of `cs` separated by single spaces. */
  function LeadingOfAll(cs: seq<Node>): string
    requires AllWalkable(cs)
  {
    if |cs| == 0 then ""
    else if |cs| == 1 then LeadingExpr(cs[0])
    else LeadingOfAll(cs[..|cs| - 1]) + " " + LeadingExpr(cs[|cs| - 1])
  }

  /** The relation and CTE names the walk reaches below `n`, in visit order:
      each is added to every open join entry when its leaf is visited. */
  function Leaves(n: Node): seq<string>
    requires Walkable(n)
  {
    match CategoryOf(n.nodeType)
    case JoinNode => LeavesOfAll(n.childs)
    case CteScan => [n.cteName]
    case BitmapHeapScan => [n.relationName]
    case PlainScan => [n.relationName]
    case PassThrough => Leaves(n.childs[0])
    case Unrecognized => []
  }

  function LeavesOfAll(cs: seq<Node>): seq<string>
    requires AllWalkable(cs)
  {
    if cs == [] then [] else LeavesOfAll(cs[..|cs| - 1]) + Leaves(cs[|cs| - 1])
  }

  /** The scan fragments the walk appends for `n`, in visit order. */
  function Scans(n: Node): seq<string>
    requires Walkable(n)
  {
    match CategoryOf(n.nodeType)
    case JoinNode => ScansOfAll(n.childs)
    case CteScan => []
    case BitmapHeapScan =>
      [HintKeyword(n.nodeType) + "(" + n.relationName + " " + ChildIdxName(n) + ")"]
    case PlainScan =>
      if n.nodeType == "Index Scan" then
        [HintKeyword(n.nodeType) + "(" + n.relationName + " " + n.indexName + ")"]
      else
        [HintKeyword(n.nodeType) + "(" + n.relationName + ")"]
    case PassThrough => Scans(n.childs[0])
    case Unrecognized => []
  }

  function ScansOfAll(cs: seq<Node>): seq<string>
    requires AllWalkable(cs)
  {
    if cs == [] then [] else ScansOfAll(cs[..|cs| - 1]) + Scans(cs[|cs| - 1])
  }

  /** The join entries the walk appends for `n`, one per join node in
      pre-order; each has received every name reached below its node and is
      closed. */
  function JoinFrags(n: Node): (r: seq<string>)
    requires Walkable(n)
    ensures AllClosed(r)
  {
    match CategoryOf(n.nodeType)
    case JoinNode =>
      [AddRels(HintKeyword(n.nodeType) + "(", LeavesOfAll(n.childs)) + ")"]
        + JoinFragsOfAll(n.childs)
    case PassThrough => JoinFrags(n.childs[0])
    case _ => []
  }

  function JoinFragsOfAll(cs: seq<Node>): (r: seq<string>)
    requires AllWalkable(cs)
    ensures AllClosed(r)
  {
    if cs == [] then [] else JoinFragsOfAll(cs[..|cs| - 1]) + JoinFrags(cs[|cs| - 1])
  }

  /** A leaf, scan or CTE scan, adds its one name to Leading and to the
      names reached, one scan fragment (none for a CTE scan) and no join
      entry. */
  lemma LeafContributions(n: Node)
    requires CategoryOf(n.nodeType) in {CteScan, BitmapHeapScan, PlainScan} && Walkable(n)
    ensures LeadingExpr(n) == if CategoryOf(n.nodeType) == CteScan then n.cteName else n.relationName
    ensures Leaves(n) == [LeadingExpr(n)]
    ensures |Scans(n)| == if CategoryOf(n.nodeType) == CteScan then 0 else 1
    ensures JoinFrags(n) == []
  {
  }

  /** Walking one more child extends each contribution by that child's. */
  lemma ChildStep(cs: seq<Node>, k: nat)
    requires AllWalkable(cs) && k < |cs|
    ensures LeadingOfAll(cs[..k + 1]) == LeadingOfAll(cs[..k]) + (if k == 0 then "" else " ") + LeadingExpr(cs[k])
    ensures LeavesOfAll(cs[..k + 1]) == LeavesOfAll(cs[..k]) + Leaves(cs[k])
    ensures ScansOfAll(cs[..k + 1]) == ScansOfAll(cs[..k]) + Scans(cs[k])
    ensures JoinFragsOfAll(cs[..k + 1]) == JoinFragsOfAll(cs[..k]) + JoinFrags(cs[k])
  {
    assert cs[..k + 1][..k] == cs[..k];
    if k == 0 {
      assert cs[..0] == [];
    }
  }

  /** A join node's contributions are those of its children, inside its own
      parenthesis and its own entry. */
  lemma JoinUnfold(n: Node)
    requires Walkable(n) && CategoryOf(n.nodeType) == JoinNode
    ensures n.childs[..|n.childs|] == n.childs
    ensures LeadingExpr(n) == "(" + LeadingOfAll(n.childs) + ")"
    ensures Leaves(n) == LeavesOfAll(n.childs)
    ensures Scans(n) == ScansOfAll(n.childs)
    ensures JoinFrags(n) == [AddRels(HintKeyword(n.nodeType) + "(", Leaves(n)) + ")"]
                            + JoinFragsOfAll(n.childs)
  {
  }

  /** Closing a join's own entry, the one after the entries that were there
      before it. */
  lemma CloseOwnEntry(before: seq<string>, own: string, below: seq<string>)
    ensures (before + [own] + below)[|before| := own + ")"] == before + ([own + ")"] + below)
  {
  }

  /** The join entries while the children of a join node are walked: the
      entries that were there before, the node's own entry `own`, and the
      closed entries of the joins below the first `k` children. Every name
      reached so far was added to the first two. */
  function JoinsWhileWalking(before: seq<string>, own: string, cs: seq<Node>, k: nat): seq<string>
    requires AllNonEmpty(before) && |own| > 0 && AllWalkable(cs) && k <= |cs|
  {
    AddRelsAll(before, LeavesOfAll(cs[..k])) + [AddRels(own, LeavesOfAll(cs[..k]))]
      + JoinFragsOfAll(cs[..k])
  }

  /** Adding more names to the entries of an open join (the entries before
      it, its own entry and the closed entries below it) and then appending
      further entries is the same as having added all names at once. */
  lemma PropagateIntoOpenJoin(before: seq<string>, own: string, below: seq<string>,
                              seen: seq<string>, more: seq<string>, after: seq<string>)
    requires AllNonEmpty(before) && |own| > 0 && AllClosed(below)
    ensures AllNonEmpty(AddRelsAll(before, seen) + [AddRels(own, seen)] + below)
    ensures AddRelsAll(AddRelsAll(before, seen) + [AddRels(own, seen)] + below, more) + after
         == AddRelsAll(before, seen + more) + [AddRels(own, seen + more)] + (below + after)
  {
    var a, b := AddRelsAll(before, seen), [AddRels(own, seen)];
    AddRelsAllClosed(below, more);
    AddRelsAllConcat(a + b, below, more);
    AddRelsAllConcat(a, b, more);
    AddRelsAllAppend(before, seen, more);
    AddRelsAppend(own, seen, more);
    assert AddRelsAll(b, more) == [AddRels(own, seen + more)];
    assert AddRelsAll(a + b + below, more)
        == AddRelsAll(before, seen + more) + [AddRels(own, seen + more)] + below;
    ConcatAssoc(AddRelsAll(before, seen + more) + [AddRels(own, seen + more)], below, after);
  }

  /** Walking child `k` adds its names to the entries that are still open
      (the closed ones below earlier children stay as they are) and appends
      its own entries. */
  lemma JoinsWhileWalkingStep(before: seq<string>, own: string, cs: seq<Node>, k: nat)
    requires AllNonEmpty(before) && |own| > 0 && AllWalkable(cs) && k < |cs|
    ensures AllNonEmpty(JoinsWhileWalking(before, own, cs, k))
    ensures AddRelsAll(JoinsWhileWalking(before, own, cs, k), Leaves(cs[k])) + JoinFrags(cs[k])
         == JoinsWhileWalking(before, own, cs, k + 1)
  {
    ChildStep(cs, k);
    PropagateIntoOpenJoin(before, own, JoinFragsOfAll(cs[..k]), LeavesOfAll(cs[..k]),
                          Leaves(cs[k]), JoinFrags(cs[k]));
  }

  /** The accumulator while the children of a join node are walked: after
      the first `k` children, Leading has grown by their contributions
      separated by single spaces, the scan list by their scan fragments, and
      the join entries are as JoinsWhileWalking says. */
  predicate WalkedFirst(leading: string, scan: seq<string>, join: seq<string>,
                        leading0: string, scan0: seq<string>, before: seq<string>, own: string,
                        cs: seq<Node>, k: nat)
  {
    && AllNonEmpty(before) && |own| > 0 && AllWalkable(cs) && k <= |cs|
    && leading == leading0 + LeadingOfAll(cs[..k])
    && scan == scan0 + ScansOfAll(cs[..k])
    && join == JoinsWhileWalking(before, own, cs, k)
  }

  /** The accumulator after walking node `c` from the state (leading0,
      scan0, join0), with `sp` put in front of its Leading contribution. */
  predicate WalkedOne(leading0: string, scan0: seq<string>, join0: seq<string>, sp: string, c: Node,
                      leading: string, scan: seq<string>, join: seq<string>)
  {
    && Walkable(c) && AllNonEmpty(join0)
    && leading == leading0 + sp + LeadingExpr(c)
    && scan == scan0 + Scans(c)
    && join == AddRelsAll(join0, Leaves(c)) + JoinFrags(c)
  }

  /** One step of the walk over a join node's children: the state the first
      `k` children leave, extended by the contributions of child `k`, is the
      state the first `k + 1` children leave. */
  lemma WalkedChild(leading0: string, scan0: seq<string>, before: seq<string>, own: string,
                    cs: seq<Node>, k: nat,
                    leadingK: string, scanK: seq<string>, joinK: seq<string>,
                    leading: string, scan: seq<string>, join: seq<string>)
    requires k < |cs| && WalkedFirst(leadingK, scanK, joinK, leading0, scan0, before, own, cs, k)
    requires WalkedOne(leadingK, scanK, joinK, if k == 0 then "" else " ", cs[k], leading, scan, join)
    ensures WalkedFirst(leading, scan, join, leading0, scan0, before, own, cs, k + 1)
  {
    ChildStep(cs, k);
    JoinsWhileWalkingStep(before, own, cs, k);
    var sp := if k == 0 then "" else " ";
    ConcatAssoc(leading0, LeadingOfAll(cs[..k]), sp);
    ConcatAssoc(leading0, LeadingOfAll(cs[..k]) + sp, LeadingExpr(cs[k]));
    ConcatAssoc(scan0, ScansOfAll(cs[..k]), Scans(cs[k]));
  }

  /** Before the first child nothing has been walked. */
  lemma WalkedNone(leading: string, scan: seq<string>, before: seq<string>, own: string, cs: seq<Node>)
    requires AllNonEmpty(before) && |own| > 0 && AllWalkable(cs)
    ensures WalkedFirst(leading, scan, before + [own], leading, scan, before, own, cs, 0)
  {
    assert cs[..0] == [];
    assert AddRelsAll(before, []) == before;
  }

  /** After the last child, the state is the one all children leave. */
  lemma WalkedAll(leading: string, scan: seq<string>, join: seq<string>,
                  leading0: string, scan0: seq<string>, before: seq<string>, own: string, cs: seq<Node>)
    requires AllNonEmpty(before) && |own| > 0 && AllWalkable(cs)
    requires WalkedFirst(leading, scan, join, leading0, scan0, before, own, cs, |cs|)
    ensures leading == leading0 + LeadingOfAll(cs)
    ensures scan == scan0 + ScansOfAll(cs)
    ensures join == JoinsWhileWalking(before, own, cs, |cs|)
  {
    assert cs[..|cs|] == cs;
  }

  /** Once every child is walked, closing the node's own entry gives the
      entries before it with all names added, followed by the node's own
      join fragments. */
  lemma JoinsWhileWalkingDone(before: seq<string>, n: Node)
    requires AllNonEmpty(before) && Walkable(n) && CategoryOf(n.nodeType) == JoinNode
    ensures var js := JoinsWhileWalking(before, HintKeyword(n.nodeType) + "(", n.childs, |n.childs|);
      |js| > |before| &&
      js[|before| := js[|before|] + ")"] == AddRelsAll(before, Leaves(n)) + JoinFrags(n)
  {
    JoinUnfold(n);
    CloseOwnEntry(AddRelsAll(before, Leaves(n)), AddRels(HintKeyword(n.nodeType) + "(", Leaves(n)),
                  JoinFragsOfAll(n.childs));
  }

  /** The state after the last child of a join node: closing Leading and
      the node's own entry completes the node's contributions. */
  lemma JoinDone(leading0: string, scan0: seq<string>, join0: seq<string>, n: Node,
                 leading: string, scan: seq<string>, join: seq<string>)
    requires AllNonEmpty(join0) && Walkable(n) && CategoryOf(n.nodeType) == JoinNode
    requires leading == leading0 + "(" + LeadingOfAll(n.childs)
    requires scan == scan0 + ScansOfAll(n.childs)
    requires join == JoinsWhileWalking(join0, HintKeyword(n.nodeType) + "(", n.childs, |n.childs|)
    ensures leading + ")" == leading0 + LeadingExpr(n)
    ensures scan == scan0 + Scans(n)
    ensures |join| > |join0|
    ensures AllNonEmpty(join[|join0| := join[|join0|] + ")"])
    ensures join[|join0| := join[|join0|] + ")"] == AddRelsAll(join0, Leaves(n)) + JoinFrags(n)
  {
    JoinUnfold(n);
    JoinsWhileWalkingDone(join0, n);
    ConcatAssoc(leading0, "(", LeadingOfAll(n.childs));
    ConcatAssoc(leading0, "(" + LeadingOfAll(n.childs), ")");
  }

  // ---------------------------------------------------------------------------
  // Join-hint completeness

  /** The join nodes the walk visits below `n` (itself included), in pre-order. */
  function JoinNodes(n: Node): (r: seq<Node>)
    requires Walkable(n)
    ensures forall i :: 0 <= i < |r| ==> Walkable(r[i]) && CategoryOf(r[i].nodeType) == JoinNode
  {
    match CategoryOf(n.nodeType)
    case JoinNode => [n] + JoinNodesOfAll(n.childs)
    case PassThrough => JoinNodes(n.childs[0])
    case _ => []
  }

  function JoinNodesOfAll(cs: seq<Node>): (r: seq<Node>)
    requires AllWalkable(cs)
    ensures forall i :: 0 <= i < |r| ==> Walkable(r[i]) && CategoryOf(r[i].nodeType) == JoinNode
  {
    if cs == [] then [] else JoinNodesOfAll(cs[..|cs| - 1]) + JoinNodes(cs[|cs| - 1])
  }

  /** The hint a join node should get: its keyword and, in parentheses, every
      name reached below it, separated by single spaces. */
  function JoinFragment(m: Node): string
    requires Walkable(m)
  {
    HintKeyword(m.nodeType) + "(" + Spaced(Leaves(m)) + ")"
  }

  /** A join node's own entry lists every name reached below it, in visit
      order, once the names are good. */
  lemma JoinEntryListsLeaves(n: Node)
    requires Walkable(n) && CategoryOf(n.nodeType) == JoinNode
    requires AllGood(Leaves(n))
    ensures JoinFrags(n)[0] == JoinFragment(n)
  {
    AddRelsToFresh(HintKeyword(n.nodeType), LeavesOfAll(n.childs));
  }

  /** Every join entry the walk produces is the hint of its join node: there
      is one entry per join node, in pre-order, listing all names below it. */
  lemma {:induction false} JoinFragsComplete(n: Node)
    requires Walkable(n) && AllGood(Leaves(n))
    ensures |JoinFrags(n)| == |JoinNodes(n)|
    ensures forall i :: 0 <= i < |JoinNodes(n)| ==> JoinFrags(n)[i] == JoinFragment(JoinNodes(n)[i])
  {
    match CategoryOf(n.nodeType)
    case JoinNode =>
      JoinEntryListsLeaves(n);
      JoinFragsOfAllComplete(n.childs);
    case PassThrough =>
      JoinFragsComplete(n.childs[0]);
    case _ =>
  }

  lemma {:induction false} JoinFragsOfAllComplete(cs: seq<Node>)
    requires AllWalkable(cs) && AllGood(LeavesOfAll(cs))
    ensures |JoinFragsOfAll(cs)| == |JoinNodesOfAll(cs)|
    ensures forall i :: 0 <= i < |JoinNodesOfAll(cs)| ==>
      JoinFragsOfAll(cs)[i] == JoinFragment(JoinNodesOfAll(cs)[i])
  {
    if cs != [] {
      var init, last := cs[..|cs| - 1], cs[|cs| - 1];
      var a, b := LeavesOfAll(init), Leaves(last);
      assert LeavesOfAll(cs) == a + b;
      assert AllGood(a) by {
        forall i | 0 <= i < |a| ensures GoodName(a[i]) {
          assert (a + b)[i] == a[i];
        }
      }
      assert AllGood(b) by {
        forall i | 0 <= i < |b| ensures GoodName(b[i]) {
          assert (a + b)[|a| + i] == b[i];
        }
      }
      JoinFragsOfAllComplete(init);
      JoinFragsComplete(last);
    }
  }

  // ---------------------------------------------------------------------------
  // Join-order fidelity

  /** Read as words, the Leading contribution of a subtree is exactly the
      names it reaches, in visit order: the parentheses only add nesting. */
  lemma {:induction false} LeadingReadsBackLeaves(n: Node)
    requires Walkable(n) && AllPlain(Leaves(n))
    ensures Words(LeadingExpr(n)) == Leaves(n)
  {
    match CategoryOf(n.nodeType)
    case JoinNode =>
      var x := LeadingOfAll(n.childs);
      LeadingOfAllReadsBackLeaves(n.childs);
      WordsBracketed("", x);
      assert "" + "(" + x + ")" == "(" + x + ")";
    case CteScan =>
      assert IsPlain(Leaves(n)[0]);
      WordsOfPlain(n.cteName);
    case BitmapHeapScan =>
      assert IsPlain(Leaves(n)[0]);
      WordsOfPlain(n.relationName);
    case PlainScan =>
      assert IsPlain(Leaves(n)[0]);
      WordsOfPlain(n.relationName);
    case PassThrough =>
      LeadingReadsBackLeaves(n.childs[0]);
    case Unrecognized =>
  }

  lemma {:induction false} LeadingOfAllReadsBackLeaves(cs: seq<Node>)
    requires AllWalkable(cs) && AllPlain(LeavesOfAll(cs))
    ensures Words(LeadingOfAll(cs)) == LeavesOfAll(cs)
  {
    if cs != [] {
      var init, last := cs[..|cs| - 1], cs[|cs| - 1];
      var a, b := LeavesOfAll(init), Leaves(last);
      assert LeavesOfAll(cs) == a + b;
      assert AllPlain(a) by {
        forall i | 0 <= i < |a| ensures IsPlain(a[i]) {
          assert (a + b)[i] == a[i];
        }
      }
      assert AllPlain(b) by {
        forall i | 0 <= i < |b| ensures IsPlain(b[i]) {
          assert (a + b)[|a| + i] == b[i];
        }
      }
      LeadingReadsBackLeaves(last);
      if |cs| == 1 {
        assert init == [];
      } else {
        LeadingOfAllReadsBackLeaves(init);
        var x, y := LeadingOfAll(init), LeadingExpr(last);
        assert x + " " + y == x + [' '] + y;
        WordsAround(x, ' ', y);
      }
    }
  }

  // ---------------------------------------------------------------------------
  // The whole plan

  /** Leading contributions of the branches, one after the other. */
  function PlanLeading(bs: seq<PlanBranch>): string
    requires AllBranchesWalkable(bs)
  {
    if bs == [] then "" else PlanLeading(bs[..|bs| - 1]) + LeadingExpr(bs[|bs| - 1].root)
  }

  function PlanScans(bs: seq<PlanBranch>): seq<string>
    requires AllBranchesWalkable(bs)
  {
    if bs == [] then [] else PlanScans(bs[..|bs| - 1]) + Scans(bs[|bs| - 1].root)
  }

  function PlanJoins(bs: seq<PlanBranch>): (r: seq<string>)
    requires AllBranchesWalkable(bs)
    ensures AllClosed(r)
  {
    if bs == [] then [] else PlanJoins(bs[..|bs| - 1]) + JoinFrags(bs[|bs| - 1].root)
  }

  /** Walking one more branch extends each part by that branch's share;
      the join entries of earlier branches are closed, so they stay as they
      are. */
  lemma PlanStep(bs: seq<PlanBranch>, i: nat)
    requires AllBranchesWalkable(bs) && i < |bs|
    ensures PlanLeading(bs[..i + 1]) == PlanLeading(bs[..i]) + LeadingExpr(bs[i].root)
    ensures PlanScans(bs[..i + 1]) == PlanScans(bs[..i]) + Scans(bs[i].root)
    ensures PlanJoins(bs[..i + 1]) == AddRelsAll(PlanJoins(bs[..i]), Leaves(bs[i].root)) + JoinFrags(bs[i].root)
  {
    assert bs[..i + 1][..i] == bs[..i];
    AddRelsAllClosed(PlanJoins(bs[..i]), Leaves(bs[i].root));
  }

  /** The complete Leading hint of a plan. */
  function PlanLeadingHint(plan: Plan): string
    requires AllBranchesWalkable(plan.branches)
  {
    "Leading(" + PlanLeading(plan.branches) + ")"
  }

  lemma PlanLeadingOfOne(bs: seq<PlanBranch>)
    requires |bs| == 1 && AllBranchesWalkable(bs)
    ensures PlanLeading(bs) == LeadingExpr(bs[0].root)
  {
    assert bs[..0] == [];
  }

  /** The branches share one Leading hint: the share of the second branch
      follows that of the first with nothing in between. */
  lemma PlanLeadingOfTwo(b1: PlanBranch, b2: PlanBranch, planStr: string)
    requires Walkable(b1.root) && Walkable(b2.root)
    ensures AllBranchesWalkable([b1, b2])
    ensures PlanLeadingHint(Plan([b1, b2], planStr))
         == "Leading(" + (LeadingExpr(b1.root) + LeadingExpr(b2.root)) + ")"
  {
    var bs := [b1, b2];
    assert bs[..1] == [b1];
    PlanLeadingOfOne([b1]);
  }

  lemma LeadingHintSplit(e: string)
    ensures "Leading(" + e + ")" == "Leading" + "(" + e + ")"
  {
  }

  lemma LeadingIsOneWord()
    ensures Words("Leading") == ["Leading"]
  {
    WordsOfPlain("Leading");
  }

  /** A one-branch plan's Leading hint reads as the word Leading followed by
      the names of its leaves in visit order. */
  lemma PlanLeadingReadsBackLeaves(plan: Plan)
    requires |plan.branches| == 1 && AllBranchesWalkable(plan.branches)
    requires AllPlain(Leaves(plan.branches[0].root))
    ensures Words(PlanLeadingHint(plan)) == ["Leading"] + Leaves(plan.branches[0].root)
  {
    var e := LeadingExpr(plan.branches[0].root);
    PlanLeadingOfOne(plan.branches);
    LeadingHintSplit(e);
    WordsBracketed("Leading", e);
    LeadingIsOneWord();
    LeadingReadsBackLeaves(plan.branches[0].root);
  }

  // ---------------------------------------------------------------------------
  // Rendering

  /** The hint block: an opening line, the Leading hint, each join entry and
      each scan fragment on a line of its own, and a closing line. */
  function RenderHints(leading: string, join: seq<string>, scan: seq<string>): string
  {
    "/*+\n" + leading + "\n" + Lines(join) + Lines(scan) + "*/"
  }

  /** Split at its newlines, a rendered block gives back its parts in order,
      with no reordering and no deduplication. */
  lemma RenderHintsLines(leading: string, join: seq<string>, scan: seq<string>)
    requires NoNewline(leading) && AllNoNewline(join) && AllNoNewline(scan)
    ensures SplitLines(RenderHints(leading, join, scan)) == ["/*+", leading] + join + scan + ["*/"]
  {
    RenderHintsShape(leading, join, scan);
    SplitHead(leading, Lines(join) + (Lines(scan) + "*/"));
    SplitBody(join, scan);
  }

  lemma RenderHintsShape(leading: string, join: seq<string>, scan: seq<string>)
    ensures RenderHints(leading, join, scan)
         == "/*+" + "\n" + (leading + "\n" + (Lines(join) + (Lines(scan) + "*/")))
  {
    assert "/*+\n" == "/*+" + "\n";
  }

  lemma OpeningMarkerIsOneLine()
    ensures NoNewline("/*+")
  {
    assert "/*+" == ['/', '*', '+'];
  }

  lemma SplitHead(leading: string, rest: string)
    requires NoNewline(leading)
    ensures SplitLines("/*+" + "\n" + (leading + "\n" + rest)) == ["/*+", leading] + SplitLines(rest)
  {
    OpeningMarkerIsOneLine();
    var tail := leading + "\n" + rest;
    SplitLinesAfter(leading, rest);
    SplitLinesAfter("/*+", tail);
    assert ["/*+"] + ([leading] + SplitLines(rest)) == ["/*+", leading] + SplitLines(rest);
  }

  lemma SplitBody(join: seq<string>, scan: seq<string>)
    requires AllNoNewline(join) && AllNoNewline(scan)
    ensures SplitLines(Lines(join) + (Lines(scan) + "*/")) == join + scan + ["*/"]
  {
    LineLenUnique("*/", 2);
    SplitLinesOfLines(scan, "*/");
    SplitLinesOfLines(join, Lines(scan) + "*/");
  }

  /** A hint block: the opening marker, each line followed by a newline,
      the closing marker. */
  function Block(lines: seq<string>): string {
    "/*+\n" + Lines(lines) + "*/"
  }

  /** The rendered hints are the block of their lines: Leading, then the
      join entries, then the scan fragments. */
  lemma RenderHintsBlock(leading: string, join: seq<string>, scan: seq<string>)
    ensures RenderHints(leading, join, scan) == Block([leading] + join + scan)
  {
    LinesAppend([leading] + join, scan);
    LinesAppend([leading], join);
    assert Lines([leading]) == leading + "\n" by {
      assert [leading][..0] == [];
    }
    ConcatAssoc("/*+\n", leading, "\n");
    ConcatAssoc("/*+\n", leading + "\n" + Lines(join), Lines(scan));
    ConcatAssoc("/*+\n", leading + "\n", Lines(join));
  }

  /** The text the derivation produces for a plan. */
  function HintText(plan: Plan): string
    requires AllBranchesWalkable(plan.branches)
  {
    RenderHints(PlanLeadingHint(plan), PlanJoins(plan.branches), PlanScans(plan.branches))
  }

  /** Anywhere in a tree, a pass-through node contributes exactly what its
      first child contributes, and nothing of its further children. */
  lemma PassThroughContributesChild(n: Node)
    requires CategoryOf(n.nodeType) == PassThrough && |n.childs| >= 1 && Walkable(n.childs[0])
    ensures Walkable(n)
    ensures LeadingExpr(n) == LeadingExpr(n.childs[0]) && Leaves(n) == Leaves(n.childs[0])
    ensures Scans(n) == Scans(n.childs[0]) && JoinFrags(n) == JoinFrags(n.childs[0])
  {
  }

  /** A pass-through node placed above the root of a one-branch plan changes
      nothing in the derived hints. */
  lemma PassThroughIsTransparent(n: Node, wrapper: Node, planStr: string)
    requires Walkable(n)
    requires CategoryOf(wrapper.nodeType) == PassThrough && wrapper.childs == [n]
    ensures AllBranchesWalkable([PlanBranch(wrapper)])
    ensures HintText(Plan([PlanBranch(wrapper)], planStr)) == HintText(Plan([PlanBranch(n)], planStr))
  {
    assert [PlanBranch(wrapper)][..0] == [];
    assert [PlanBranch(n)][..0] == [];
  }
}
