# pg_hint_plan hints from a PostgreSQL plan, verified in Dafny

phint reads the JSON output of `EXPLAIN (FORMAT JSON)`. It derives a
`pg_hint_plan` comment block that pins the plan the planner chose:

- a `Leading(...)` hint that spells out the join order as nested parentheses;
- one `NestLoop(...)`, `HashJoin(...)` or `MergeJoin(...)` entry per join
  node, naming every relation reached below that join;
- one access-method fragment per scan: `SeqScan(t)`, `IndexScan(t idx)`,
  `IndexOnlyScan(t)` or `BitmapScan(t idx ...)`.

This project models the derivation in package `pgplan`. The plan is a value
(`PlanTree.Node`, `PlanTree.Plan`). The `Hint` accumulator is a class whose
`leading`, `join` and `scan` fields the walk updates in place, as the Go
functions do through their `*Hint` pointer argument. Every method is proved
against a functional specification in module `HintSpec`:

- `LeadingExpr`, `Leaves`, `Scans` and `JoinFrags` say what one subtree
  contributes;
- `PlanLeadingHint`, `PlanJoins` and `PlanScans` say what a whole plan
  contributes;
- `RenderHints` and `HintText` give the text that is printed.

The lemmas then say what those functions mean:

- when no name is empty or ends in a parenthesis, each join entry lists, in
  visit order, exactly the relation and CTE names reached below its join
  node, and there is one join entry per join node, in pre-order;
- when every name is one word (non-empty, without spaces, parentheses or
  newlines), the Leading text of a subtree, and the Leading hint of a
  one-branch plan, read as words, give back those names;
- when no part holds a newline, the rendered block, split at its newlines,
  gives back its parts;
- a pass-through node contributes exactly what its first child does;
- the three plans of `phint_test.go` render exactly as the tests expect.

Modules:

- `Text`: strings as lists of words and of lines, and first-seen
  deduplication.
- `PlanTree`: the plan datatypes, the keyword table, the walker's
  classification of node types, and the `Walkable` precondition.
- `HintSpec`: the specification functions and their lemmas.
- `Hints`: the imperative code. This is the `Hint` class with `AddJoinRel`,
  `GetHintFromNode`, `GetHintFromBranch` and `GetAllHints`, plus the
  module-level `GetChildIdxName`, `GetHintFromPlan` and `DeriveHintText`.
- `Scenarios`: the plans of `TestBitmapOR`, `TestHash` and `TestCte`, a
  plan of two branches, a nested bitmap scan and a self-join.

Where the code and its description differ, the model follows the code:

- "Sample Scan" has a keyword (`SampleScan`), but the walker's switch does
  not list it. A sample scan is therefore treated like any unrecognised node:
  it contributes nothing and its subtree is not visited.
- A pass-through node and a Bitmap Heap Scan use their first child only. Any
  further children are ignored, not rejected.
- All branches of a plan share one accumulator. Their Leading pieces are
  concatenated inside one `Leading(...)` with no separator between them
  (`HintSpec.PlanLeadingOfTwo`). Two branches that scan `a` and `b` thus give
  `Leading(ab)`, which names one relation `ab`
  (`Scenarios.TwoBranchesMergeNames`). The join entries of earlier branches
  are already closed, so later branches never extend them
  (`HintSpec.PlanStep`).
- The index part of a bitmap heap scan is built from the immediate members
  of its BitmapOr or BitmapAnd only, members without an index name included.
  A BitmapOr over a BitmapAnd of `i1` and `i2` and a Bitmap Index Scan of
  `i3` thus gives `BitmapScan(t  i3)`, with two spaces and no `i1` or `i2`
  (`Scenarios.NestedBitmapLosesNames`). The description speaks instead of the
  names of the descendants that carry an index name.
- Every name in the hints is the relation name, never the alias. A self-join
  of `t` under two aliases thus gives `HashJoin(t t)` and `Leading((t t))`
  (`Scenarios.SelfJoinRepeatsName`), although the description promises join
  entries without duplicates.
- A name ending in ")" closes every open entry it is added to, so the names
  added after it are dropped from those entries
  (`HintSpec.NameEndingInParenClosesEntry`).
- The keyword of a node type is described as the type with its spaces
  removed, but the table maps "Nested Loop" to `NestLoop` and
  "Bitmap Heap Scan" to `BitmapScan`; the model uses the table
  (`PlanTree.HintKeyword`).

## Model

The rows come in groups: the keyword table and the definitions every contract
is stated against, the properties proved about them, the imperative methods,
the plans of the tests and two further plans, and last the unfolding steps
the proofs of the methods go through, marked "step".

| member | source | states |
|---|---|---|
| PlanTree.KeywordTable | pgplan/pgplan.go:56-81 | exactly the nine tabled node types have a non-empty keyword; every other type yields ""; a keyword is a single word without spaces or parentheses |
| PlanTree.KeywordOfEmittingCategories | pgplan/pgplan.go:56-81 | every node type the walk emits a fragment for has a keyword; "Sample Scan" is the only keyword type the walk does not recognise |
| PlanTree.HintKeyword | pgplan/pgplan.go:55-81 | the keyword table: the nine node types of the switch map to their keyword, any other type to ""; KeywordTable and KeywordOfEmittingCategories carry its properties |
| PlanTree.CategoryOf | pgplan/pgplan.go:142-202 | the walker's case labels: the three join types, CTE Scan, Bitmap Heap Scan, the three plain scans, the nine pass-through types, and every other type unrecognised |
| PlanTree.Walkable | pgplan/pgplan.go:142-199 | the trees the walk accepts without indexing a missing child: every Bitmap Heap Scan has a first child, every pass-through node a walkable first child, every join walkable children; GetHintFromNode requires it |
| HintSpec.AddRel | pgplan/pgplan.go:88-97 | one entry after one name: an entry not ending in ")" gains the name, after a space unless it ends in "("; a closed entry is unchanged; AddRelsSingle, AddRelsClosed and AddRelsToFresh carry its properties |
| HintSpec.AddRels | pgplan/pgplan.go:84-99 | one entry after several names were added in order; the result is never shorter than the entry, and AddRelsKeepsEntry, AddRelsAppend and AddRelsToFresh say what it holds |
| HintSpec.ChildIdxName | pgplan/pgplan.go:101-138 | the index part of a bitmap heap scan: under a BitmapOr or BitmapAnd, the index names of that node's immediate members deduplicated and joined by single spaces, otherwise the first child's index name; ChildIdxNameDistinctInOrder carries its property |
| HintSpec.LeadingExpr | pgplan/pgplan.go:142-199 | the text a subtree adds to Leading: "(" + its children's shares + ")" for a join, the CTE name for a CTE scan, the relation name for a scan, the first child's share for a pass-through node, nothing otherwise; LeadingReadsBackLeaves carries its property |
| HintSpec.LeadingOfAll | pgplan/pgplan.go:151-161 | the Leading shares of a join's children, separated by single spaces; LeadingOfAllReadsBackLeaves carries its property |
| HintSpec.Leaves | pgplan/pgplan.go:167-199 | the names a subtree passes to addJoinRel, in visit order: the CTE name of a CTE scan, the relation name of a scan, those of the children of a join or of the first child of a pass-through node |
| HintSpec.LeavesOfAll | pgplan/pgplan.go:153-161 | the names of a join's children, one child after another |
| HintSpec.Scans | pgplan/pgplan.go:175-199 | the fragment each scan appends: `IndexScan(rel idx)`, `BitmapScan(rel idxs)`, otherwise `Kw(rel)`; none for a CTE scan; those of the children of a join or of the first child of a pass-through node |
| HintSpec.ScansOfAll | pgplan/pgplan.go:153-161 | the scan fragments of a join's children, one child after another |
| HintSpec.JoinFragsOfAll | pgplan/pgplan.go:153-161 | the join entries a join's children leave, one child after another; every one of them is closed |
| HintSpec.PlanLeading | pgplan/pgplan.go:217-219 | the Leading shares of a plan's branches, concatenated with no separator |
| HintSpec.PlanLeadingHint | pgplan/pgplan.go:214-221 | "Leading(" + the branches' Leading shares + ")"; PlanLeadingOfTwo and PlanLeadingReadsBackLeaves carry its properties |
| HintSpec.PlanJoins | pgplan/pgplan.go:217-219 | the join entries of a plan's branches, branch after branch; every one of them is closed |
| HintSpec.PlanScans | pgplan/pgplan.go:217-219 | the scan fragments of a plan's branches, branch after branch |
| HintSpec.RenderHints | pgplan/pgplan.go:227-239 | the printed block of the three parts; RenderHintsLines and RenderHintsBlock carry its properties |
| HintSpec.HintText | pgplan/pgplan.go:211-239 | the block printed for a plan: RenderHints of its Leading hint, join entries and scan fragments; DeriveHintText ties the methods to it |
| Text.Dedup | pgplan/pgplan.go:118-127 | the deduplicated list is no longer than its input and has exactly the same members |
| Text.DedupDistinct | pgplan/pgplan.go:118-127 | no name occurs twice after deduplication |
| Text.DedupFirstSeenOrder | pgplan/pgplan.go:118-127 | deduplication keeps names in the order of their first occurrence |
| Text.SpacedWords | pgplan/pgplan.go:129-132 | when every name is one word: non-empty, without spaces, parentheses or newlines, names joined with single spaces read back, word by word, as the same list |
| HintSpec.AddRelsAll | pgplan/pgplan.go:84-99 | adding names keeps the number of join entries and their non-emptiness, and treats each entry on its own |
| HintSpec.AddRelsClosed | pgplan/pgplan.go:94 | an entry ending in ")" never changes, whatever names are added |
| HintSpec.NameEndingInParenClosesEntry | pgplan/pgplan.go:90-97 | a name ending in ")" added to an open entry closes it: the entry gains the separator and that name, and every later name is dropped |
| HintSpec.AddRelsAppend | pgplan/pgplan.go:84-99 | adding names a then names b is adding a + b |
| HintSpec.AddRelsToFresh | pgplan/pgplan.go:88-96 | adding names to a fresh "Kw(" entry gives "Kw(" and the names separated by single spaces, provided no name is empty or ends in a parenthesis |
| HintSpec.AddRelsKeepsEntry | pgplan/pgplan.go:94-96 | adding names only appends: the old entry, such as a join's "Kw(", stays a prefix of the new one |
| HintSpec.AddRelsAllAppend | pgplan/pgplan.go:84-99 | adding names to every entry in two rounds is adding them in one |
| HintSpec.AddRelsAllClosed | pgplan/pgplan.go:94 | a list of closed entries is left unchanged |
| HintSpec.ChildIdxNameDistinctInOrder | pgplan/pgplan.go:101-138 | under a BitmapOr/BitmapAnd whose members' index names are each one word: non-empty, without spaces, parentheses or newlines, the index part reads back as those names deduplicated: the same set, each once, in first-seen order |
| HintSpec.JoinFrags | pgplan/pgplan.go:143-166 | every join entry the walk leaves behind ends in ")" |
| HintSpec.PropagateIntoOpenJoin | pgplan/pgplan.go:84-99 | names added later reach the entries before a join and its own open entry, but not the closed entries below it |
| HintSpec.JoinNodes | pgplan/pgplan.go:143-166 | the join nodes a walk visits are walkable join nodes |
| HintSpec.JoinEntryListsLeaves | pgplan/pgplan.go:143-197 | when no name is empty or ends in a parenthesis, a join node's entry is its keyword, "(", every name reached below it in visit order separated by single spaces, and ")" |
| HintSpec.JoinFragsComplete | pgplan/pgplan.go:143-197 | under the same condition on names, the walk appends exactly one entry per join node, in pre-order, each listing the names below that node |
| HintSpec.LeadingReadsBackLeaves | pgplan/pgplan.go:143-199 | when every name is one word: non-empty, without spaces, parentheses or newlines, a subtree's Leading contribution, read as words, is the list of names its leaves contribute |
| HintSpec.LeadingOfAllReadsBackLeaves | pgplan/pgplan.go:151-161 | when every name below the children is one word: non-empty, without spaces, parentheses or newlines, the children's space-separated Leading contributions read back as their names |
| HintSpec.PlanStep | pgplan/pgplan.go:217-219 | each further branch extends Leading and the scans by its share; earlier entries are closed and keep their text |
| HintSpec.PlanLeadingOfTwo | pgplan/pgplan.go:214-221 | with two branches, the Leading hint holds the second branch's share right after the first's, with nothing between them |
| HintSpec.PlanLeadingReadsBackLeaves | pgplan/pgplan.go:214-221 | when every name is one word: non-empty, without spaces, parentheses or newlines, a one-branch plan's Leading hint reads as "Leading" followed by the names of its leaves |
| HintSpec.RenderHintsLines | pgplan/pgplan.go:227-239 | when Leading, the join entries and the scan fragments hold no newline, the rendered block splits at its newlines into "/*+", Leading, the join entries, the scan fragments and "*/", in that order |
| HintSpec.RenderHintsBlock | pgplan/pgplan.go:227-239 | the rendered block is the opening marker, Leading, the join entries and the scan fragments each ended by a newline, then "*/" |
| HintSpec.PassThroughIsTransparent | pgplan/pgplan.go:198-199 | a pass-through node above the root of a one-branch plan changes nothing in the derived text |
| HintSpec.PassThroughContributesChild | pgplan/pgplan.go:198-199 | anywhere in a tree, a pass-through node contributes exactly the Leading text, names, scan fragments and join entries of its first child |
| Hints.GetChildIdxName | pgplan/pgplan.go:101-138 | the index part a Bitmap Heap Scan's hint carries is ChildIdxName, about which ChildIdxNameDistinctInOrder is proved |
| Hints.Hint.constructor | pgplan/pgplan.go:212 | a new accumulator has empty Leading, no entries, no fragments and no plan |
| Hints.Hint.AddJoinRel | pgplan/pgplan.go:84-99 | only entries not ending in ")" change, each gaining the name after a space unless it ends in "("; the entry count, Leading and scans are unchanged |
| Hints.Hint.GetHintFromNode | pgplan/pgplan.go:140-203 | walking a subtree appends its Leading contribution, its scan fragments and its join entries, and adds its names to the entries still open; an unrecognised node changes nothing |
| Hints.Hint.GetHintFromJoin | pgplan/pgplan.go:143-166 | the join case: the same contract, through the loop over the children and the closing of the join's own entry |
| Hints.Hint.GetHintFromChilds | pgplan/pgplan.go:151-161 | the loop over a join's children leaves Leading, scans and entries as JoinsWhileWalking says for all children |
| Hints.Hint.GetHintFromChild | pgplan/pgplan.go:155-159 | one turn of that loop: the separator, then the walk of child k, carrying the loop invariant from k to k + 1 |
| Hints.Hint.GetHintFromBranch | pgplan/pgplan.go:205-207 | walking a branch is walking its root |
| Hints.Hint.GetAllHints | pgplan/pgplan.go:227-239 | the rendered text is RenderHints of the current fields, about which RenderHintsLines and RenderHintsBlock are proved |
| Hints.GetHintFromPlan | pgplan/pgplan.go:211-224 | the result is a fresh accumulator holding "Leading(" + the branches' Leading shares + ")", their join entries and scan fragments in branch order, and the plan |
| Hints.DeriveHintText | phint_test.go:64-65 | walking a plan and rendering the result gives HintText of the plan |
| Scenarios.BitmapOrHints | phint_test.go:8-75 | the TestBitmapOR plan renders as the expected block, with tbl1_pkey named once although the BitmapOr reads it twice |
| Scenarios.HashHints | phint_test.go:77-125 | the TestHash plan renders as the expected block |
| Scenarios.CteHints | phint_test.go:127-190 | the TestCte plan renders as the expected block: the CTE name reaches Leading and both nested loops, and no scan fragment is emitted for it |
| Scenarios.TwoBranchesMergeNames | pgplan/pgplan.go:211-224 | sequential scans of a and b in two branches give the Leading hint "Leading(ab)", which reads as "Leading" and the single name "ab": the two names merge |
| Scenarios.NestedBitmapLosesNames | pgplan/pgplan.go:114-116 | a BitmapOr over a BitmapAnd of i1 and i2 and a Bitmap Index Scan of i3 gives the fragment "BitmapScan(t  i3)": only the immediate members' index names are read, so i1 and i2 are lost |
| Scenarios.SelfJoinRepeatsName | pgplan/pgplan.go:185-197 | a hash join of t under the aliases t1 and t2 gives the entry "HashJoin(t t)" and the Leading hint "Leading((t t))": names are relation names, never aliases, so t appears twice |
| HintSpec.AddRelsSingle | pgplan/pgplan.go:88-97 | step: adding one name appends it to an open entry, after a space unless the entry ends in "(" |
| HintSpec.LeafContributions | pgplan/pgplan.go:167-197 | step: a scan or CTE scan adds its one name to Leading and to the open entries, one scan fragment (none for a CTE scan) and no join entry |
| HintSpec.ChildStep | pgplan/pgplan.go:153-161 | step: walking one more child extends Leading by a space (except before the first child) and that child's share, and extends the other parts by its share |
| HintSpec.JoinUnfold | pgplan/pgplan.go:143-166 | step: a join contributes "(" + its children's Leading + ")", their names and scans, and its own entry followed by theirs |
| HintSpec.JoinsWhileWalkingStep | pgplan/pgplan.go:153-161 | step: after child k is walked, the join entries are those the first k + 1 children leave |
| HintSpec.WalkedNone | pgplan/pgplan.go:148-151 | step: before the first child, with the join's own entry just appended, the loop invariant holds |
| HintSpec.WalkedChild | pgplan/pgplan.go:153-161 | step: one turn of the children loop carries the loop invariant from k to k + 1 children |
| HintSpec.WalkedAll | pgplan/pgplan.go:153-161 | step: once all children are walked, Leading, scans and entries are those of all children |
| HintSpec.JoinsWhileWalkingDone | pgplan/pgplan.go:162-166 | step: closing the join's own entry at its recorded position yields the entries before it with all names added, then the join's fragments |
| HintSpec.JoinDone | pgplan/pgplan.go:162-166 | step: closing Leading and the own entry completes exactly the join's contribution |

In `Scenarios`, `Block(lines)` is the opening marker, each line followed by a
newline, and the closing marker. It is the expected string of each test
written line by line.

## Left out

- JSON decoding (`pgplan/json.go`) is not part of this model. The scenario
  plans are built directly as values, and their `planStr` is "".
- `phint.go` is not part of this model: command-line handling, the database
  connection, running EXPLAIN, reading files and stdin.
- `pgplan/text.go` is not part of this model. It is an unimplemented stub.
- The `dump` methods (pgplan/pgplan.go:241-269) only print to the console.
- The two `glog` calls (pgplan/pgplan.go:78, pgplan/pgplan.go:201) only log, and
  are modelled as doing nothing.
- The float cost, row and timing fields, the `InnerUnique` and `ParallelAware`
  flags, and the unused `Rows` hint field play no part in the derivation.
- Hints.Hint.GetHintFromNode: requires `Walkable(n)`. The Go code indexes
  `Childs[0]` of every pass-through node and Bitmap Heap Scan without a check,
  and panics when it is missing. The model does not describe that panic.
- `OrigPlan` is a pointer in Go and an `Option<Plan>` value here, so aliasing
  with the caller's plan is not modelled.
- Hints.Hint.GetHintFromChilds and Hints.Hint.GetHintFromChild are the loop
  at pgplan/pgplan.go:151-161 and its body, split out of the join case into
  methods of their own. The order of the updates is the same.
- Go strings are byte strings and Dafny strings are sequences of characters.
  No operation here depends on the encoding.
