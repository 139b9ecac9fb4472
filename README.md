# Earley chart parser — a verified Dafny model

This project models the chart engine of a Rust Earley parser: the grammar model
(symbols, productions, dotted rules), chart edges with their derivation histories,
the `Chart` state machine (a FIFO worklist, the set of every edge seen, the grammar
indexed by left-hand side, the list of complete derivations) with its predict, scan
and complete steps behind a single dedup gate, and the reconstruction of derivation
trees from edge histories. It also models the two list helpers of the earlier
prototype in `src/main.rs`.

Files:

- `wrappers.dfy` — `Option`/`Result`, and `NoDup`/`Elems` on sequences.
- `grammar.dfy` — module `Grammar`: `Symbol`, `Production`, `DottedRule`.
- `edges.dfy` — module `Edges`: `ChartEdge`, the edge invariant `EdgeOk`, the edges each step produces, `Tree` and derivation trees.
- `chart.dfy` — module `Earley`: the `Chart` class, `GroupByLhs`, `NewChart`.
- `prototype.dfy` — module `Prototype`: `GenerateDottedRules`, `PushNotDup`.

Modelling choices:

- Terminals and nonterminals are type parameters with equality. `N::start()` is a constructor parameter, `start`.
- Nonterminals are plain values (`Copy` in the source), so `NewChart` asks `N(!new)`.
- `HashMap` and `HashSet` are a Dafny `map` and `set`. `VecDeque` and `Vec` are `seq`.
- Panics are error values:
  - `into_dotted_rule` and `advanced_dot` return `None`.
  - `Chart::new` returns `Failure(NoStartingProductions)`.
  - `process_one` returns `Failure(NoProcessingLeft)` on an empty worklist.
  - `process_one` returns `Failure(NoProductionFor(x))` when it predicts a nonterminal that has no productions. The front edge has already been popped then, as in the source.
- The complete step walks a `HashSet`, so the order of its new edges is unspecified. The model states the set of edges it enqueues, not their order.
- The chart carries both corrections listed under "## Findings": the scan step keeps the scanned edge's history, and the constructor seeds the start productions through the dedup gate. The code as written is modelled beside them, by `Edges.ScanEdgeAsWritten` and `Earley.SeedWorklistAsWritten`.
- Every chart edge satisfies the invariant `EdgeOk`:
  - the dot lies within the right-hand side, and `start <= end <= input length`;
  - the history holds one complete edge per nonterminal left of the dot, deriving that nonterminal, in order;
  - the history spans follow one another inside the edge's span.
- The chart invariant `Chart.Valid` states:
  - every edge satisfies `EdgeOk` and uses a grammar production;
  - the worklist holds distinct edges, all of them in the seen set;
  - the complete derivations are distinct full parses that have already left the worklist.

## Model

| member | source | states |
|---|---|---|
| `Grammar.Production.IntoDottedRule` | src/earley.rs:58-71 | a dotted rule exists exactly when `dotPos` is at most the rhs length (otherwise the panic, `None`); it keeps the production and is complete exactly at `dotPos` equals the rhs length |
| `Grammar.DottedRule.IsComplete` | src/earley.rs:113-115 | a well-formed rule is complete exactly when its dot sits at the end of the rhs |
| `Grammar.DottedRule.NextSymbol` | src/earley.rs:97-103 | `None` exactly when the rule is complete; otherwise the symbol `rhs[dotPos]` |
| `Grammar.DottedRule.AdvancedDot` | src/earley.rs:105-111 | panics (`None`) exactly on a complete rule; otherwise the same production with the dot one further, still within the rhs |
| `Grammar.AdvanceMatched` | src/earley.rs:105-115 | advancing over a symbol adds that symbol's nonterminal, if any, to the matched nonterminals; advancing over a terminal adds none |
| `Grammar.AdvanceByAgreesWithInto` | src/earley.rs:58-111 | advancing the dot `k` times from position `d` succeeds exactly when a dot at `d + k` may be placed, and gives that rule: the two fail-fast checks agree |
| `Grammar.PartitionLength` | src/earley.rs:178-189 | a rhs splits into its nonterminals and its terminals: their counts add up to the rhs length |
| `Edges.PredictEdges` | src/earley.rs:315-322 | the predict step's edges: one per production, in grammar order, each that production with dot 0 on the empty span at the given position, with an empty history |
| `Edges.ScanEdgeAsWritten` | src/earley.rs:330-335 | (as written) the scanned edge has the same production with the dot one further, the same start, the end one later, and an empty history |
| `Edges.ScanEdge` | src/earley.rs:330-335 | (corrected) the same as the as-written edge but keeping the old history; when the symbol passed over is a terminal, the matched nonterminals do not change, so the history still accounts for them |
| `Edges.ScanEdges` | src/earley.rs:328-339 | the scan step yields an edge exactly when the next symbol is a terminal and the input has a token at the edge's end equal to it, and that edge is the corrected scanned edge; otherwise nothing (token differs, input exhausted, or no terminal next) |
| `Edges.Completed` | src/earley.rs:359-367 | the waiting edge's production with the dot one further, spanning from the waiting edge's start to the completed edge's end, with the completed edge appended to the history; when the symbol passed over is a nonterminal it is appended to the matched nonterminals |
| `Edges.PredictEdgesOk` | src/earley.rs:315-322 | predicted edges (dot 0, empty span at the predicting edge's end, empty history) satisfy the edge invariant |
| `Edges.ScanEdgeOk` | src/earley.rs:328-339 | every edge the scan step yields (corrected: history kept) satisfies the edge invariant, keeps the start and ends one token later |
| `Edges.ScanAsWrittenLosesHistory` | src/earley.rs:330-335 | as written, scanning from any well-formed edge that has already matched a nonterminal gives an edge that breaks the invariant |
| `Edges.ScanAsWrittenBreaksInvariant` | src/earley.rs:330-335 | as written, scanning `b` in `S -> A . b` gives an edge with no history although `A` is matched, breaking the invariant; the corrected scan keeps it |
| `Edges.ScanAsWrittenDropsSubtree` | src/earley.rs:330-335 | as written, the tree for `S -> A b` over "ab" loses the `A` subtree: `S(b)`; corrected, it is `S(A(a), b)` |
| `Edges.CompletedOk` | src/earley.rs:359-367 | advancing a waiting edge over a complete edge starting where it ends satisfies the invariant and spans `[waiting.start, done.end]` |
| `Edges.CompletedInjective` | src/earley.rs:354-367 | two different waiting edges never complete into the same edge |
| `Edges.CollectCompletions` | src/earley.rs:351-372 | the complete step's candidates are exactly the advanced copies of the edges waiting for the completed nonterminal at its start, each once |
| `Edges.GenerateDerivationTree` | src/earley.rs:178-195 | computes the derivation tree: root labelled with the edge's nonterminal, the history's trees in order, then one leaf per rhs terminal |
| `Edges.TerminalLeavesLabels` | src/earley.rs:185-189 | the leaves pushed for a rhs are labelled with its terminals, in rhs order |
| `Edges.DerivationTreeShape` | src/earley.rs:178-195 | for a well-formed complete edge the root is its nonterminal and there is one child per rhs symbol: the nonterminals in order, then the terminals in order |
| `Earley.ProductionsOfMembers` | src/earley.rs:234-240 | a production is listed under `x` exactly when it is in the grammar with left-hand side `x` |
| `Earley.GroupByLhs` | src/earley.rs:234-240 | the map has a key exactly for the nonterminals with productions, each mapped to its productions in grammar order |
| `Earley.AdmittedSpec` | src/earley.rs:384-399 | the dedup gate, applied to a sequence of edges, admits exactly the edges not yet seen, each once |
| `Earley.DuplicateStartProductionSeededTwice` | src/earley.rs:242-254 | as written, a start production listed twice seeds the same edge twice; if it derives the empty string the seed is a full parse of the empty input, so it would be recorded twice; through the gate it is seeded once |
| `Earley.Chart.constructor` | src/earley.rs:242-264 | (corrected) worklist = start productions' seeds (dot 0, span [0,0], empty history) through the gate; seen set = the same edges; no complete derivations; the chart invariant holds |
| `Earley.Chart.AddEdge` | src/earley.rs:384-390 | a seen edge changes nothing; a new edge is appended to the worklist and inserted in the set; the invariant is kept |
| `Earley.Chart.AddEdges` | src/earley.rs:392-399 | the set grows by the given edges and the worklist by exactly the admitted ones, in order |
| `Earley.Chart.Predict` | src/earley.rs:309-326 | adds, for each production of the expected nonterminal, an edge with dot 0 on the empty span at the edge's end |
| `Earley.Chart.Scan` | src/earley.rs:328-339 | adds the advanced edge (corrected: history kept) exactly when `input[end]` is the expected terminal |
| `Earley.Chart.Complete` | src/earley.rs:341-375 | records the edge iff it is a full parse (start nonterminal, span [0, input length]); enqueues exactly the unseen completions of the waiting edges, each once, in unspecified order |
| `Earley.Chart.ProcessOne` | src/earley.rs:305-382 | empty worklist: panic, nothing changes; otherwise pops exactly the front edge and returns it after the predict, scan (corrected: history kept) or complete step (or the missing-production panic); the set only grows and derivations are only appended |
| `Earley.Chart.ProcessAll` | src/earley.rs:294-298 | runs steps until the worklist is empty or the fuel is spent, stopping at a missing-production panic; keeps the invariant |
| `Earley.Chart.CompleteDerivations` | src/earley.rs:401-403 | every recorded derivation is a distinct, complete, well-formed edge of the start nonterminal spanning the whole input |
| `Earley.Chart.GenerateDerivationTrees` | src/earley.rs:405-410 | one tree per complete derivation, in order, each rooted at the start nonterminal with one child per rhs symbol |
| `Earley.NewChart` | src/earley.rs:229-265 | fails with the start-productions panic exactly when no production has the start nonterminal as lhs; otherwise a fresh valid chart, grammar grouped by lhs and seeded as the constructor states |
| `Prototype.GenerateDottedRules` | src/main.rs:89-99 | every enumerated rule belongs to a listed production and has its dot within that rhs; there is at least one rule per production |
| `Prototype.GenerateDottedRulesLength` | src/main.rs:89-99 | the enumeration has the sum over productions of rhs length + 1 rules |
| `Prototype.GenerateDottedRulesAt` | src/main.rs:89-99 | production `j`'s rules come right after those of the productions before it, with dot 0, 1, ..., up to the rhs length, in order |
| `Prototype.GenerateDottedRulesMembers` | src/main.rs:93-96 | a dotted rule is enumerated exactly when its production is in the grammar and its dot is at most the rhs length |
| `Prototype.PushNotDup` | src/main.rs:101-107 | an edge already present leaves the chart unchanged; otherwise the chart is the old one plus the edge; existing entries never change, duplicate-freedom and valid history indices are kept |

## Left out

- `process_all` termination is not proved. Edge equality includes the history, so a unit cycle such as `S -> S | a` yields ever-deeper histories that the gate never stops. `Earley.Chart.ProcessAll` therefore takes a `fuel` bound, and its result says whether the worklist emptied.
- Earley.Chart.ProcessAll: the fuel bound means it does not model an unbounded run; it states the invariant, monotonicity, and that `Success(true)` means an empty worklist.
- The trace recorder (`set_trace`, `add_to_trace_chart`, `trace_chart`, src/earley.rs:267-292) is diagnostic only and does not affect parse results.
- `more_to_process` is the loop guard of `ProcessAll`.
- `Production::new` and the field accessors are the datatype constructors and fields.
- All `Display` implementations and `src/tree.rs` (ASCII rendering) are human-facing formatting. `Tree::new` is the `Tree` datatype constructor.
- The prototype's `main` driver (src/main.rs:109-337) is a hard-coded demonstration with console output.
- Rust hashing and the `Hash` bounds are left out. The only choice hash order makes is the order in which the complete step enqueues its new edges, and the model leaves it unspecified. The worklist order follows from that choice, and so do the order of the complete derivations and of the trees `generate_derivation_trees` returns. Grammar `S -> X Y | X Z`, `X -> a`, `Y -> c`, `Z -> c` over "ac" records its two derivations in either order. The model states the set of edges each step enqueues and the chart invariant, not one particular order.
- Prototype.PushNotDup: the `&mut Vec` is passed in and returned as a value, so aliasing of the vector is not modelled.
- Derivation trees put all nonterminal children before all terminal leaves, as the source does. They are not interleaved in rhs order. A rule with a terminal before a nonterminal (`S -> a B`) gets children `B, a`. The model keeps this order.
- Reconstructing a tree terminates structurally, since a history holds smaller edges. The zero-width cycle concern does not arise for values.

## Findings

| source | as written | input that shows it | evidently intended | confidence | as-written member | corrected member |
|---|---|---|---|---|---|---|
| src/earley.rs:330-335 | the scan step builds the advanced edge with `history: Vec::new()`, discarding the children already matched | grammar `S -> A b`, `A -> a`, input `a b`: the only complete derivation is `S -> A b .` with an empty history, so its tree is `S(b)` | keep `edge.history`, since terminals add no history entry: tree `S(A(a), b)` | high, not executed | `Edges.ScanEdgeAsWritten`, shown in general by `Edges.ScanAsWrittenLosesHistory` and on the example by `Edges.ScanAsWrittenBreaksInvariant` and `Edges.ScanAsWrittenDropsSubtree` | `Edges.ScanEdge`, proved by `Edges.ScanEdgeOk` and used by `Earley.Chart.Scan` |
| src/earley.rs:242-254 | `new` pushes each start production's seed onto the worklist without the dedup gate | productions `S -> ` (empty) listed twice, empty input: the seed is enqueued twice, so the same complete derivation is recorded twice | seed through the gate, like every other edge, so that no edge is enqueued or recorded twice | medium, not executed | `Earley.SeedWorklistAsWritten`, shown by `Earley.DuplicateStartProductionSeededTwice` | `Earley.Chart.constructor`, whose `Valid()` includes a duplicate-free worklist and duplicate-free complete derivations |
