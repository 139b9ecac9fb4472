/**
 * Chart edges of the Earley parser (src/earley.rs): an edge is a dotted rule that has
 * matched `input[start..end)`, together with the completed edges (its history) that
 * account for the nonterminals matched so far. Equality is structural and includes the
 * history. This module also holds the edges that the predict, scan and complete steps
 * produce, the invariant those steps keep, and derivation-tree reconstruction.
 */
module Edges {
  import opened Wrappers
  import opened Seqs
  import opened Grammar

  datatype ChartEdge<N, T> = ChartEdge(rule: DottedRule<N, T>, start: nat, end: nat, history: seq<ChartEdge<N, T>>)
  {
    /** The nonterminal this edge derives. */
    function Lhs(): N
    {
      rule.production.lhs
    }
  }

  /**
   * The invariant of an edge over an input of length `n`: the dot is inside the
   * right-hand side, the span lies inside the input, the history holds one complete
   * edge per matched nonterminal (deriving that nonterminal, in order), and the
   * history's spans follow each other inside the edge's own span.
   */
  predicate EdgeOk<N(==), T>(e: ChartEdge<N, T>, n: nat)
    decreases e
  {
    && e.rule.WellFormed()
    && e.start <= e.end <= n
    && |e.history| == |e.rule.MatchedNonterminals()|
    && (forall k :: 0 <= k < |e.history| ==> e.history[k].Lhs() == e.rule.MatchedNonterminals()[k])
    && (forall k :: 0 <= k < |e.history| ==> e.start <= e.history[k].start && e.history[k].end <= e.end)
    && (forall k :: 0 < k < |e.history| ==> e.history[k - 1].end <= e.history[k].start)
    && (forall k :: 0 <= k < |e.history| ==> e.history[k].rule.IsComplete() && EdgeOk(e.history[k], n))
  }

  // ---------------------------------------------------------------------------
  // The edges each step produces

  /** Predict: one fresh edge per production, dot 0, empty span at `pos`, empty history. */
  function PredictEdges<N, T>(prods: seq<Production<N, T>>, pos: nat): (r: seq<ChartEdge<N, T>>)
    ensures |r| == |prods|
    ensures forall k :: 0 <= k < |r| ==>
      r[k].rule == DottedRule(prods[k], 0) && r[k].start == pos && r[k].end == pos && r[k].history == []
  {
    seq(|prods|, k requires 0 <= k < |prods| => ChartEdge(prods[k].IntoDottedRule(0).value, pos, pos, []))
  }

  /** Scan, as the source builds the new edge: the dot and the end advance, the history is emptied. */
  function ScanEdgeAsWritten<N, T>(e: ChartEdge<N, T>): (r: ChartEdge<N, T>)
    requires !e.rule.IsComplete()
    ensures r.rule.production == e.rule.production && r.rule.dotPos == e.rule.dotPos + 1
    ensures r.start == e.start && r.end == e.end + 1
    ensures r.history == []
  {
    ChartEdge(e.rule.AdvancedDot().value, e.start, e.end + 1, [])
  }

  /** Scan, corrected: the dot and the end advance, the history is kept. */
  function ScanEdge<N, T>(e: ChartEdge<N, T>): (r: ChartEdge<N, T>)
    requires !e.rule.IsComplete()
    ensures r.rule.production == e.rule.production && r.rule.dotPos == e.rule.dotPos + 1
    ensures r.start == e.start && r.end == e.end + 1
    ensures r.history == e.history
    ensures e.rule.NextSymbol().value.Terminal? ==> r.rule.MatchedNonterminals() == e.rule.MatchedNonterminals()
  {
    AdvanceMatched(e.rule);
    ChartEdge(e.rule.AdvancedDot().value, e.start, e.end + 1, e.history)
  }

  /** The scan step's output: one edge when the next input token is the expected terminal, none otherwise. */
  function ScanEdges<N, T(==)>(e: ChartEdge<N, T>, input: seq<T>): (r: seq<ChartEdge<N, T>>)
    ensures r != [] <==>
      e.rule.NextSymbol().Some? && e.rule.NextSymbol().value.Terminal?
      && e.end < |input| && input[e.end] == e.rule.NextSymbol().value.terminal
    ensures r != [] ==> r == [ScanEdge(e)]
  {
    match e.rule.NextSymbol()
    case Some(Terminal(t)) => if e.end < |input| && input[e.end] == t then [ScanEdge(e)] else []
    case _ => []
  }

  /** `waiting` expects nonterminal `x` right where a completed edge starting at `pos` begins. */
  predicate Waits<N(==), T(==)>(waiting: ChartEdge<N, T>, x: N, pos: nat)
  {
    waiting.rule.NextSymbol() == Some(Nonterminal(x)) && waiting.end == pos
  }

  /** Complete: `waiting` advances over `done`, spans both, and records `done` in its history. */
  function Completed<N, T>(waiting: ChartEdge<N, T>, done: ChartEdge<N, T>): (r: ChartEdge<N, T>)
    requires !waiting.rule.IsComplete()
    ensures r.rule.production == waiting.rule.production && r.rule.dotPos == waiting.rule.dotPos + 1
    ensures r.start == waiting.start && r.end == done.end
    ensures r.history == waiting.history + [done]
    ensures waiting.rule.NextSymbol().value.Nonterminal? ==>
      r.rule.MatchedNonterminals() == waiting.rule.MatchedNonterminals() + [waiting.rule.NextSymbol().value.nonterminal]
  {
    AdvanceMatched(waiting.rule);
    ChartEdge(waiting.rule.AdvancedDot().value, waiting.start, done.end, waiting.history + [done])
  }

  /** Everything the complete step derives from `done` against the edges seen so far. */
  function CompleteSet<N(==), T(==)>(edges: set<ChartEdge<N, T>>, done: ChartEdge<N, T>): set<ChartEdge<N, T>>
  {
    set waiting | waiting in edges && Waits(waiting, done.Lhs(), done.start) :: Completed(waiting, done)
  }

  /**
   * Collects the complete step's new edges by walking the set of edges (src/earley.rs
   * filter_map over all_edges); the order of the result is the set's iteration order.
   */
  method CollectCompletions<N(==), T(==)>(edges: set<ChartEdge<N, T>>, done: ChartEdge<N, T>)
    returns (found: seq<ChartEdge<N, T>>)
    ensures Elems(found) == CompleteSet(edges, done)
    ensures NoDup(found)
  {
    found := [];
    var pending := edges;
    while pending != {}
      invariant pending <= edges
      invariant Elems(found) == CompleteSet(edges - pending, done)
      invariant NoDup(found)
      decreases pending
    {
      var waiting :| waiting in pending;
      ghost var visited := edges - pending;
      if Waits(waiting, done.Lhs(), done.start) {
        var c := Completed(waiting, done);
        if c in found {
          assert c in CompleteSet(visited, done);
          ghost var other :| other in visited && Waits(other, done.Lhs(), done.start) && Completed(other, done) == c;
          CompletedInjective(other, waiting, done);
          assert false;
        }
        found := found + [c];
      }
      pending := pending - {waiting};
      assert edges - pending == visited + {waiting};
      CompleteSetInsert(visited, waiting, done);
    }
  }

  /** Adding one edge to the edges seen adds at most its own completion. */
  lemma CompleteSetInsert<N, T>(edges: set<ChartEdge<N, T>>, w: ChartEdge<N, T>, done: ChartEdge<N, T>)
    ensures CompleteSet(edges + {w}, done)
         == CompleteSet(edges, done) + (if Waits(w, done.Lhs(), done.start) then {Completed(w, done)} else {})
  {
  }

  /** Two different waiting edges never complete into the same edge. */
  lemma CompletedInjective<N, T>(w1: ChartEdge<N, T>, w2: ChartEdge<N, T>, done: ChartEdge<N, T>)
    requires Waits(w1, done.Lhs(), done.start) && Waits(w2, done.Lhs(), done.start)
    requires Completed(w1, done) == Completed(w2, done)
    ensures w1 == w2
  {
    var h1, h2 := w1.history + [done], w2.history + [done];
    assert w1.history == h1[..|h1| - 1] == h2[..|h2| - 1] == w2.history;
  }

  // ---------------------------------------------------------------------------
  // The steps keep the edge invariant

  /** Predicted edges are well formed wherever the predicting edge ends. */
  lemma PredictEdgesOk<N, T>(prods: seq<Production<N, T>>, pos: nat, n: nat)
    requires pos <= n
    ensures forall k :: 0 <= k < |prods| ==> EdgeOk(PredictEdges(prods, pos)[k], n)
  {
    forall k | 0 <= k < |prods|
      ensures EdgeOk(PredictEdges(prods, pos)[k], n)
    {
      assert prods[k].rhs[..0] == [];
    }
  }

  /** Scanning keeps the invariant: a terminal adds no history entry, and the span grows by the scanned token. */
  lemma ScanEdgeOk<N, T>(e: ChartEdge<N, T>, input: seq<T>)
    requires EdgeOk(e, |input|)
    ensures forall s :: s in ScanEdges(e, input) ==> EdgeOk(s, |input|) && s.start == e.start && s.end == e.end + 1
  {
    if ScanEdges(e, input) != [] {
      AdvanceMatched(e.rule);
    }
  }

  /** Completing keeps the invariant: the waiting edge's history grows by exactly the completed edge. */
  lemma CompletedOk<N, T>(waiting: ChartEdge<N, T>, done: ChartEdge<N, T>, n: nat)
    requires EdgeOk(waiting, n) && EdgeOk(done, n) && done.rule.IsComplete()
    requires Waits(waiting, done.Lhs(), done.start)
    ensures EdgeOk(Completed(waiting, done), n)
    ensures Completed(waiting, done).start == waiting.start && Completed(waiting, done).end == done.end
  {
    AdvanceMatched(waiting.rule);
    var c := Completed(waiting, done);
    assert c.history == waiting.history + [done];
  }

  /** `S -> A . b` over the input "ab", holding the completed edge `A -> a .` for "a". */
  function WaitingForB(): ChartEdge<char, char>
  {
    ChartEdge(DottedRule(Production('S', [Nonterminal('A'), Terminal('b')]), 1), 0, 1, [ChartEdge(DottedRule(Production('A', [Terminal('a')]), 1), 0, 1, [])])
  }

  /** `A -> a .` over the "a" of "ab" is what scanning the predicted `A -> . a` gives. */
  lemma ScannedAOk()
    ensures EdgeOk(ChartEdge(DottedRule(Production('A', [Terminal('a')]), 1), 0, 1, []), 2)
  {
    var predA := ChartEdge(DottedRule(Production('A', [Terminal('a')]), 0), 0, 0, []);
    assert predA.rule.production.rhs[..0] == [];
    assert EdgeOk(predA, 2);
    ScanEdgeOk(predA, ['a', 'b']);
    assert ScanEdge(predA) in ScanEdges(predA, ['a', 'b']);
  }

  /**
   * The edge `S -> A . b` with its history is a well-formed edge over "ab": it is what
   * completing the predicted `S -> . A b` with the scanned `A -> a .` gives.
   */
  lemma WaitingForBOk()
    ensures EdgeOk(WaitingForB(), 2)
    ensures WaitingForB().rule.MatchedNonterminals() == ['A']
  {
    var child := ChartEdge(DottedRule(Production('A', [Terminal('a')]), 1), 0, 1, []);
    ScannedAOk();
    var predS := ChartEdge(DottedRule(Production('S', [Nonterminal('A'), Terminal('b')]), 0), 0, 0, []);
    assert predS.rule.production.rhs[..0] == [];
    assert EdgeOk(predS, 2);
    CompletedOk(predS, child, 2);
    assert Completed(predS, child) == WaitingForB();
  }

  /**
   * The scan step as written breaks the edge invariant of every edge that has matched a
   * nonterminal: the new edge still has that nonterminal left of its dot, but no history.
   */
  lemma ScanAsWrittenLosesHistory<N, T>(e: ChartEdge<N, T>, n: nat)
    requires EdgeOk(e, n) && !e.rule.IsComplete() && e.rule.MatchedNonterminals() != []
    ensures !EdgeOk(ScanEdgeAsWritten(e), n)
  {
    AdvanceMatched(e.rule);
    assert ScanEdgeAsWritten(e).rule == e.rule.AdvancedDot().value;
  }

  /** On the example, the next token is the expected `b`, so the scan step yields one edge. */
  lemma ScanBScans()
    ensures ScanEdges(WaitingForB(), ['a', 'b']) == [ScanEdge(WaitingForB())]
  {
    assert WaitingForB().rule.NextSymbol() == Some(Terminal('b'));
  }

  /** On the example, the corrected scan of `b` keeps the invariant. */
  lemma ScanBKeepsInvariant()
    ensures EdgeOk(ScanEdge(WaitingForB()), 2)
  {
    WaitingForBOk();
    ScanBScans();
    ScanEdgeOk(WaitingForB(), ['a', 'b']);
  }

  /**
   * On the example: scanning `b` in `S -> A . b` over "ab" yields `S -> A b .` with an
   * empty history although `A` has been matched; the corrected step keeps the invariant.
   */
  lemma ScanAsWrittenBreaksInvariant()
    ensures EdgeOk(WaitingForB(), 2)
    ensures ScanEdges(WaitingForB(), ['a', 'b']) == [ScanEdge(WaitingForB())]
    ensures !EdgeOk(ScanEdgeAsWritten(WaitingForB()), 2)
    ensures EdgeOk(ScanEdge(WaitingForB()), 2)
  {
    ScanBScans();
    ScanBKeepsInvariant();
    WaitingForBOk();
    ScanAsWrittenLosesHistory(WaitingForB(), 2);
  }

  /** The derivation tree of the scanned edge as written has lost the `A` subtree. */
  lemma ScanAsWrittenDropsSubtree()
    ensures DerivationTree(ScanEdgeAsWritten(WaitingForB())) == Tree(Nonterminal('S'), [Tree(Terminal('b'), [])])
    ensures DerivationTree(ScanEdge(WaitingForB()))
         == Tree(Nonterminal('S'), [Tree(Nonterminal('A'), [Tree(Terminal('a'), [])]), Tree(Terminal('b'), [])])
  {
    var e := WaitingForB();
    var rhsS := e.rule.production.rhs;
    var rhsA := e.history[0].rule.production.rhs;
    assert rhsS[..1] == [Nonterminal('A')] && rhsS[..2] == rhsS;
    assert TerminalLeaves(rhsS) == [Tree(Terminal('b'), [])];
    assert rhsA[..0] == [];
    assert TerminalLeaves(rhsA) == [Tree(Terminal('a'), [])];
  }

  // ---------------------------------------------------------------------------
  // Derivation trees

  /** An ordered labelled tree. */
  datatype Tree<V> = Tree(value: V, children: seq<Tree<V>>)

  /** The labels of a sequence of trees. */
  function Labels<V>(ts: seq<Tree<V>>): seq<V>
  {
    seq(|ts|, k requires 0 <= k < |ts| => ts[k].value)
  }

  /** One leaf per terminal of `syms`, in order. */
  function TerminalLeaves<N, T>(syms: seq<Symbol<N, T>>): seq<Tree<Symbol<N, T>>>
  {
    if syms == [] then []
    else
      TerminalLeaves(syms[..|syms| - 1])
      + (if syms[|syms| - 1].Terminal? then [Tree(syms[|syms| - 1], [])] else [])
  }

  /**
   * The derivation tree of an edge: labelled by its nonterminal, with the trees of its
   * history first and then one leaf per terminal of the right-hand side.
   */
  function DerivationTree<N, T>(e: ChartEdge<N, T>): Tree<Symbol<N, T>>
    decreases e
  {
    Tree(Nonterminal(e.Lhs()),
         seq(|e.history|, k requires 0 <= k < |e.history| => DerivationTree(e.history[k]))
         + TerminalLeaves(e.rule.production.rhs))
  }

  /** ChartEdge::generate_derivation_tree: history trees by recursion, then a loop pushing terminal leaves. */
  method GenerateDerivationTree<N, T>(e: ChartEdge<N, T>) returns (t: Tree<Symbol<N, T>>)
    ensures t == DerivationTree(e)
    decreases e
  {
    var children: seq<Tree<Symbol<N, T>>> := [];
    var i := 0;
    while i < |e.history|
      invariant 0 <= i <= |e.history|
      invariant children == seq(i, k requires 0 <= k < i => DerivationTree(e.history[k]))
    {
      var child := GenerateDerivationTree(e.history[i]);
      children := children + [child];
      i := i + 1;
    }
    ghost var fromHistory := children;
    var rhs := e.rule.production.rhs;
    var j := 0;
    while j < |rhs|
      invariant 0 <= j <= |rhs|
      invariant children == fromHistory + TerminalLeaves(rhs[..j])
    {
      assert rhs[..j + 1][..j] == rhs[..j];
      if rhs[j].Terminal? {
        children := children + [Tree(rhs[j], [])];
      }
      j := j + 1;
    }
    assert rhs[..j] == rhs;
    t := Tree(Nonterminal(e.Lhs()), children);
  }

  /** The leaves' labels are the terminals themselves. */
  lemma {:induction false} TerminalLeavesLabels<N, T>(syms: seq<Symbol<N, T>>)
    ensures Labels(TerminalLeaves(syms)) == TerminalSymbols(syms)
  {
    if syms != [] {
      TerminalLeavesLabels(syms[..|syms| - 1]);
    }
  }

  /**
   * The tree of a well-formed complete edge has its nonterminal at the root and exactly one
   * child per right-hand-side symbol: the nonterminals in order, then the terminals in order.
   */
  lemma DerivationTreeShape<N, T>(e: ChartEdge<N, T>, n: nat)
    requires EdgeOk(e, n) && e.rule.IsComplete()
    ensures DerivationTree(e).value == Nonterminal(e.Lhs())
    ensures Labels(DerivationTree(e).children)
         == AsSymbols(Nonterminals(e.rule.production.rhs)) + TerminalSymbols(e.rule.production.rhs)
    ensures |DerivationTree(e).children| == |e.rule.production.rhs|
  {
    var rhs := e.rule.production.rhs;
    assert rhs[..e.rule.dotPos] == rhs;
    TerminalLeavesLabels(rhs);
    PartitionLength(rhs);
    var t := DerivationTree(e);
    var h := |e.history|;
    assert Labels(t.children)[..h] == AsSymbols(Nonterminals(rhs));
    assert Labels(t.children)[h..] == Labels(TerminalLeaves(rhs));
  }
}
