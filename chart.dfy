/**
 * The chart engine of the Earley parser (src/earley.rs `Chart`): a FIFO worklist of
 * edges still to process, the set of every edge seen (the dedup gate), the grammar
 * indexed by left-hand side, and the complete derivations found so far. Each call of
 * ProcessOne pops the front edge and predicts, scans or completes it.
 */
module Earley {
  import opened Wrappers
  import opened Seqs
  import opened Grammar
  import opened Edges

  /** The engine's fatal errors, panics in the source. */
  datatype Panic<N> = NoStartingProductions | NoProductionFor(nonterminal: N) | NoProcessingLeft

  // ---------------------------------------------------------------------------
  // The grammar indexed by left-hand side

  /** The productions of `x`, in grammar order. */
  function ProductionsOf<N(==), T>(prods: seq<Production<N, T>>, x: N): seq<Production<N, T>>
  {
    if prods == [] then []
    else
      ProductionsOf(prods[..|prods| - 1], x)
      + (if prods[|prods| - 1].lhs == x then [prods[|prods| - 1]] else [])
  }

  /** A production is listed under `x` exactly when it is in the grammar with left-hand side `x`. */
  lemma {:induction false} ProductionsOfMembers<N, T>(prods: seq<Production<N, T>>, x: N)
    ensures forall p :: p in ProductionsOf(prods, x) <==> p in prods && p.lhs == x
  {
    if prods != [] {
      var init := prods[..|prods| - 1];
      ProductionsOfMembers(init, x);
      assert prods == init + [prods[|prods| - 1]];
    }
  }

  /** Every production listed under a nonterminal derives that nonterminal. */
  ghost predicate GroupedByLhs<N, T>(m: map<N, seq<Production<N, T>>>)
  {
    forall x, p :: x in m && p in m[x] ==> p.lhs == x
  }

  /** The loop of Chart::new that files each production under its left-hand side, keeping grammar order. */
  method GroupByLhs<N(==), T>(productions: seq<Production<N, T>>) returns (m: map<N, seq<Production<N, T>>>)
    ensures forall x :: x in m <==> ProductionsOf(productions, x) != []
    ensures forall x :: x in m ==> m[x] == ProductionsOf(productions, x)
    ensures GroupedByLhs(m)
  {
    m := map[];
    var i := 0;
    while i < |productions|
      invariant 0 <= i <= |productions|
      invariant forall x :: x in m <==> ProductionsOf(productions[..i], x) != []
      invariant forall x :: x in m ==> m[x] == ProductionsOf(productions[..i], x)
    {
      var p := productions[i];
      assert productions[..i + 1][..i] == productions[..i];
      var listed := if p.lhs in m then m[p.lhs] else [];
      m := m[p.lhs := listed + [p]];
      i := i + 1;
    }
    assert productions[..i] == productions;
    forall x, p | x in m && p in m[x]
      ensures p.lhs == x
    {
      ProductionsOfMembers(productions, x);
    }
  }

  // ---------------------------------------------------------------------------
  // The dedup gate

  /** What the gate lets through from `es`, in order, when `seen` holds the edges already present. */
  function Admitted<E(==)>(seen: set<E>, es: seq<E>): seq<E>
  {
    if es == [] then []
    else
      var init, last := es[..|es| - 1], es[|es| - 1];
      Admitted(seen, init) + (if last in seen || last in init then [] else [last])
  }

  /** Passing one more edge through the gate: it is admitted exactly when it is neither seen nor earlier in the batch. */
  lemma GateStep<E>(seen: set<E>, es: seq<E>, i: nat)
    requires i < |es|
    ensures Elems(es[..i + 1]) == Elems(es[..i]) + {es[i]}
    ensures Admitted(seen, es[..i + 1])
         == Admitted(seen, es[..i]) + (if es[i] in seen + Elems(es[..i]) then [] else [es[i]])
  {
    assert es[..i + 1][..i] == es[..i];
  }

  /** The gate admits each new edge exactly once and nothing already seen. */
  lemma {:induction false} AdmittedSpec<E>(seen: set<E>, es: seq<E>)
    ensures Elems(Admitted(seen, es)) == Elems(es) - seen
    ensures NoDup(Admitted(seen, es))
  {
    if es != [] {
      var init, last := es[..|es| - 1], es[|es| - 1];
      AdmittedSpec(seen, init);
      assert es == init + [last];
      assert Elems(es) == Elems(init) + {last};
      var prior := Admitted(seen, init);
      if last in seen || last in init {
        assert Admitted(seen, es) == prior;
      } else {
        assert Admitted(seen, es) == prior + [last];
        assert last !in Elems(prior);
        assert Elems(prior + [last]) == Elems(prior) + {last};
      }
    }
  }

  /** The worklist Chart::new builds as written: every start production's seed, duplicates included. */
  function SeedWorklistAsWritten<N, T>(startProductions: seq<Production<N, T>>): seq<ChartEdge<N, T>>
  {
    PredictEdges(startProductions, 0)
  }

  /** `s -> ` (the empty string), and its seed edge. */
  function EmptyProduction<N, T>(s: N): Production<N, T>
  {
    Production(s, [])
  }

  function EmptySeed<N, T>(s: N): ChartEdge<N, T>
  {
    ChartEdge(DottedRule(EmptyProduction(s), 0), 0, 0, [])
  }

  /**
   * A start production listed twice is seeded twice as written. When it derives the empty
   * string, its seed is complete and spans the whole of an empty input, so each copy would
   * be recorded as a complete derivation. Through the dedup gate the seed is enqueued once.
   */
  lemma DuplicateStartProductionSeededTwice<N, T>(s: N)
    ensures SeedWorklistAsWritten([EmptyProduction<N, T>(s), EmptyProduction(s)]) == [EmptySeed(s), EmptySeed(s)]
    ensures !NoDup(SeedWorklistAsWritten([EmptyProduction<N, T>(s), EmptyProduction(s)]))
    ensures EmptySeed<N, T>(s).rule.IsComplete() && EmptySeed<N, T>(s).Lhs() == s
    ensures EmptySeed<N, T>(s).start == 0 && EmptySeed<N, T>(s).end == 0
    ensures Admitted({}, PredictEdges([EmptyProduction<N, T>(s), EmptyProduction(s)], 0)) == [EmptySeed(s)]
  {
    var seed := EmptySeed<N, T>(s);
    var es := PredictEdges([EmptyProduction<N, T>(s), EmptyProduction(s)], 0);
    assert es == [seed, seed];
    assert es[0] == es[1];
    assert es[..1] == [seed];
    assert Admitted({}, [seed]) == [seed];
  }

  // ---------------------------------------------------------------------------
  // The chart

  class Chart<N(==), T(==)> {
    /** The tokens to parse. */
    const input: seq<T>
    /** The start nonterminal (the source's `N::start()`). */
    const start: N
    /** The productions of each nonterminal, in grammar order. */
    const productionsByLhs: map<N, seq<Production<N, T>>>
    /** Every edge ever added: the dedup gate. */
    var allEdges: set<ChartEdge<N, T>>
    /** Edges still to predict, scan or complete, front first. */
    var toProcess: seq<ChartEdge<N, T>>
    /** Complete derivations, in discovery order. */
    var completeDerivations: seq<ChartEdge<N, T>>

    /** A complete edge of the start nonterminal over the whole input. */
    predicate IsParse(e: ChartEdge<N, T>)
    {
      e.rule.IsComplete() && e.Lhs() == start && e.start == 0 && e.end == |input|
    }

    /** The edge's production is one of the grammar's. */
    predicate FromGrammar(e: ChartEdge<N, T>)
    {
      e.Lhs() in productionsByLhs && e.rule.production in productionsByLhs[e.Lhs()]
    }

    /** What every edge of the chart satisfies. */
    predicate Admissible(e: ChartEdge<N, T>)
    {
      EdgeOk(e, |input|) && FromGrammar(e)
    }

    /**
     * The chart invariant: every edge is admissible, the worklist holds distinct edges
     * that have all passed the gate, and the complete derivations are distinct full parses
     * that have already left the worklist.
     */
    ghost predicate Valid()
      reads this
    {
      && GroupedByLhs(productionsByLhs)
      && (forall e :: e in allEdges ==> Admissible(e))
      && (forall e :: e in toProcess ==> e in allEdges)
      && NoDup(toProcess)
      && (forall e :: e in completeDerivations ==> e in allEdges && e !in toProcess && IsParse(e))
      && NoDup(completeDerivations)
    }

    /** Seeds the worklist with one edge per start production, through the dedup gate. */
    constructor (input: seq<T>, productionsByLhs: map<N, seq<Production<N, T>>>, start: N)
      requires GroupedByLhs(productionsByLhs) && start in productionsByLhs
      ensures Valid()
      ensures this.input == input && this.start == start && this.productionsByLhs == productionsByLhs
      ensures toProcess == Admitted({}, PredictEdges(productionsByLhs[start], 0))
      ensures allEdges == Elems(PredictEdges(productionsByLhs[start], 0))
      ensures completeDerivations == []
    {
      this.input := input;
      this.start := start;
      this.productionsByLhs := productionsByLhs;
      allEdges := {};
      toProcess := [];
      completeDerivations := [];
      new;
      var seeds := PredictEdges(productionsByLhs[start], 0);
      PredictEdgesOk(productionsByLhs[start], 0, |input|);
      AddEdges(seeds);
    }

    /** add_edge: an edge not seen before goes to the back of the worklist and into the set; a seen one is dropped. */
    method AddEdge(e: ChartEdge<N, T>)
      requires Valid() && Admissible(e)
      modifies this
      ensures Valid()
      ensures e in old(allEdges) ==> allEdges == old(allEdges) && toProcess == old(toProcess)
      ensures e !in old(allEdges) ==> allEdges == old(allEdges) + {e} && toProcess == old(toProcess) + [e]
      ensures completeDerivations == old(completeDerivations)
    {
      if e !in allEdges {
        toProcess := toProcess + [e];
        allEdges := allEdges + {e};
      }
    }

    /** add_edges: passes each edge through the gate in order. */
    method AddEdges(es: seq<ChartEdge<N, T>>)
      requires Valid() && forall e :: e in es ==> Admissible(e)
      modifies this
      ensures Valid()
      ensures allEdges == old(allEdges) + Elems(es)
      ensures toProcess == old(toProcess) + Admitted(old(allEdges), es)
      ensures completeDerivations == old(completeDerivations)
    {
      ghost var seen, queued := allEdges, toProcess;
      var i := 0;
      while i < |es|
        invariant 0 <= i <= |es|
        invariant Valid()
        invariant allEdges == seen + Elems(es[..i])
        invariant toProcess == queued + Admitted(seen, es[..i])
        invariant completeDerivations == old(completeDerivations)
      {
        var e := es[i];
        GateStep(seen, es, i);
        AddEdge(e);
        i := i + 1;
      }
      assert es[..i] == es;
    }

    /** The state ProcessOne leaves after popping `before[0]` from `before`, with `seen` and `found` the set and derivations before. */
    ghost predicate Stepped(before: seq<ChartEdge<N, T>>, seen: set<ChartEdge<N, T>>,
                            found: seq<ChartEdge<N, T>>, r: Result<ChartEdge<N, T>, Panic<N>>)
      requires before != []
      reads this
    {
      var e, rest := before[0], before[1..];
      match e.rule.NextSymbol()
      case Some(Nonterminal(x)) =>
        if x !in productionsByLhs then
          && r == Failure(NoProductionFor(x))
          && toProcess == rest && allEdges == seen && completeDerivations == found
        else
          var predicted := PredictEdges(productionsByLhs[x], e.end);
          && r == Success(e)
          && allEdges == seen + Elems(predicted)
          && toProcess == rest + Admitted(seen, predicted)
          && completeDerivations == found
      case Some(Terminal(_)) =>
        var scanned := ScanEdges(e, input);
        && r == Success(e)
        && allEdges == seen + Elems(scanned)
        && toProcess == rest + Admitted(seen, scanned)
        && completeDerivations == found
      case None =>
        var completed := CompleteSet(seen, e);
        && r == Success(e)
        && completeDerivations == found + (if IsParse(e) then [e] else [])
        && allEdges == seen + completed
        && |toProcess| >= |rest| && toProcess[..|rest|] == rest
        && Elems(toProcess[|rest|..]) == completed - seen
        && NoDup(toProcess[|rest|..])
    }

    /** Predict: adds, for each production of `x`, a fresh edge on an empty span where `e` ends. */
    method Predict(e: ChartEdge<N, T>, x: N)
      requires Valid() && Admissible(e) && x in productionsByLhs
      modifies this
      ensures Valid()
      ensures allEdges == old(allEdges) + Elems(PredictEdges(productionsByLhs[x], e.end))
      ensures toProcess == old(toProcess) + Admitted(old(allEdges), PredictEdges(productionsByLhs[x], e.end))
      ensures completeDerivations == old(completeDerivations)
    {
      var predicted := PredictEdges(productionsByLhs[x], e.end);
      PredictEdgesOk(productionsByLhs[x], e.end, |input|);
      forall c | c in predicted
        ensures FromGrammar(c)
      {
        var k :| 0 <= k < |predicted| && predicted[k] == c;
        assert productionsByLhs[x][k] in productionsByLhs[x];
      }
      AddEdges(predicted);
    }

    /** Scan: adds `e` advanced over the next token when that token is the terminal `e` expects. */
    method Scan(e: ChartEdge<N, T>)
      requires Valid() && Admissible(e)
      modifies this
      ensures Valid()
      ensures allEdges == old(allEdges) + Elems(ScanEdges(e, input))
      ensures toProcess == old(toProcess) + Admitted(old(allEdges), ScanEdges(e, input))
      ensures completeDerivations == old(completeDerivations)
    {
      var scanned := ScanEdges(e, input);
      ScanEdgeOk(e, input);
      AddEdges(scanned);
    }

    /**
     * Complete: records `e` when it is a full parse, then advances every edge seen so far
     * that waits for `e`'s nonterminal where `e` starts. The new edges are found by walking
     * the set of edges, so the order they join the worklist in is left open.
     */
    method Complete(e: ChartEdge<N, T>)
      requires Valid() && e in allEdges && e !in toProcess && e !in completeDerivations && e.rule.IsComplete()
      modifies this
      ensures Valid()
      ensures completeDerivations == old(completeDerivations) + (if IsParse(e) then [e] else [])
      ensures allEdges == old(allEdges) + CompleteSet(old(allEdges), e)
      ensures |toProcess| >= |old(toProcess)| && toProcess[..|old(toProcess)|] == old(toProcess)
      ensures Elems(toProcess[|old(toProcess)|..]) == CompleteSet(old(allEdges), e) - old(allEdges)
      ensures NoDup(toProcess[|old(toProcess)|..])
    {
      if e.Lhs() == start && e.start == 0 && e.end == |input| {
        completeDerivations := completeDerivations + [e];
      }
      var completed := CollectCompletions(allEdges, e);
      forall c | c in completed
        ensures Admissible(c)
      {
        assert c in CompleteSet(allEdges, e);
        var waiting :| waiting in allEdges && Waits(waiting, e.Lhs(), e.start) && c == Completed(waiting, e);
        CompletedOk(waiting, e, |input|);
      }
      ghost var before := toProcess;
      AddEdges(completed);
      AdmittedSpec(old(allEdges), completed);
      assert toProcess[|before|..] == Admitted(old(allEdges), completed);
    }

    /**
     * process_one: pops the front edge and predicts (next symbol a nonterminal), scans
     * (next symbol a terminal) or completes (no next symbol) it, returning the popped edge.
     */
    method ProcessOne() returns (r: Result<ChartEdge<N, T>, Panic<N>>)
      requires Valid()
      modifies this
      ensures Valid()
      ensures old(allEdges) <= allEdges
      ensures |completeDerivations| >= |old(completeDerivations)|
      ensures completeDerivations[..|old(completeDerivations)|] == old(completeDerivations)
      ensures old(toProcess) == [] ==>
        && r == Failure(NoProcessingLeft)
        && toProcess == [] && allEdges == old(allEdges) && completeDerivations == old(completeDerivations)
      ensures old(toProcess) != [] ==> Stepped(old(toProcess), old(allEdges), old(completeDerivations), r)
    {
      if toProcess == [] {
        return Failure(NoProcessingLeft);
      }
      var e := toProcess[0];
      toProcess := toProcess[1..];
      assert e in old(toProcess);
      match e.rule.NextSymbol() {
        case Some(Nonterminal(x)) =>
          if x !in productionsByLhs {
            return Failure(NoProductionFor(x));
          }
          Predict(e, x);
        case Some(Terminal(_)) =>
          Scan(e);
        case None =>
          Complete(e);
      }
      r := Success(e);
    }

    /**
     * process_all: processes edges until the worklist is empty, stopping at the first panic.
     * Termination is not guaranteed, so at most `fuel` edges are processed.
     */
    method ProcessAll(fuel: nat) returns (r: Result<bool, Panic<N>>)
      requires Valid()
      modifies this
      ensures Valid()
      ensures old(allEdges) <= allEdges
      ensures |completeDerivations| >= |old(completeDerivations)|
      ensures completeDerivations[..|old(completeDerivations)|] == old(completeDerivations)
      ensures r.Success? ==> (r.value <==> toProcess == [])
      ensures r.Failure? ==> r.error.NoProductionFor?
    {
      var steps := fuel;
      while toProcess != [] && steps > 0
        invariant Valid()
        invariant old(allEdges) <= allEdges
        invariant |completeDerivations| >= |old(completeDerivations)|
        invariant completeDerivations[..|old(completeDerivations)|] == old(completeDerivations)
        decreases steps
      {
        var step := ProcessOne();
        if step.Failure? {
          return Failure(step.error);
        }
        steps := steps - 1;
      }
      r := Success(toProcess == []);
    }

    /** complete_derivations: every recorded derivation is a distinct full parse of the input. */
    function CompleteDerivations(): (ds: seq<ChartEdge<N, T>>)
      reads this
      requires Valid()
      ensures NoDup(ds)
      ensures forall d :: d in ds ==> IsParse(d) && EdgeOk(d, |input|) && d in allEdges
    {
      completeDerivations
    }

    /** generate_derivation_trees: one tree per complete derivation, in order, each rooted at the start nonterminal. */
    method GenerateDerivationTrees() returns (ts: seq<Tree<Symbol<N, T>>>)
      requires Valid()
      ensures |ts| == |completeDerivations|
      ensures forall k :: 0 <= k < |ts| ==> ts[k] == DerivationTree(completeDerivations[k])
      ensures forall k :: 0 <= k < |ts| ==>
        ts[k].value == Nonterminal(start)
        && |ts[k].children| == |completeDerivations[k].rule.production.rhs|
    {
      ts := [];
      var i := 0;
      while i < |completeDerivations|
        invariant 0 <= i <= |completeDerivations|
        invariant |ts| == i
        invariant forall k :: 0 <= k < i ==> ts[k] == DerivationTree(completeDerivations[k])
        invariant forall k :: 0 <= k < i ==>
          ts[k].value == Nonterminal(start)
          && |ts[k].children| == |completeDerivations[k].rule.production.rhs|
      {
        var d := completeDerivations[i];
        assert d in completeDerivations;
        DerivationTreeShape(d, |input|);
        var t := GenerateDerivationTree(d);
        ts := ts + [t];
        i := i + 1;
      }
    }
  }

  /**
   * Chart::new: files the productions by left-hand side and seeds the worklist; a start
   * nonterminal without productions panics.
   */
  method NewChart<N(==,!new), T(==)>(input: seq<T>, productions: seq<Production<N, T>>, start: N)
    returns (r: Result<Chart<N, T>, Panic<N>>)
    ensures r.Failure? <==> forall p :: p in productions ==> p.lhs != start
    ensures r.Failure? ==> r.error == NoStartingProductions
    ensures r.Success? ==>
      && fresh(r.value) && r.value.Valid()
      && r.value.input == input && r.value.start == start
      && (forall x :: x in r.value.productionsByLhs <==> ProductionsOf(productions, x) != [])
      && (forall x :: x in r.value.productionsByLhs ==> r.value.productionsByLhs[x] == ProductionsOf(productions, x))
      && r.value.toProcess == Admitted({}, PredictEdges(ProductionsOf(productions, start), 0))
      && r.value.allEdges == Elems(PredictEdges(ProductionsOf(productions, start), 0))
      && r.value.completeDerivations == []
  {
    var byLhs := GroupByLhs(productions);
    assert start in byLhs <==> exists p :: p in productions && p.lhs == start by {
      ProductionsOfMembers(productions, start);
      if start !in byLhs {
        assert ProductionsOf(productions, start) == [];
      } else {
        assert ProductionsOf(productions, start)[0] in ProductionsOf(productions, start);
      }
    }
    if start !in byLhs {
      return Failure(NoStartingProductions);
    }
    var chart := new Chart(input, byLhs, start);
    r := Success(chart);
  }
}
