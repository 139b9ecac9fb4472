/**
 * The two list helpers of the earlier prototype (src/main.rs): enumerating every dotted
 * rule of a grammar, and appending an edge to a chart unless it is already there. The
 * prototype's edges refer to their history by an index into the chart, so an append that
 * never rewrites existing entries keeps every stored index pointing at the same edge.
 */
module Prototype {
  import opened Wrappers
  import opened Seqs

  /** A symbol of the prototype grammar. */
  datatype Sym = T(terminal: string) | Nt(nonterminal: string)

  /** A production `lhs -> rhs`. */
  datatype Prod = Prod(lhs: string, rhs: seq<Sym>)

  /** A production with the dot before `rhs[dotPos]`. */
  datatype DottedRule = DottedRule(prod: Prod, dotPos: nat)

  /** A chart entry; `hist` is the index in the chart of the edge that completed it, if any. */
  datatype ChartEdge = ChartEdge(rule: DottedRule, start: nat, end: nat, hist: Option<nat>)

  /** The dotted rules of one production: dot positions 0 through |rhs|, in order. */
  function DotsOf(p: Prod): seq<DottedRule>
  {
    seq(|p.rhs| + 1, i requires 0 <= i <= |p.rhs| => DottedRule(p, i))
  }

  /** generate_dotted_rules: the dotted rules of every production, production by production. */
  function GenerateDottedRules(prods: seq<Prod>): (r: seq<DottedRule>)
    ensures forall k :: 0 <= k < |r| ==> r[k].prod in prods && r[k].dotPos <= |r[k].prod.rhs|
    ensures |r| >= |prods|
  {
    if prods == [] then [] else DotsOf(prods[0]) + GenerateDottedRules(prods[1..])
  }

  /** The number of dotted rules the productions have: the sum of |rhs| + 1. */
  function DotCount(prods: seq<Prod>): nat
  {
    if prods == [] then 0 else |prods[0].rhs| + 1 + DotCount(prods[1..])
  }

  /** There is one dotted rule per dot position of every production. */
  lemma {:induction false} GenerateDottedRulesLength(prods: seq<Prod>)
    ensures |GenerateDottedRules(prods)| == DotCount(prods)
  {
    if prods != [] {
      GenerateDottedRulesLength(prods[1..]);
    }
  }

  /**
   * The order of the enumeration: the rules of production `j` start right after those of
   * the productions before it, and run through the dot positions in increasing order.
   */
  lemma {:induction false} GenerateDottedRulesAt(prods: seq<Prod>, j: nat, i: nat)
    requires j < |prods| && i <= |prods[j].rhs|
    ensures DotCount(prods[..j]) + i < |GenerateDottedRules(prods)|
    ensures GenerateDottedRules(prods)[DotCount(prods[..j]) + i] == DottedRule(prods[j], i)
  {
    GenerateDottedRulesLength(prods);
    GenerateDottedRulesLength(prods[1..]);
    if j == 0 {
      assert prods[..0] == [];
    } else {
      assert prods[..j][1..] == prods[1..][..j - 1];
      GenerateDottedRulesAt(prods[1..], j - 1, i);
    }
  }

  /** A dotted rule is enumerated exactly when its production is in the grammar and its dot lies within the rhs. */
  lemma {:induction false} GenerateDottedRulesMembers(prods: seq<Prod>, r: DottedRule)
    ensures r in GenerateDottedRules(prods) <==> r.prod in prods && r.dotPos <= |r.prod.rhs|
  {
    if prods != [] {
      GenerateDottedRulesMembers(prods[1..], r);
      assert prods == [prods[0]] + prods[1..];
      if r.prod == prods[0] && r.dotPos <= |r.prod.rhs| {
        assert DotsOf(prods[0])[r.dotPos] == r;
      }
    }
  }

  /** Every history index stored in the chart names an entry of the chart. */
  predicate HistoryIndicesValid(chart: seq<ChartEdge>)
  {
    forall k :: 0 <= k < |chart| && chart[k].hist.Some? ==> chart[k].hist.value < |chart|
  }

  /**
   * push_not_dup: searches the chart for an equal edge and appends the new one only if
   * there is none. The chart, a vector updated in place in the source, is passed in and
   * returned.
   */
  method PushNotDup(chart: seq<ChartEdge>, edgeToAdd: ChartEdge) returns (updated: seq<ChartEdge>)
    ensures edgeToAdd in chart ==> updated == chart
    ensures edgeToAdd !in chart ==> updated == chart + [edgeToAdd]
    ensures |updated| == |chart| + (if edgeToAdd in chart then 0 else 1)
    ensures updated[..|chart|] == chart
    ensures edgeToAdd in updated
    ensures NoDup(chart) ==> NoDup(updated)
    ensures HistoryIndicesValid(chart) && (edgeToAdd.hist.Some? ==> edgeToAdd.hist.value < |chart|)
            ==> HistoryIndicesValid(updated)
  {
    var i := 0;
    while i < |chart| && chart[i] != edgeToAdd
      invariant 0 <= i <= |chart|
      invariant edgeToAdd !in chart[..i]
    {
      assert chart[..i + 1] == chart[..i] + [chart[i]];
      i := i + 1;
    }
    if i == |chart| {
      assert chart[..i] == chart;
      updated := chart + [edgeToAdd];
    } else {
      updated := chart;
    }
  }
}
