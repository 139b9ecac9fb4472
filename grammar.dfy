/**
 * The grammar model of the Earley parser (src/earley.rs): symbols, productions and
 * dotted rules. A dotted rule never has its dot past the end of the right-hand side;
 * the operations that would put it there fail fast, which is modelled as `None`.
 */
module Grammar {
  import opened Wrappers

  /** A grammar symbol: a nonterminal to be expanded, or a terminal token. */
  datatype Symbol<N, T> = Nonterminal(nonterminal: N) | Terminal(terminal: T)

  /** A rewrite rule `lhs -> rhs`. */
  datatype Production<N, T> = Production(lhs: N, rhs: seq<Symbol<N, T>>)
  {
    /** Places the dot before `rhs[dotPos]`; a dot past the end of `rhs` panics. */
    function IntoDottedRule(dotPos: nat): (r: Option<DottedRule<N, T>>)
      ensures r.Some? <==> dotPos <= |rhs|
      ensures r.Some? ==> r.value.production == this && r.value.dotPos == dotPos
      ensures r.Some? ==> r.value.WellFormed() && (r.value.IsComplete() <==> dotPos == |rhs|)
    {
      if dotPos > |rhs| then None else Some(DottedRule(this, dotPos))
    }
  }

  /** A production with a dot: `rhs[..dotPos]` is matched, `rhs[dotPos..]` is still expected. */
  datatype DottedRule<N, T> = DottedRule(production: Production<N, T>, dotPos: nat)
  {
    /** The invariant every dotted rule of the parser keeps. */
    predicate WellFormed()
    {
      dotPos <= |production.rhs|
    }

    /** The whole right-hand side has been matched. */
    predicate IsComplete()
      ensures WellFormed() ==> (IsComplete() <==> dotPos == |production.rhs|)
    {
      dotPos >= |production.rhs|
    }

    /** The symbol right after the dot, if there is one. */
    function NextSymbol(): (s: Option<Symbol<N, T>>)
      ensures s.None? <==> IsComplete()
      ensures s.Some? ==> dotPos < |production.rhs| && s.value == production.rhs[dotPos]
    {
      if dotPos >= |production.rhs| then None else Some(production.rhs[dotPos])
    }

    /** Moves the dot over one symbol; advancing a complete rule panics. */
    function AdvancedDot(): (r: Option<DottedRule<N, T>>)
      ensures r.None? <==> IsComplete()
      ensures r.Some? ==> r.value.production == production && r.value.dotPos == dotPos + 1
      ensures r.Some? ==> r.value.WellFormed()
    {
      if dotPos >= |production.rhs| then None else Some(DottedRule(production, dotPos + 1))
    }

    /** The nonterminals of the matched prefix, in order: what a history must account for. */
    function MatchedNonterminals(): seq<N>
      requires WellFormed()
    {
      Nonterminals(production.rhs[..dotPos])
    }
  }

  /** The nonterminal a symbol contributes to a history: one for a nonterminal, none for a terminal. */
  function NonterminalOf<N, T>(s: Symbol<N, T>): seq<N>
  {
    match s
    case Nonterminal(x) => [x]
    case Terminal(_) => []
  }

  /** The nonterminals of a symbol sequence, in order. */
  function Nonterminals<N, T>(syms: seq<Symbol<N, T>>): seq<N>
  {
    if syms == [] then []
    else Nonterminals(syms[..|syms| - 1]) + NonterminalOf(syms[|syms| - 1])
  }

  /** The terminal symbols of a symbol sequence, in order. */
  function TerminalSymbols<N, T>(syms: seq<Symbol<N, T>>): seq<Symbol<N, T>>
  {
    if syms == [] then []
    else TerminalSymbols(syms[..|syms| - 1]) + (if syms[|syms| - 1].Terminal? then [syms[|syms| - 1]] else [])
  }

  /** The nonterminals as symbols. */
  function AsSymbols<N, T>(ns: seq<N>): (syms: seq<Symbol<N, T>>)
  {
    seq(|ns|, k requires 0 <= k < |ns| => Nonterminal(ns[k]))
  }

  /** Extending a prefix by one symbol extends its nonterminals by that symbol's contribution. */
  lemma NonterminalsSnoc<N, T>(syms: seq<Symbol<N, T>>, i: nat)
    requires i < |syms|
    ensures Nonterminals(syms[..i + 1]) == Nonterminals(syms[..i]) + NonterminalOf(syms[i])
  {
    assert syms[..i + 1][..i] == syms[..i];
  }

  /** Every symbol is either a nonterminal or a terminal, so the two filters split the sequence. */
  lemma {:induction false} PartitionLength<N, T>(syms: seq<Symbol<N, T>>)
    ensures |Nonterminals(syms)| + |TerminalSymbols(syms)| == |syms|
  {
    if syms != [] {
      PartitionLength(syms[..|syms| - 1]);
    }
  }

  /** Advancing the dot over a symbol adds exactly that symbol's nonterminal to the matched ones. */
  lemma AdvanceMatched<N, T>(r: DottedRule<N, T>)
    requires r.WellFormed() && !r.IsComplete()
    ensures r.AdvancedDot().value.MatchedNonterminals()
         == r.MatchedNonterminals() + NonterminalOf(r.NextSymbol().value)
  {
    NonterminalsSnoc(r.production.rhs, r.dotPos);
  }

  /** Advances the dot `k` times, failing as soon as one advance fails. */
  function AdvanceBy<N, T>(r: DottedRule<N, T>, k: nat): Option<DottedRule<N, T>>
    decreases k
  {
    if k == 0 then Some(r)
    else
      match r.AdvancedDot()
      case None => None
      case Some(next) => AdvanceBy(next, k - 1)
  }

  /**
   * The two fail-fast operations agree: advancing the dot `k` times from the dot at `d`
   * succeeds exactly when a dot at `d + k` may be placed, and lands on that rule.
   */
  lemma {:induction false} AdvanceByAgreesWithInto<N, T>(p: Production<N, T>, d: nat, k: nat)
    requires d <= |p.rhs|
    ensures AdvanceBy(p.IntoDottedRule(d).value, k) == p.IntoDottedRule(d + k)
    decreases k
  {
    if k > 0 {
      if d < |p.rhs| {
        AdvanceByAgreesWithInto(p, d + 1, k - 1);
      }
    }
  }
}
