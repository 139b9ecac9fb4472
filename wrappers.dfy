/** Failure-carrying values used for the parser's fail-fast paths. */
module Wrappers {

  /** A value that may be absent; `None` stands for the source's panics on contract violations. */
  datatype Option<+T> = None | Some(value: T)

  /** A successful value or an error. */
  datatype Result<+R, +E> = Success(value: R) | Failure(error: E)
}

/** Small facts about sequences shared by the chart engine and the prototype. */
module Seqs {

  /** No element occurs twice. */
  predicate NoDup<E(==)>(s: seq<E>)
  {
    forall i, j :: 0 <= i < j < |s| ==> s[i] != s[j]
  }

  /** The set of elements of a sequence. */
  function Elems<E>(s: seq<E>): set<E>
  {
    set x | x in s
  }
}
