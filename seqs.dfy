/** Facts about sequences shared by the other modules. */
module Seqs {
  /** Concatenation is associative; stated once so that callers can add one
      block after another without the solver re-deriving it in a large
      context. */
  lemma AppendAssoc<T>(a: seq<T>, b: seq<T>, c: seq<T>)
    ensures a + b + c == a + (b + c)
  {
  }
}
