/** Facts about sequences shared by the move generators' proofs. */
module Seqs {
  /** Sequence concatenation is associative; stated once so that proofs can cite it cheaply. */
  lemma AppendAssoc<T>(p: seq<T>, q: seq<T>, r: seq<T>)
    ensures (p + q) + r == p + (q + r)
  {
  }
}
