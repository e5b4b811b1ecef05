/** Facts about sequences shared by the recorders of draw commands and passes. */
module Seqs {
  /** Appending in two steps is appending the concatenation of the two parts. */
  lemma Assoc<T>(a: seq<T>, b: seq<T>, c: seq<T>)
    ensures (a + b) + c == a + (b + c)
  {
  }
}
