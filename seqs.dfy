/** Facts about sequences used when a loop appends to a list. */
module Seqs {
  /** Appending is associative; stated once so that a loop step can use it
      without unfolding what is appended. */
  lemma AppendAssoc<T>(a: seq<T>, b: seq<T>, c: seq<T>)
    ensures (a + b) + c == a + (b + c)
  {
  }
}
