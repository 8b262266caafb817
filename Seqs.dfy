/** Facts about sequences that several proofs of the model rely on. */
module Seqs {

  /** Concatenation regroups; stated once so that proofs need not rediscover it elementwise. */
  lemma AppendAssoc<T>(a: seq<T>, b: seq<T>, c: seq<T>)
    ensures a + b + c == a + (b + c)
  {
  }
}
