/** An optional value: `None` where a Python function raises or returns nothing. */
module Wrappers {

  datatype Option<+T> = None | Some(value: T)

  /** Concatenation regrouped: the one step of sequence reasoning the verifier is told outright. */
  lemma {:induction false} Assoc<T>(a: seq<T>, b: seq<T>, c: seq<T>)
    ensures a + b + c == a + (b + c)
  {
  }
}
