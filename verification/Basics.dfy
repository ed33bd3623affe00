/** What several modules share. */
module Basics {

  datatype Option<+T> = None | Some(value: T)

  /** Concatenation is associative; the solver is better told than left to find out. */
  lemma Associate<T>(a: seq<T>, b: seq<T>, c: seq<T>)
    ensures (a + b) + c == a + (b + c)
  {
  }
}
