/** What the solver does not see on its own about sequences. */
module Sequences {
  lemma Regroup<T>(x: seq<T>, y: seq<T>, z: seq<T>)
    ensures x + (y + z) == (x + y) + z
  {
  }
}
