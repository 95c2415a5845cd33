/** What several modules share. */
module Basics {
  datatype Option<+T> = None | Some(value: T)

  /** The size of the copier's buffer, and of the ranges it locks. */
  const BUF_SIZE: nat := 1048576

  /** The elements of a sequence are the first and those of the rest. */
  lemma FirstAndRest<T>(xs: seq<T>)
    requires xs != []
    ensures xs[0] in xs && forall x :: x in xs <==> x == xs[0] || x in xs[1..]
  {
    assert xs == [xs[0]] + xs[1..];
  }
}
