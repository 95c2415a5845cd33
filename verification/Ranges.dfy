/** Half-open byte ranges, and the test that decides whether two of them may be locked together. */
module Ranges {
  /** The upper bound `ftruncate` locks to: the largest file offset. */
  const LLONG_MAX: nat := 0x7fff_ffff_ffff_ffff

  datatype Range = Range(lo: nat, hi: nat)

  /** The branches of `ranges_intersect`, in its order. */
  predicate Intersects(a: Range, b: Range) {
    if a.lo >= a.hi then false
    else if b.lo >= b.hi then false
    else if a.hi <= b.lo then false
    else if b.hi <= a.lo then false
    else true
  }

  predicate Covers(r: Range, x: nat) {
    r.lo <= x < r.hi
  }

  /** The test answers exactly whether some byte lies in both ranges. */
  lemma IntersectsMeansSharedByte(a: Range, b: Range)
    ensures Intersects(a, b) <==> exists x: nat :: Covers(a, x) && Covers(b, x)
  {
    if Intersects(a, b) {
      var x := if a.lo < b.lo then b.lo else a.lo;
      assert Covers(a, x) && Covers(b, x);
    }
  }
}
