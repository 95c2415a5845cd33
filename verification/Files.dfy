/** The contents of one regular file, and the two kinds of call that change them.

    A file is its bytes; its length is the length of the sequence.  A byte past the
    end reads as zero, which is also the value of every byte that a write past the
    end or a longer `ftruncate` adds (lseek() and ftruncate() of IEEE Std
    1003.1-2017, System Interfaces). */
module Files {
  import opened Ranges

  type Byte = b: int | 0 <= b < 256
  type File = seq<Byte>

  /** `At` is the zero-extended view of a file. */
  function At(f: File, i: nat): Byte {
    if i < |f| then f[i] else 0
  }

  function Max(a: nat, b: nat): nat {
    if a < b then b else a
  }

  /** A complete `pwrite`: nothing for an empty buffer, and a zero-filled gap when it starts past the end. */
  function PWrite(f: File, off: nat, data: seq<Byte>): (r: File)
    ensures |r| == if data == [] then |f| else Max(|f|, off + |data|)
    ensures forall i: nat :: At(r, i) == if off <= i < off + |data| then data[i - off] else At(f, i)
  {
    if data == [] then f
    else seq(Max(|f|, off + |data|), i requires 0 <= i => if off <= i < off + |data| then data[i - off] else At(f, i))
  }

  function Truncate(f: File, len: nat): (r: File)
    ensures |r| == len
    ensures forall i: nat :: At(r, i) == if i < len then At(f, i) else 0
  {
    seq(len, i requires 0 <= i => At(f, i))
  }

  /** What one interposed call does to a file: `write` and `pwrite` put bytes, `ftruncate` cuts or extends. */
  datatype Op = Put(off: nat, data: seq<Byte>) | Cut(len: nat)

  /** Offsets fit `off_t`; the longest file the kernel accepts ends before LLONG_MAX. */
  predicate ValidOp(op: Op) {
    match op
    case Put(off, data) => off + |data| <= LLONG_MAX
    case Cut(len) => len < LLONG_MAX
  }

  function Apply(op: Op, f: File): File {
    match op
    case Put(off, data) => PWrite(f, off, data)
    case Cut(len) => Truncate(f, len)
  }

  /** The byte range the manager locks around the call. */
  function RangeOf(op: Op): Range {
    match op
    case Put(off, data) => Range(off, off + |data|)
    case Cut(len) => Range(len, LLONG_MAX)
  }

  /** The locked bytes are exactly those that the call can change. */
  lemma RangeIsWhatMayChange(op: Op, x: nat)
    requires ValidOp(op) && x < LLONG_MAX
    ensures Covers(RangeOf(op), x) <==> exists f :: At(Apply(op, f), x) != At(f, x)
  {
    if Covers(RangeOf(op), x) {
      var other: Byte := if op.Put? && op.data[x - op.off] == 1 then 2 else 1;
      var f: File := seq(x + 1, _ => other);
      assert At(f, x) == other && At(Apply(op, f), x) != other;
    }
  }

  /** Files with the same length and the same zero-extended bytes are the same file. */
  lemma SameFile(a: File, b: File)
    requires |a| == |b| && forall i: nat :: i < |a| ==> At(a, i) == At(b, i)
    ensures a == b
  {
    forall i | 0 <= i < |a|
      ensures a[i] == b[i]
    {
      assert At(a, i) == At(b, i);
    }
  }

  /** Two calls that may hold their ranges at the same time commute on every file:
      the destination may apply them in the other order. */
  lemma DisjointOpsCommute(p: Op, q: Op, f: File)
    requires ValidOp(p) && ValidOp(q)
    requires !Intersects(RangeOf(p), RangeOf(q))
    ensures Apply(p, Apply(q, f)) == Apply(q, Apply(p, f))
  {
    SameFile(Apply(p, Apply(q, f)), Apply(q, Apply(p, f)));
  }

  function ApplyAll(ops: seq<Op>, f: File): File {
    if ops == [] then f else ApplyAll(ops[1..], Apply(ops[0], f))
  }

  ghost predicate LocksAllow(ops: seq<Op>) {
    && (forall op :: op in ops ==> ValidOp(op))
    && forall i, j :: 0 <= i < j < |ops| ==> !Intersects(RangeOf(ops[i]), RangeOf(ops[j]))
  }

  lemma {:induction false} ApplyFirstOrLast(ops: seq<Op>, op: Op, f: File)
    requires ValidOp(op) && forall p :: p in ops ==> ValidOp(p) && !Intersects(RangeOf(p), RangeOf(op))
    ensures ApplyAll(ops, Apply(op, f)) == Apply(op, ApplyAll(ops, f))
  {
    if ops != [] {
      DisjointOpsCommute(ops[0], op, f);
      ApplyFirstOrLast(ops[1..], op, Apply(ops[0], f));
    }
  }

  lemma {:induction false} ApplyConcat(a: seq<Op>, b: seq<Op>, f: File)
    ensures ApplyAll(a + b, f) == ApplyAll(b, ApplyAll(a, f))
  {
    if a == [] {
      assert a + b == b;
    } else {
      assert (a + b)[1..] == a[1..] + b;
      ApplyConcat(a[1..], b, Apply(a[0], f));
    }
  }

  function Without(ops: seq<Op>, i: nat): seq<Op>
    requires i < |ops|
  {
    ops[..i] + ops[i + 1..]
  }

  lemma MoveToFront(ops: seq<Op>, i: nat, f: File)
    requires i < |ops| && LocksAllow(ops)
    ensures ApplyAll(ops, f) == ApplyAll(Without(ops, i), Apply(ops[i], f))
  {
    var a, op, b := ops[..i], ops[i], ops[i + 1..];
    assert ops == a + ([op] + b);
    ApplyConcat(a, [op] + b, f);
    ApplyConcat([op], b, ApplyAll(a, f));
    ApplyFirstOrLast(a, op, f);
    ApplyConcat(a, b, Apply(op, f));
  }

  lemma WithoutKeepsLocks(ops: seq<Op>, i: nat)
    requires i < |ops| && LocksAllow(ops)
    ensures LocksAllow(Without(ops, i))
  {
    hide Intersects, RangeOf, ValidOp;
    assert forall k :: 0 <= k < |ops| - 1 ==> Without(ops, i)[k] == ops[if k < i then k else k + 1];
  }

  lemma WithoutRemovesOne(ops: seq<Op>, i: nat)
    requires i < |ops|
    ensures multiset(Without(ops, i)) == multiset(ops) - multiset{ops[i]}
  {
    assert ops == ops[..i] + [ops[i]] + ops[i + 1..];
  }

  /** Calls that may all hold their ranges at once give the same file in every order. */
  lemma {:induction false} AnyOrderGivesTheSameFile(ops: seq<Op>, ops': seq<Op>, f: File)
    requires multiset(ops) == multiset(ops') && LocksAllow(ops)
    ensures ApplyAll(ops, f) == ApplyAll(ops', f)
    decreases |ops|
  {
    assert |ops'| == |multiset(ops')| == |multiset(ops)| == |ops|;
    if ops != [] {
      hide LocksAllow;
      var op, rest' := ops'[0], ops'[1..];
      assert ops' == [op] + rest';
      assert op in multiset(ops);
      var i :| 0 <= i < |ops| && ops[i] == op;
      WithoutKeepsLocks(ops, i);
      WithoutRemovesOne(ops, i);
      MoveToFront(ops, i, f);
      AnyOrderGivesTheSameFile(Without(ops, i), rest', Apply(op, f));
    }
  }

  /** Repeating a call changes nothing. */
  lemma ApplyTwice(op: Op, f: File)
    ensures Apply(op, Apply(op, f)) == Apply(op, f)
  {
    SameFile(Apply(op, Apply(op, f)), Apply(op, f));
  }

  /** Overlapping writes need the lock: in the two orders they leave different files. */
  lemma OverlappingWritesDoNotCommute(off: nat, a: seq<Byte>, b: seq<Byte>, k: nat, f: File)
    requires k < |a| && k < |b| && a[k] != b[k]
    ensures Intersects(RangeOf(Put(off, a)), RangeOf(Put(off, b)))
    ensures Apply(Put(off, a), Apply(Put(off, b), f)) != Apply(Put(off, b), Apply(Put(off, a), f))
  {
    assert At(Apply(Put(off, a), Apply(Put(off, b), f)), off + k) == a[k];
    assert At(Apply(Put(off, b), Apply(Put(off, a), f)), off + k) == b[k];
  }
}
