/** The mirror half of one call: what `destination_file::pwrite` and the manager's `write` and `pwrite`
    really put into the backup when the kernel writes less than it was asked to, or nothing at all. */
module MirrorHalf {
  import opened Ranges
  import opened Files

  // ----- destination_file::pwrite -----

  /** What the kernel may answer to the successive pwrite calls that have `nbyte` bytes left to write. */
  predicate Legal(nbyte: nat, answers: seq<int>) {
    nbyte > 0 ==>
      && answers != [] && -1 <= answers[0] <= nbyte
      && (answers[0] > 0 ==> Legal(nbyte - answers[0], answers[1..]))
  }

  /** No call failed, or wrote nothing. */
  predicate Succeeds(nbyte: nat, answers: seq<int>)
    requires Legal(nbyte, answers)
  {
    nbyte > 0 ==> answers[0] > 0 && Succeeds(nbyte - answers[0], answers[1..])
  }

  /** The first kernel call that fails or writes nothing. */
  predicate FailsAt(answers: seq<int>, k: nat) {
    k < |answers| && answers[k] <= 0 && forall j :: 0 <= j < k ==> answers[j] > 0
  }

  lemma FailsLater(answers: seq<int>)
    requires answers != [] && answers[0] > 0
    ensures forall k: nat :: FailsAt(answers[1..], k) ==> FailsAt(answers, k + 1)
  {
  }

  /** What the call returns, when a call that fails sets errno to `errno`. */
  function Code(nbyte: nat, answers: seq<int>, errno: int): (r: int)
    requires Legal(nbyte, answers) && errno > 0
    ensures r == 0 <==> Succeeds(nbyte, answers)
    ensures r != 0 ==> exists k: nat :: FailsAt(answers, k) && r == if answers[k] == 0 then -1 else errno
  {
    if nbyte == 0 then 0
    else if answers[0] == -1 then errno
    else if answers[0] == 0 then -1
    else
      FailsLater(answers);
      Code(nbyte - answers[0], answers[1..], errno)
  }

  /** The bytes that reach the file, in order: every retry starts again at the front of the buffer. */
  function Laid(buf: seq<Byte>, nbyte: nat, answers: seq<int>): (r: seq<Byte>)
    requires nbyte <= |buf| && Legal(nbyte, answers)
    ensures |r| <= nbyte && (Succeeds(nbyte, answers) ==> |r| == nbyte)
  {
    if nbyte == 0 || answers[0] <= 0 then []
    else buf[..answers[0]] + Laid(buf, nbyte - answers[0], answers[1..])
  }

  lemma PWriteTwice(f: File, off: nat, a: seq<Byte>, b: seq<Byte>)
    ensures PWrite(PWrite(f, off, a), off + |a|, b) == PWrite(f, off, a + b)
  {
    SameFile(PWrite(PWrite(f, off, a), off + |a|, b), PWrite(f, off, a + b));
  }

  /** One round of the loop: the next answer, and what is left to it. */
  lemma NextAnswer(buf: seq<Byte>, nbyte: nat, answers: seq<int>, k: nat, errno: int)
    requires 0 < nbyte <= |buf| && k <= |answers| && Legal(nbyte, answers[k..]) && errno > 0
    ensures k < |answers| && -1 <= answers[k] <= nbyte
    ensures answers[k] > 0 ==>
      && Legal(nbyte - answers[k], answers[k + 1..])
      && Code(nbyte, answers[k..], errno) == Code(nbyte - answers[k], answers[k + 1..], errno)
      && Laid(buf, nbyte, answers[k..]) == buf[..answers[k]] + Laid(buf, nbyte - answers[k], answers[k + 1..])
    ensures answers[k] <= 0 ==>
      Code(nbyte, answers[k..], errno) == (if answers[k] == -1 then errno else -1)
        && Laid(buf, nbyte, answers[k..]) == []
  {
    assert answers[k..][1..] == answers[k + 1..];
  }

  lemma NothingLeft(buf: seq<Byte>, answers: seq<int>, errno: int)
    requires errno > 0
    ensures Legal(0, answers) && Code(0, answers, errno) == 0 && Laid(buf, 0, answers) == []
  {
  }

  lemma NothingWritten(f: File, off: nat)
    ensures PWrite(f, off, []) == f
  {
  }

  class DestinationFile {
    var contents: File

    constructor (contents: File)
      ensures this.contents == contents
    {
      this.contents := contents;
    }

    method PWrite(buf: seq<Byte>, offset: nat, answers: seq<int>, errno: int) returns (r: int)
      requires Legal(|buf|, answers) && errno > 0
      modifies this
      ensures r == Code(|buf|, answers, errno)
      ensures contents == Files.PWrite(old(contents), offset, Laid(buf, |buf|, answers))
    {
      hide Legal, Code, Laid, Files.PWrite;
      assert answers[0..] == answers;
      NothingWritten(old(contents), offset);
      var nbyte: nat, off: nat, k := |buf|, offset, 0;
      ghost var done: seq<Byte> := [];
      while nbyte > 0
        invariant nbyte <= |buf| && k <= |answers| && Legal(nbyte, answers[k..])
        invariant Code(|buf|, answers, errno) == Code(nbyte, answers[k..], errno)
        invariant off == offset + |done| && contents == Files.PWrite(old(contents), offset, done)
        invariant Laid(buf, |buf|, answers) == done + Laid(buf, nbyte, answers[k..])
      {
        NextAnswer(buf, nbyte, answers, k, errno);
        assert done + [] == done;
        var wr := answers[k];
        if wr == -1 {
          return errno;
        }
        if wr == 0 {
          return -1;
        }
        PWriteTwice(old(contents), offset, done, buf[..wr]);
        contents := Files.PWrite(contents, off, buf[..wr]);
        done := done + buf[..wr];
        k := k + 1;
        nbyte := nbyte - wr;
        off := off + wr;
      }
      NothingLeft(buf, answers[k..], errno);
      assert done + [] == done;
      return 0;
    }

    /** `answer` is 0, or the errno of an ftruncate that failed. */
    method Truncate(length: nat, answer: int) returns (r: int)
      modifies this
      ensures r == answer
      ensures contents == if r == 0 then Files.Truncate(old(contents), length) else old(contents)
    {
      r := answer;
      if answer == 0 {
        contents := Files.Truncate(contents, length);
      }
    }
  }

  /** Writing data of one length at one place gives the same file only if it is the same data. */
  lemma PWriteTellsData(f: File, off: nat, a: seq<Byte>, b: seq<Byte>)
    requires |a| == |b| && PWrite(f, off, a) == PWrite(f, off, b)
    ensures a == b
  {
    forall i | 0 <= i < |a|
      ensures a[i] == b[i]
    {
      assert At(PWrite(f, off, a), off + i) == At(PWrite(f, off, b), off + i);
    }
  }

  /** A mirror that reports success is right exactly when the repeated front of the buffer equals the rest of it. */
  lemma MirrorRightIff(f: File, off: nat, buf: seq<Byte>, answers: seq<int>)
    requires Legal(|buf|, answers) && Succeeds(|buf|, answers)
    ensures PWrite(f, off, Laid(buf, |buf|, answers)) == PWrite(f, off, buf) <==> Laid(buf, |buf|, answers) == buf
  {
    if PWrite(f, off, Laid(buf, |buf|, answers)) == PWrite(f, off, buf) {
      PWriteTellsData(f, off, Laid(buf, |buf|, answers), buf);
    }
  }

  predicate Uniform(buf: seq<Byte>) {
    forall i :: 0 <= i < |buf| ==> buf[i] == buf[0]
  }

  lemma {:induction false} UniformIsLaid(buf: seq<Byte>, nbyte: nat, answers: seq<int>)
    requires Uniform(buf) && nbyte <= |buf| && Legal(nbyte, answers) && Succeeds(nbyte, answers)
    ensures Laid(buf, nbyte, answers) == buf[..nbyte]
    decreases nbyte
  {
    if nbyte > 0 {
      UniformIsLaid(buf, nbyte - answers[0], answers[1..]);
    }
  }

  ghost predicate AlwaysMirrored(buf: seq<Byte>) {
    forall answers | Legal(|buf|, answers) && Succeeds(|buf|, answers) :: Laid(buf, |buf|, answers) == buf
  }

  /** So only a buffer of equal bytes is mirrored rightly whatever the kernel's short writes are:
      any other buffer has a split in two that is reported as a success and leaves the wrong bytes. */
  lemma OnlyUniformBuffersAreSafe(buf: seq<Byte>)
    ensures AlwaysMirrored(buf) <==> Uniform(buf)
  {
    if Uniform(buf) {
      forall answers | Legal(|buf|, answers) && Succeeds(|buf|, answers)
        ensures Laid(buf, |buf|, answers) == buf
      {
        UniformIsLaid(buf, |buf|, answers);
      }
    } else {
      var j :| 0 <= j < |buf| && buf[j] != buf[0];
      var answers := [j, |buf| - j];
      assert answers[1..] == [|buf| - j];
      assert Legal(|buf| - j, answers[1..]) && Succeeds(|buf| - j, answers[1..]);
      assert Laid(buf, |buf| - j, answers[1..]) == buf[..|buf| - j] + [];
      assert Laid(buf, |buf|, answers)[j] == buf[0];
    }
  }

  /** One complete kernel write mirrors any buffer. */
  lemma CompleteWriteIsRight(buf: seq<Byte>, answers: seq<int>)
    requires Legal(|buf|, answers) && (buf == [] || answers[0] == |buf|)
    ensures Succeeds(|buf|, answers) && Laid(buf, |buf|, answers) == buf
  {
    if buf != [] {
      assert buf[..|buf|] == buf && Laid(buf, 0, answers[1..]) == [];
    }
  }

  // ----- manager::write and manager::pwrite -----

  /** The source after the kernel answered `n` to the application's own call. */
  function SourceAfter(f: File, off: nat, buf: seq<Byte>, n: int): File
    requires -1 <= n <= |buf|
  {
    if n > 0 then PWrite(f, off, buf[..n]) else f
  }

  /** The destination after the mirror half, itself complete: `write` mirrors the whole buffer whatever `n` is,
      `pwrite` mirrors it whenever `n` is positive. */
  function DestinationAfter(f: File, off: nat, buf: seq<Byte>, n: int, viaWrite: bool): File
    requires -1 <= n <= |buf|
  {
    if viaWrite || n > 0 then PWrite(f, off, buf) else f
  }

  function Written(n: int): nat {
    if n > 0 then n else 0
  }

  /** The bytes the kernel did not write were in the file already. */
  predicate RestWasThere(f: File, off: nat, buf: seq<Byte>, n: int)
    requires -1 <= n <= |buf|
  {
    Written(n) == |buf| || (off + |buf| <= |f| && f[off + Written(n)..off + |buf|] == buf[Written(n)..])
  }

  lemma RestByte(f: File, off: nat, buf: seq<Byte>, n: int, i: nat)
    requires -1 <= n <= |buf| && RestWasThere(f, off, buf, n) && off + Written(n) <= i < off + |buf|
    ensures At(f, i) == buf[i - off]
  {
    var m := Written(n);
    assert f[off + m..off + |buf|][i - off - m] == f[i] && buf[m..][i - off - m] == buf[i - off];
  }

  lemma ShortWriteSame(f: File, off: nat, buf: seq<Byte>, n: int)
    requires -1 <= n <= |buf| && RestWasThere(f, off, buf, n)
    ensures SourceAfter(f, off, buf, n) == PWrite(f, off, buf)
  {
    var m := Written(n);
    if m == |buf| {
      assert buf[..m] == buf;
    } else {
      forall i: nat | off + m <= i < off + |buf|
        ensures At(f, i) == buf[i - off]
      {
        RestByte(f, off, buf, n, i);
      }
      hide RestWasThere;
      SameFile(SourceAfter(f, off, buf, n), PWrite(f, off, buf));
    }
  }

  lemma ShortWriteTells(f: File, off: nat, buf: seq<Byte>, n: int)
    requires -1 <= n <= |buf| && SourceAfter(f, off, buf, n) == PWrite(f, off, buf)
    ensures RestWasThere(f, off, buf, n)
  {
    var m := Written(n);
    if m < |buf| {
      forall i | 0 <= i < |buf| - m
        ensures off + |buf| <= |f| && f[off + m..off + |buf|][i] == buf[m..][i]
      {
        assert At(SourceAfter(f, off, buf, n), off + m + i) == At(PWrite(f, off, buf), off + m + i);
      }
      assert off + |buf| <= |f|;
    }
  }

  /** A destination that equals the source before the call equals it after exactly when the kernel wrote
      everything, or what it left out was in the file already, or `pwrite` saw that nothing was written. */
  lemma MirrorFollowsSourceIff(f: File, off: nat, buf: seq<Byte>, n: int, viaWrite: bool)
    requires -1 <= n <= |buf|
    ensures DestinationAfter(f, off, buf, n, viaWrite) == SourceAfter(f, off, buf, n) <==>
            RestWasThere(f, off, buf, n) || (!viaWrite && n <= 0)
  {
    if RestWasThere(f, off, buf, n) {
      ShortWriteSame(f, off, buf, n);
      assert n <= 0 ==> SourceAfter(f, off, buf, n) == f;
    } else if DestinationAfter(f, off, buf, n, viaWrite) == SourceAfter(f, off, buf, n) && (viaWrite || n > 0) {
      ShortWriteTells(f, off, buf, n);
    }
  }

  /** A `write` that fails at the end of a file lengthens the backup and not the file. */
  lemma FailedWriteIsMirrored(f: File, buf: seq<Byte>)
    requires buf != []
    ensures SourceAfter(f, |f|, buf, -1) == f
    ensures DestinationAfter(f, |f|, buf, -1, true) == f + buf
  {
    var d := DestinationAfter(f, |f|, buf, -1, true);
    forall i | 0 <= i < |d|
      ensures d[i] == (f + buf)[i]
    {
      assert At(d, i) == d[i];
    }
  }
}
