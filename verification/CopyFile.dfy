/** How the copier copies one file that nobody else changes meanwhile: the two nested loops of
    `copy_file_data` and `copy_file_range`.  MirrorProtocol has the same steps among concurrent calls. */
module CopyFile {
  import opened Basics
  import opened Ranges
  import opened Files

  /** One round of the inner loop: what the poll callback and the kernel's write answer. */
  datatype Answer = Answer(poll: int, wrote: int)

  predicate Goes(a: Answer) {
    a.poll == 0 && a.wrote > 0
  }

  /** A write of a nonempty buffer to a regular file fails or writes something. */
  predicate LegalWrites(left: nat, answers: seq<Answer>) {
    left > 0 ==>
      && answers != [] && answers[0].wrote != 0 && answers[0].wrote <= left
      && (Goes(answers[0]) ==> LegalWrites(left - answers[0].wrote, answers[1..]))
  }

  /** How many of the `left` bytes get written. */
  function Progress(left: nat, answers: seq<Answer>): (n: nat)
    requires LegalWrites(left, answers)
    ensures n <= left
  {
    if left == 0 || !Goes(answers[0]) then 0
    else answers[0].wrote + Progress(left - answers[0].wrote, answers[1..])
  }

  /** read() of up to a buffer: an error, some bytes, or none at end of file and only there. */
  predicate LegalRead(src: File, pos: nat, n: int) {
    -1 <= n <= BUF_SIZE && (n > 0 ==> pos + n <= |src|) && (n == 0 ==> |src| <= pos)
  }

  /** One round of the outer loop: whether copying is still enabled, the read, the writes, and the pause after them. */
  datatype Round = Round(enabled: bool, read: int, answers: seq<Answer>, pause: int)

  predicate Whole(r: Round)
    requires r.read > 0 && LegalWrites(r.read, r.answers)
  {
    Progress(r.read, r.answers) == r.read
  }

  predicate LegalRounds(src: File, pos: nat, rounds: seq<Round>)
    decreases |rounds|
  {
    && rounds != []
    && (rounds[0].enabled ==>
          && LegalRead(src, pos, rounds[0].read)
          && (rounds[0].read > 0 ==>
                && LegalWrites(rounds[0].read, rounds[0].answers)
                && (Whole(rounds[0]) && rounds[0].pause == 0 ==> LegalRounds(src, pos + rounds[0].read, rounds[1..]))))
  }

  /** How many bytes the first writes have written. */
  function Wrote(answers: seq<Answer>, k: nat): int
    requires k <= |answers|
  {
    if k == 0 then 0 else Wrote(answers, k - 1) + answers[k - 1].wrote
  }

  /** In the answers' own terms: the first `k` writes go on; and that is all, and well, or the next answer stops them
      and is returned. */
  predicate EndsAt(nRead: nat, answers: seq<Answer>, k: nat, result: int) {
    && k <= |answers|
    && (forall j :: 0 <= j < k ==> answers[j].poll == 0 && answers[j].wrote > 0)
    && if Wrote(answers, k) == nRead then result == 0
       else k < |answers| && if answers[k].poll != 0 then result == answers[k].poll
                             else answers[k].wrote < 0 && result == 1
  }

  /** How many bytes the first rounds have read. */
  function ReadBy(rounds: seq<Round>): int {
    if rounds == [] then 0 else ReadBy(rounds[..|rounds| - 1]) + rounds[|rounds| - 1].read
  }

  lemma ReadByNext(rounds: seq<Round>, k: nat)
    requires k < |rounds|
    ensures ReadBy(rounds[..k + 1]) == ReadBy(rounds[..k]) + rounds[k].read
  {
    assert rounds[..k + 1][..k] == rounds[..k];
  }

  lemma NextAnswer(left: nat, answers: seq<Answer>, k: nat)
    requires left > 0 && k <= |answers| && LegalWrites(left, answers[k..])
    ensures k < |answers| && answers[k].wrote != 0 && answers[k].wrote <= left
    ensures Goes(answers[k]) ==>
      && LegalWrites(left - answers[k].wrote, answers[k + 1..])
      && Progress(left, answers[k..]) == answers[k].wrote + Progress(left - answers[k].wrote, answers[k + 1..])
    ensures !Goes(answers[k]) ==> Progress(left, answers[k..]) == 0
  {
    assert answers[k..][1..] == answers[k + 1..];
  }

  lemma NextRound(src: File, pos: nat, rounds: seq<Round>, k: nat)
    requires k <= |rounds| && LegalRounds(src, pos, rounds[k..])
    ensures k < |rounds|
    ensures rounds[k].enabled ==> LegalRead(src, pos, rounds[k].read)
    ensures rounds[k].enabled && rounds[k].read > 0 ==> LegalWrites(rounds[k].read, rounds[k].answers)
    ensures rounds[k].enabled && rounds[k].read > 0 && Whole(rounds[k]) && rounds[k].pause == 0 ==>
      LegalRounds(src, pos + rounds[k].read, rounds[k + 1..])
  {
    assert rounds[k..][1..] == rounds[k + 1..];
  }

  lemma WriteNext(f: File, off: nat, buf: seq<Byte>, done: nat, n: nat)
    requires done + n <= |buf|
    ensures PWrite(PWrite(f, off, buf[..done]), off + done, buf[done..done + n]) == PWrite(f, off, buf[..done + n])
  {
    SameFile(PWrite(PWrite(f, off, buf[..done]), off + done, buf[done..done + n]), PWrite(f, off, buf[..done + n]));
  }

  /** Appending the next bytes of the source to a copy of its beginning. */
  lemma CopyGrows(src: File, pos: nat, n: nat)
    requires pos + n <= |src|
    ensures PWrite(src[..pos], pos, src[pos..pos + n]) == src[..pos + n]
  {
    SameFile(PWrite(src[..pos], pos, src[pos..pos + n]), src[..pos + n]);
  }

  class FileCopier {
    var totalWrittenThisFile: nat
    var totalBytesBackedUp: nat
    var sourceOffset: nat      // of the copier's own descriptor of the source
    var dest: File
    var destOffset: nat        // of the destination's descriptor, which only the copier writes through

    constructor (totalBytesBackedUp: nat)
      ensures this.totalBytesBackedUp == totalBytesBackedUp
      ensures dest == [] && sourceOffset == destOffset == totalWrittenThisFile == 0
    {
      this.totalBytesBackedUp := totalBytesBackedUp;
      dest, sourceOffset, destOffset, totalWrittenThisFile := [], 0, 0, 0;
    }

    method CopyFileRange(src: File, nRead: int, answers: seq<Answer>) returns (result: int, nWroteNow: int)
      requires LegalRead(src, sourceOffset, nRead) && (nRead > 0 ==> LegalWrites(nRead, answers))
      modifies this
      ensures var n := if nRead > 0 then Progress(nRead, answers) else 0;
        && dest == PWrite(old(dest), old(destOffset),
                          if nRead > 0 then src[old(sourceOffset)..old(sourceOffset) + n] else [])
        && destOffset == old(destOffset) + n
        && totalWrittenThisFile == old(totalWrittenThisFile) + n && totalBytesBackedUp == old(totalBytesBackedUp) + n
        && (result == 0 <==> nRead == 0 || (nRead > 0 && n == nRead))
      ensures nRead < 0 ==> result == 1
      ensures nRead > 0 ==>
        exists k: nat :: EndsAt(nRead, answers, k, result) && destOffset == old(destOffset) + Wrote(answers, k)
      ensures sourceOffset == old(sourceOffset) + if nRead > 0 then nRead else 0
      ensures result == 0 ==> (nWroteNow == 0 <==> nRead == 0)
    {
      hide LegalWrites, Progress, PWrite;
      NothingToDo(dest, destOffset, answers);
      if nRead == 0 {
        return 0, 0;
      } else if nRead < 0 {
        return 1, 0;
      }
      var buf := src[sourceOffset..sourceOffset + nRead];
      sourceOffset := sourceOffset + nRead;
      var nWroteThisBuf: nat, k := 0, 0;
      nWroteNow := 0;
      assert answers[0..] == answers && buf[..0] == [];
      while nWroteThisBuf < nRead
        modifies `dest, `destOffset, `totalWrittenThisFile, `totalBytesBackedUp
        invariant nWroteThisBuf <= nRead && k <= |answers| && LegalWrites(nRead - nWroteThisBuf, answers[k..])
        invariant Progress(nRead, answers) == nWroteThisBuf + Progress(nRead - nWroteThisBuf, answers[k..])
        invariant dest == PWrite(old(dest), old(destOffset), buf[..nWroteThisBuf])
        invariant destOffset == old(destOffset) + nWroteThisBuf
        invariant totalWrittenThisFile == old(totalWrittenThisFile) + nWroteThisBuf
        invariant totalBytesBackedUp == old(totalBytesBackedUp) + nWroteThisBuf
        invariant nWroteThisBuf > 0 ==> nWroteNow > 0
        invariant forall j :: 0 <= j < k ==> Goes(answers[j])
        invariant Wrote(answers, k) == nWroteThisBuf
      {
        NextAnswer(nRead - nWroteThisBuf, answers, k);
        assert Wrote(answers, k + 1) == Wrote(answers, k) + answers[k].wrote;
        assert buf[..nWroteThisBuf] == src[old(sourceOffset)..old(sourceOffset) + nWroteThisBuf];
        if answers[k].poll != 0 {
          assert EndsAt(nRead, answers, k, answers[k].poll);
          return answers[k].poll, nWroteNow;
        }
        nWroteNow := answers[k].wrote;
        if nWroteNow < 0 {
          assert EndsAt(nRead, answers, k, 1);
          return 1, nWroteNow;
        }
        WriteNext(old(dest), old(destOffset), buf, nWroteThisBuf, nWroteNow);
        dest := PWrite(dest, destOffset, buf[nWroteThisBuf..nWroteThisBuf + nWroteNow]);
        destOffset := destOffset + nWroteNow;
        nWroteThisBuf := nWroteThisBuf + nWroteNow;
        totalWrittenThisFile := totalWrittenThisFile + nWroteNow;
        totalBytesBackedUp := totalBytesBackedUp + nWroteNow;
        k := k + 1;
      }
      NothingToDo(dest, destOffset, answers[k..]);
      assert buf[..nRead] == buf;
      assert EndsAt(nRead, answers, k, 0);
      return 0, nWroteNow;
    }

    /** The destination is always the beginning of the source, and the counters say how much of it.  `last` is the
        round that ends the copy: in those before it copying was enabled and all that was read was written.  The result
        is 0 exactly when that round finds copying disabled or the end of the file, which means that all is copied;
        otherwise it is the answer that stopped the round. */
    method CopyFileData(src: File, rounds: seq<Round>) returns (r: int, disabled: bool, last: nat)
      requires LegalRounds(src, 0, rounds) && dest == [] && sourceOffset == destOffset == 0
      modifies this
      ensures totalWrittenThisFile <= |src| && dest == src[..totalWrittenThisFile]
      ensures totalBytesBackedUp == old(totalBytesBackedUp) + totalWrittenThisFile
      ensures last < |rounds| && (disabled <==> !rounds[last].enabled)
      ensures r == 0 <==> disabled || rounds[last].read == 0
      ensures r == 0 && !disabled ==> dest == src
      ensures !disabled && rounds[last].read < 0 ==> r == 1
      ensures !disabled && rounds[last].read > 0 ==>
        if totalWrittenThisFile < ReadBy(rounds[..last + 1])
        then exists k: nat :: EndsAt(rounds[last].read, rounds[last].answers, k, r)
        else r == rounds[last].pause
      ensures ReadBy(rounds[..last]) <= totalWrittenThisFile
      ensures disabled || rounds[last].read <= 0 ==> totalWrittenThisFile == ReadBy(rounds[..last])
      ensures forall k :: 0 <= k < last ==> rounds[k].enabled && rounds[k].read > 0 && rounds[k].pause == 0
    {
      assert rounds[..0] == [] && ReadBy([]) == 0;
      hide LegalRounds, PWrite, Progress, LegalWrites, ReadBy, EndsAt;
      totalWrittenThisFile := 0;
      last, disabled := 0, false;
      assert rounds[0..] == rounds;
      while true
        invariant last <= |rounds| && LegalRounds(src, totalWrittenThisFile, rounds[last..])
        invariant sourceOffset == destOffset == totalWrittenThisFile <= |src| && dest == src[..totalWrittenThisFile]
        invariant totalBytesBackedUp == old(totalBytesBackedUp) + totalWrittenThisFile
        invariant totalWrittenThisFile == ReadBy(rounds[..last])
        invariant forall k :: 0 <= k < last ==> rounds[k].enabled && rounds[k].read > 0 && rounds[k].pause == 0
        decreases |rounds| - last
      {
        NextRound(src, totalWrittenThisFile, rounds, last);
        ReadByNext(rounds, last);
        if !rounds[last].enabled {
          return 0, true, last;
        }
        CopyRangeGrows(src, sourceOffset, rounds[last]);
        var result, nWroteNow := CopyFileRange(src, rounds[last].read, rounds[last].answers);
        if result != 0 || nWroteNow == 0 {
          return result, false, last;
        }
        if rounds[last].pause != 0 {
          return rounds[last].pause, false, last;
        }
        last := last + 1;
      }
    }
  }

  lemma NothingToDo(f: File, off: nat, answers: seq<Answer>)
    ensures PWrite(f, off, []) == f && LegalWrites(0, answers) && Progress(0, answers) == 0
  {
  }

  lemma CopyRangeGrows(src: File, pos: nat, r: Round)
    requires LegalRead(src, pos, r.read) && (r.read > 0 ==> LegalWrites(r.read, r.answers)) && pos <= |src|
    ensures r.read > 0 ==>
      var n := Progress(r.read, r.answers); PWrite(src[..pos], pos, src[pos..pos + n]) == src[..pos + n]
    ensures PWrite(src[..pos], pos, []) == src[..pos]
  {
    if r.read > 0 {
      CopyGrows(src, pos, Progress(r.read, r.answers));
    }
  }
}
