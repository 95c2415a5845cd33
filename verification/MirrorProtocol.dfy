/** One file during a backup: any number of `write`, `pwrite` and `ftruncate` calls on the
    application's threads, interleaved with the copier.

    Every call locks its byte range, changes the source, changes the destination (when one is
    attached) and unlocks.  The copier locks the next BUF_SIZE bytes, reads the source, writes
    what it read to the destination in pieces, and unlocks; it stops at end of file.  The two
    halves of a call are separate steps, so the destination applies calls in an order of its own. */
module MirrorProtocol {
  import opened Basics
  import opened Ranges
  import opened Files

  datatype Phase = RangeLocked | SourceDone | MirrorDone

  /** `viaWrite` separates `write`, which mirrors whatever the kernel answered, from `pwrite` and
      `ftruncate`, which skip the mirror half when the source half failed. */
  datatype Call = Call(op: Op, viaWrite: bool, phase: Phase)

  datatype Copier =
    | NotStarted
    | Ready(pos: nat)
    | Locked(pos: nat)
    | Writing(pos: nat, buf: seq<Byte>, done: nat)
    | AtEof(pos: nat)
    | Finished

  /** `dst` is the backup file once it has been created; `attached` says that the source_file has
      a destination object for it. */
  datatype State = State(src: File, dst: Option<File>, attached: bool, calls: seq<Call>, copier: Copier)

  datatype Step =
    | LockCall(op: Op, viaWrite: bool)
    | SourceHalf(i: nat)
    | SourceFails(i: nat)
    | MirrorHalf(i: nat)
    | UnlockCall(i: nat)
    | CreateDestination
    | Detach
    | Reattach
    | CopierStart
    | CopierLock
    | CopierRead(n: nat)
    | CopierWrite(w: nat)
    | CopierUnlock

  predicate HoldsLock(c: Copier) {
    c.Locked? || c.Writing? || c.AtEof?
  }

  /** The copier's lock is a whole buffer wide, however little it reads. */
  function CopierRange(c: Copier): Range
    requires HoldsLock(c)
  {
    Range(c.pos, c.pos + BUF_SIZE)
  }

  /** `lock_range` waits until no held range intersects. */
  predicate RangeFree(s: State, r: Range) {
    && (forall i :: 0 <= i < |s.calls| ==> !Intersects(RangeOf(s.calls[i].op), r))
    && (HoldsLock(s.copier) ==> !Intersects(CopierRange(s.copier), r))
  }

  predicate Enabled(s: State, step: Step) {
    match step
    case LockCall(op, _) =>
      // A destination that was detached is attached again by the open() that lets calls in.
      ValidOp(op) && RangeFree(s, RangeOf(op)) && (s.dst.Some? ==> s.attached)
    case SourceHalf(i) => i < |s.calls| && s.calls[i].phase == RangeLocked
    case SourceFails(i) => i < |s.calls| && s.calls[i].phase == RangeLocked && !s.calls[i].viaWrite
    case MirrorHalf(i) => i < |s.calls| && s.calls[i].phase == SourceDone
    case UnlockCall(i) => i < |s.calls| && s.calls[i].phase == MirrorDone
    case CreateDestination => s.dst.None?
    case Detach => s.attached && s.calls == [] && (s.copier.NotStarted? || s.copier.Finished?)
    case Reattach => s.dst.Some? && !s.attached
    case CopierStart => s.attached && s.copier.NotStarted?
    case CopierLock => s.copier.Ready? && forall i :: 0 <= i < |s.calls| ==>
      !Intersects(RangeOf(s.calls[i].op), Range(s.copier.pos, s.copier.pos + BUF_SIZE))
    case CopierRead(n) =>
      // read() may return fewer bytes than there are, but returns none only at end of file.
      s.copier.Locked? &&
      if |s.src| <= s.copier.pos then n == 0 else 0 < n <= BUF_SIZE && s.copier.pos + n <= |s.src|
    case CopierWrite(w) => s.copier.Writing? && 0 < w && s.copier.done + w <= |s.copier.buf| && s.dst.Some?
    case CopierUnlock => s.copier.AtEof? || (s.copier.Writing? && s.copier.done == |s.copier.buf|)
  }

  function Do(s: State, step: Step): State
    requires Enabled(s, step)
  {
    match step
    case LockCall(op, viaWrite) => s.(calls := s.calls + [Call(op, viaWrite, RangeLocked)])
    case SourceHalf(i) =>
      s.(src := Apply(s.calls[i].op, s.src), calls := s.calls[i := s.calls[i].(phase := SourceDone)])
    case SourceFails(i) => s.(calls := s.calls[i := s.calls[i].(phase := MirrorDone)])
    case MirrorHalf(i) =>
      s.(dst := if s.attached && s.dst.Some? then Some(Apply(s.calls[i].op, s.dst.value)) else s.dst,
         calls := s.calls[i := s.calls[i].(phase := MirrorDone)])
    case UnlockCall(i) => s.(calls := s.calls[..i] + s.calls[i + 1..])
    case CreateDestination => s.(dst := Some([]), attached := true)
    case Detach => s.(attached := false)
    case Reattach => s.(attached := true)
    case CopierStart => s.(copier := Ready(0))
    case CopierLock => s.(copier := Locked(s.copier.pos))
    case CopierRead(n) =>
      var pos := s.copier.pos;
      s.(copier := if n == 0 then AtEof(pos) else Writing(pos, s.src[pos..pos + n], 0))
    case CopierWrite(w) =>
      var Writing(pos, buf, done) := s.copier;
      s.(dst := Some(PWrite(s.dst.value, pos + done, buf[done..done + w])), copier := Writing(pos, buf, done + w))
    case CopierUnlock =>
      s.(copier := if s.copier.AtEof? then Finished else Ready(s.copier.pos + |s.copier.buf|))
  }

  /** The session starts with no backup of the file, whatever its contents. */
  predicate Init(s: State) {
    |s.src| <= LLONG_MAX && s.dst.None? && !s.attached && s.calls == [] && s.copier.NotStarted?
  }

  ghost predicate Reaches(s: State, steps: seq<Step>, t: State)
    decreases |steps|
  {
    if steps == [] then s == t
    else Enabled(s, steps[0]) && Reaches(Do(s, steps[0]), steps[1..], t)
  }

  // ----- what the destination still misses -----

  function Effect(c: Call, f: File): File {
    if c.phase == SourceDone then Apply(c.op, f) else f
  }

  /** The file after the pending mirror halves have been applied to it. */
  function Replay(calls: seq<Call>, f: File): File
    decreases |calls|
  {
    if calls == [] then f else Replay(calls[1..], Effect(calls[0], f))
  }

  /** The destination's view of the source once the first `upTo` bytes have been copied. */
  ghost predicate Agree(src: File, dst: File, upTo: nat) {
    && |dst| <= |src|
    && (|src| <= |dst| || upTo <= |dst|)
    && forall i: nat :: i < upTo ==> At(src, i) == At(dst, i)
  }

  function CopiedUpTo(c: Copier): nat {
    match c
    case NotStarted => 0
    case Ready(pos) => pos
    case Locked(pos) => pos
    case Writing(pos, _, done) => pos + done
    case AtEof(pos) => pos
    case Finished => 0
  }

  predicate Disjoint(calls: seq<Call>) {
    forall i, j :: 0 <= i < j < |calls| ==> !Intersects(RangeOf(calls[i].op), RangeOf(calls[j].op))
  }

  ghost predicate CallsOk(s: State) {
    && Disjoint(s.calls)
    && (forall i :: 0 <= i < |s.calls| ==> ValidOp(s.calls[i].op))
    && (forall i :: 0 <= i < |s.calls| && s.calls[i].phase == SourceDone ==> Apply(s.calls[i].op, s.src) == s.src)
    && (HoldsLock(s.copier) ==>
          forall i :: 0 <= i < |s.calls| ==> !Intersects(RangeOf(s.calls[i].op), CopierRange(s.copier)))
  }

  ghost predicate BufferOk(s: State) {
    s.copier.Writing? ==>
      var Writing(pos, buf, done) := s.copier;
      && 0 < |buf| <= BUF_SIZE && done <= |buf|
      && pos + |buf| <= |s.src|
      && s.src[pos..pos + |buf|] == buf
  }

  ghost predicate DestinationOk(s: State) {
    match s.dst
    case None => s.copier.NotStarted? && !s.attached
    case Some(d) =>
      && (s.attached || (s.calls == [] && (s.copier.NotStarted? || s.copier.Finished?)))
      && Agree(s.src, Replay(s.calls, d), CopiedUpTo(s.copier))
      && (s.copier.AtEof? || s.copier.Finished? ==> Replay(s.calls, d) == s.src)
  }

  ghost predicate Inv(s: State) {
    |s.src| <= LLONG_MAX && CallsOk(s) && BufferOk(s) && DestinationOk(s)
  }

  // ----- replaying pending calls -----

  lemma {:induction false} ReplayConcat(a: seq<Call>, b: seq<Call>, f: File)
    ensures Replay(a + b, f) == Replay(b, Replay(a, f))
    decreases |a|
  {
    if a == [] {
      assert a + b == b;
    } else {
      assert (a + b)[1..] == a[1..] + b;
      ReplayConcat(a[1..], b, Effect(a[0], f));
    }
  }

  lemma ReplayAt(calls: seq<Call>, i: nat, f: File)
    requires i < |calls|
    ensures Replay(calls, f) == Replay(calls[i + 1..], Effect(calls[i], Replay(calls[..i], f)))
  {
    assert calls == calls[..i] + calls[i..];
    ReplayConcat(calls[..i], calls[i..], f);
    assert calls[i..][1..] == calls[i + 1..];
  }

  /** A call whose range is disjoint from every in-flight range commutes with all pending halves. */
  lemma {:induction false} ReplayCommutes(calls: seq<Call>, op: Op, f: File)
    requires ValidOp(op)
    requires forall i :: 0 <= i < |calls| ==> ValidOp(calls[i].op) && !Intersects(RangeOf(calls[i].op), RangeOf(op))
    ensures Replay(calls, Apply(op, f)) == Apply(op, Replay(calls, f))
    decreases |calls|
  {
    if calls != [] {
      if calls[0].phase == SourceDone {
        DisjointOpsCommute(calls[0].op, op, f);
      }
      ReplayCommutes(calls[1..], op, Effect(calls[0], f));
    }
  }

  /** Pending halves whose effect the source already shows leave the source as it is. */
  lemma {:induction false} ReplayFixpoint(calls: seq<Call>, src: File)
    requires forall i :: 0 <= i < |calls| && calls[i].phase == SourceDone ==> Apply(calls[i].op, src) == src
    ensures Replay(calls, src) == src
    decreases |calls|
  {
    if calls != [] {
      assert Effect(calls[0], src) == src;
      ReplayFixpoint(calls[1..], src);
    }
  }

  /** Doing the same call on both sides keeps the agreement. */
  lemma AgreeUnderOp(op: Op, src: File, dst: File, upTo: nat)
    requires Agree(src, dst, upTo)
    ensures Agree(Apply(op, src), Apply(op, dst), upTo)
  {
    forall i: nat | i < upTo
      ensures At(Apply(op, src), i) == At(Apply(op, dst), i)
    {
      assert At(src, i) == At(dst, i);
    }
  }

  lemma {:induction false} AgreeUnderReplay(calls: seq<Call>, src: File, dst: File)
    requires Agree(src, dst, 0)
    ensures Agree(Replay(calls, src), Replay(calls, dst), 0)
    decreases |calls|
  {
    if calls != [] {
      AgreeUnderOp(calls[0].op, src, dst, 0);
      AgreeUnderReplay(calls[1..], Effect(calls[0], src), Effect(calls[0], dst));
    }
  }

  /** With the whole source copied, agreement is equality. */
  lemma AgreeAtEof(src: File, dst: File, upTo: nat)
    requires Agree(src, dst, upTo) && |src| <= upTo
    ensures dst == src
  {
    SameFile(dst, src);
  }

  lemma OthersDisjoint(s: State, i: nat)
    requires Inv(s) && i < |s.calls|
    ensures forall j :: 0 <= j < |s.calls| && j != i ==> !Intersects(RangeOf(s.calls[j].op), RangeOf(s.calls[i].op))
  {
  }

  lemma SourceHalfReplays(s: State, i: nat, d: File)
    requires Inv(s) && Enabled(s, SourceHalf(i))
    ensures Replay(Do(s, SourceHalf(i)).calls, d) == Apply(s.calls[i].op, Replay(s.calls, d))
  {
    var op, calls' := s.calls[i].op, Do(s, SourceHalf(i)).calls;
    OthersDisjoint(s, i);
    ReplayAt(s.calls, i, d);
    ReplayAt(calls', i, d);
    assert calls'[..i] == s.calls[..i] && calls'[i + 1..] == s.calls[i + 1..];
    ReplayCommutes(s.calls[i + 1..], op, Replay(s.calls[..i], d));
  }

  lemma MirrorHalfReplays(s: State, i: nat, d: File)
    requires Inv(s) && Enabled(s, MirrorHalf(i))
    ensures Replay(Do(s, MirrorHalf(i)).calls, Apply(s.calls[i].op, d)) == Replay(s.calls, d)
  {
    var op, calls' := s.calls[i].op, Do(s, MirrorHalf(i)).calls;
    OthersDisjoint(s, i);
    ReplayAt(s.calls, i, d);
    ReplayAt(calls', i, Apply(op, d));
    assert calls'[..i] == s.calls[..i] && calls'[i + 1..] == s.calls[i + 1..];
    ReplayCommutes(s.calls[..i], op, d);
  }

  /** Neither a call that has not changed the source nor one that is mirrored is pending. */
  lemma IdleCallReplays(calls: seq<Call>, calls': seq<Call>, i: nat, d: File)
    requires i < |calls| == |calls'|
    requires calls[i].phase != SourceDone && calls' == calls[i := calls'[i]] && calls'[i].phase != SourceDone
    ensures Replay(calls', d) == Replay(calls, d)
  {
    ReplayAt(calls, i, d);
    ReplayAt(calls', i, d);
    assert calls'[..i] == calls[..i] && calls'[i + 1..] == calls[i + 1..];
  }

  lemma UnlockReplays(s: State, i: nat, d: File)
    requires Enabled(s, UnlockCall(i))
    ensures Replay(Do(s, UnlockCall(i)).calls, d) == Replay(s.calls, d)
  {
    ReplayAt(s.calls, i, d);
    ReplayConcat(s.calls[..i], s.calls[i + 1..], d);
  }

  // ----- every step keeps the invariant -----

  lemma SourceHalfKeepsCalls(s: State, i: nat)
    requires Inv(s) && Enabled(s, SourceHalf(i))
    ensures CallsOk(Do(s, SourceHalf(i))) && BufferOk(Do(s, SourceHalf(i)))
  {
    var op, t := s.calls[i].op, Do(s, SourceHalf(i));
    forall j | 0 <= j < |t.calls| && t.calls[j].phase == SourceDone
      ensures Apply(t.calls[j].op, t.src) == t.src
    {
      if j == i {
        ApplyTwice(op, s.src);
      } else {
        OthersDisjoint(s, i);
        DisjointOpsCommute(s.calls[j].op, op, s.src);
      }
    }
    if s.copier.Writing? {
      var Writing(pos, buf, done) := s.copier;
      assert !Intersects(RangeOf(op), CopierRange(s.copier));
      forall k | 0 <= k < |buf|
        ensures t.src[pos..pos + |buf|][k] == buf[k]
      {
        assert At(t.src, pos + k) == At(s.src, pos + k);
        assert s.src[pos..pos + |buf|][k] == buf[k];
      }
    }
  }

  lemma SourceHalfKeepsInv(s: State, i: nat)
    requires Inv(s) && Enabled(s, SourceHalf(i))
    ensures Inv(Do(s, SourceHalf(i)))
  {
    SourceHalfKeepsCalls(s, i);
    if s.dst.Some? {
      var op, d := s.calls[i].op, s.dst.value;
      SourceHalfReplays(s, i, d);
      AgreeUnderOp(op, s.src, Replay(s.calls, d), CopiedUpTo(s.copier));
    }
  }

  lemma MirrorHalfKeepsInv(s: State, i: nat)
    requires Inv(s) && Enabled(s, MirrorHalf(i))
    ensures Inv(Do(s, MirrorHalf(i)))
  {
    if s.dst.Some? {
      MirrorHalfReplays(s, i, s.dst.value);
    }
  }

  lemma LockKeepsInv(s: State, op: Op, viaWrite: bool)
    requires Inv(s) && Enabled(s, LockCall(op, viaWrite))
    ensures Inv(Do(s, LockCall(op, viaWrite)))
  {
    if s.dst.Some? {
      ReplayConcat(s.calls, [Call(op, viaWrite, RangeLocked)], s.dst.value);
    }
  }

  lemma SourceFailsKeepsInv(s: State, i: nat)
    requires Inv(s) && Enabled(s, SourceFails(i))
    ensures Inv(Do(s, SourceFails(i)))
  {
    if s.dst.Some? {
      IdleCallReplays(s.calls, Do(s, SourceFails(i)).calls, i, s.dst.value);
    }
  }

  /** Removing a call leaves every pair of calls as it was. */
  lemma UnlockKeepsCalls(s: State, i: nat)
    requires Inv(s) && Enabled(s, UnlockCall(i))
    ensures CallsOk(Do(s, UnlockCall(i)))
  {
    var calls' := Do(s, UnlockCall(i)).calls;
    assert forall j :: 0 <= j < |calls'| ==> calls'[j] == s.calls[if j < i then j else j + 1];
  }

  lemma UnlockKeepsInv(s: State, i: nat)
    requires Inv(s) && Enabled(s, UnlockCall(i))
    ensures Inv(Do(s, UnlockCall(i)))
  {
    UnlockKeepsCalls(s, i);
    if s.dst.Some? {
      UnlockReplays(s, i, s.dst.value);
    }
  }

  lemma CreateKeepsInv(s: State)
    requires Inv(s) && Enabled(s, CreateDestination)
    ensures Inv(Do(s, CreateDestination))
  {
    AgreeUnderReplay(s.calls, s.src, []);
    ReplayFixpoint(s.calls, s.src);
  }

  lemma CopierReadKeepsInv(s: State, n: nat)
    requires Inv(s) && Enabled(s, CopierRead(n))
    ensures Inv(Do(s, CopierRead(n)))
  {
    if n == 0 {
      AgreeAtEof(s.src, Replay(s.calls, s.dst.value), s.copier.pos);
    }
  }

  /** Writing the next bytes of the source just past the agreed prefix extends the agreement. */
  lemma PieceExtendsAgreement(src: File, dst: File, upTo: nat, piece: seq<Byte>)
    requires Agree(src, dst, upTo) && piece != [] && upTo + |piece| <= |src|
    requires src[upTo..upTo + |piece|] == piece
    ensures Agree(src, PWrite(dst, upTo, piece), upTo + |piece|)
  {
    forall i: nat | i < upTo + |piece|
      ensures At(src, i) == At(PWrite(dst, upTo, piece), i)
    {
      if upTo <= i {
        assert src[upTo..upTo + |piece|][i - upTo] == piece[i - upTo];
      } else {
        assert At(src, i) == At(dst, i);
      }
    }
  }

  /** A piece written inside a locked range commutes with the pending calls, none of which meets that range. */
  lemma PieceReplays(calls: seq<Call>, locked: Range, off: nat, piece: seq<Byte>, f: File)
    requires piece != [] && off + |piece| <= LLONG_MAX && locked.lo <= off && off + |piece| <= locked.hi
    requires forall i :: 0 <= i < |calls| ==> ValidOp(calls[i].op) && !Intersects(RangeOf(calls[i].op), locked)
    ensures Replay(calls, PWrite(f, off, piece)) == PWrite(Replay(calls, f), off, piece)
  {
    var op := Put(off, piece);
    forall i | 0 <= i < |calls|
      ensures !Intersects(RangeOf(calls[i].op), RangeOf(op))
    {
      assert !Intersects(RangeOf(calls[i].op), locked);
    }
    ReplayCommutes(calls, op, f);
  }

  lemma BufferSlice(src: File, pos: nat, buf: seq<Byte>, done: nat, w: nat)
    requires pos + |buf| <= |src| && done + w <= |buf|
    requires src[pos..pos + |buf|] == buf
    ensures src[pos + done..pos + done + w] == buf[done..done + w]
  {
    var a, b := src[pos + done..pos + done + w], src[pos..pos + |buf|][done..done + w];
    forall k | 0 <= k < w
      ensures a[k] == b[k]
    {
      assert src[pos..pos + |buf|][done + k] == src[pos + (done + k)];
    }
  }

  lemma CopierWriteKeepsCalls(s: State, w: nat)
    requires Inv(s) && Enabled(s, CopierWrite(w))
    ensures CallsOk(Do(s, CopierWrite(w))) && BufferOk(Do(s, CopierWrite(w)))
  {
  }

  lemma CopierWriteAgrees(calls: seq<Call>, src: File, d: File, pos: nat, buf: seq<Byte>, done: nat, w: nat)
    requires |src| <= LLONG_MAX && |buf| <= BUF_SIZE && pos + |buf| <= |src| && src[pos..pos + |buf|] == buf
    requires 0 < w && done + w <= |buf|
    requires forall i :: 0 <= i < |calls| ==>
      ValidOp(calls[i].op) && !Intersects(RangeOf(calls[i].op), Range(pos, pos + BUF_SIZE))
    requires Agree(src, Replay(calls, d), pos + done)
    ensures Agree(src, Replay(calls, PWrite(d, pos + done, buf[done..done + w])), pos + done + w)
  {
    var piece := buf[done..done + w];
    PieceReplays(calls, Range(pos, pos + BUF_SIZE), pos + done, piece, d);
    BufferSlice(src, pos, buf, done, w);
    PieceExtendsAgreement(src, Replay(calls, d), pos + done, piece);
  }

  lemma CopierWriteKeepsInv(s: State, w: nat)
    requires Inv(s) && Enabled(s, CopierWrite(w))
    ensures Inv(Do(s, CopierWrite(w)))
  {
    hide Replay;
    CopierWriteKeepsCalls(s, w);
    var Writing(pos, buf, done) := s.copier;
    CopierWriteAgrees(s.calls, s.src, s.dst.value, pos, buf, done, w);
  }

  lemma StepKeepsInv(s: State, step: Step)
    requires Inv(s) && Enabled(s, step)
    ensures Inv(Do(s, step))
  {
    match step
    case LockCall(op, viaWrite) => LockKeepsInv(s, op, viaWrite);
    case SourceHalf(i) => SourceHalfKeepsInv(s, i);
    case SourceFails(i) => SourceFailsKeepsInv(s, i);
    case MirrorHalf(i) => MirrorHalfKeepsInv(s, i);
    case UnlockCall(i) => UnlockKeepsInv(s, i);
    case CreateDestination => CreateKeepsInv(s);
    case CopierRead(n) => CopierReadKeepsInv(s, n);
    case CopierWrite(w) => CopierWriteKeepsInv(s, w);
    case Detach =>
    case Reattach =>
    case CopierStart =>
    case CopierLock =>
    case CopierUnlock =>
  }

  lemma {:induction false} RunKeepsInv(s: State, steps: seq<Step>, t: State)
    requires Inv(s) && Reaches(s, steps, t)
    ensures Inv(t)
    decreases |steps|
  {
    if steps != [] {
      StepKeepsInv(s, steps[0]);
      RunKeepsInv(Do(s, steps[0]), steps[1..], t);
    }
  }

  // ----- the guarantees of a backup -----

  /** At every moment after the copier has met end of file, the source is the destination plus the
      mirror halves still in flight. */
  lemma DestinationMissesOnlyPendingCalls(s: State, steps: seq<Step>, t: State)
    requires Init(s) && Reaches(s, steps, t) && t.copier.Finished?
    ensures t.dst.Some? && Replay(t.calls, t.dst.value) == t.src
  {
    RunKeepsInv(s, steps, t);
  }

  /** Whenever the copier has finished and no call is in flight, the backup is the source. */
  lemma BackupConverges(s: State, steps: seq<Step>, t: State)
    requires Init(s) && Reaches(s, steps, t) && t.copier.Finished? && t.calls == []
    ensures t.dst == Some(t.src)
  {
    DestinationMissesOnlyPendingCalls(s, steps, t);
  }

  /** While copying, every byte the copier has passed and no pending call touches is already right. */
  lemma CopiedBytesAreRight(s: State, steps: seq<Step>, t: State)
    requires Init(s) && Reaches(s, steps, t) && t.dst.Some?
    ensures Agree(t.src, Replay(t.calls, t.dst.value), CopiedUpTo(t.copier))
  {
    RunKeepsInv(s, steps, t);
  }

  /** The ranges held by calls and copier are pairwise disjoint in every reachable state. */
  lemma HeldRangesAreDisjoint(s: State, steps: seq<Step>, t: State)
    requires Init(s) && Reaches(s, steps, t)
    ensures Disjoint(t.calls)
    ensures HoldsLock(t.copier) ==>
      forall i :: 0 <= i < |t.calls| ==> !Intersects(RangeOf(t.calls[i].op), CopierRange(t.copier))
  {
    RunKeepsInv(s, steps, t);
  }
}
