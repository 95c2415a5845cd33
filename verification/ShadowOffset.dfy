/** One descriptor shared by any number of threads: the offset that `description` keeps beside the kernel's.

    `read`, `write` and `lseek` hold the description's mutex around the real call.  `write` takes the offset
    for its range lock from the copy, so the copy has to be right by then. */
module ShadowOffset {
  import opened Ranges

  datatype Call = Read(nbyte: nat) | Write(nbyte: nat) | Seek(to: nat)

  datatype Pc =
    | Waiting(call: Call)                   // before description->lock()
    | InCall(call: Call)                    // the mutex is held; `write` is waiting for its range
    | RangeLocked(nbyte: nat, start: int)   // the mutex and the range [start, start + nbyte) are held
    | Moved(call: Call, result: int)        // the real call has answered
    | Shadowed(call: Call)                  // m_offset has been updated

  /** `wrote` is history: for each finished real write, where its range was locked and where the kernel wrote. */
  datatype Written = Written(lockStart: int, kernelStart: nat)

  datatype State = State(
    kernel: nat,
    shadow: int,
    mutex: bool,
    threads: map<nat, Pc>,
    wrote: seq<Written>,
    seekFailed: bool)          // history: the last lseek failed

  datatype Step =
    | Start(t: nat, call: Call)
    | Lock(t: nat)
    | LockRange(t: nat)
    | RealRead(t: nat, result: int)
    | RealWrite(t: nat, result: int)
    | RealSeek(t: nat, ok: bool)
    | Update(t: nat)
    | Unlock(t: nat)

  predicate Enabled(s: State, step: Step) {
    match step
    case Start(t, _) => t !in s.threads
    case Lock(t) => t in s.threads && s.threads[t].Waiting? && !s.mutex
    case LockRange(t) => t in s.threads && s.threads[t].InCall? && s.threads[t].call.Write?
    case RealRead(t, result) =>
      t in s.threads && s.threads[t].InCall? && s.threads[t].call.Read? && -1 <= result <= s.threads[t].call.nbyte
    case RealWrite(t, result) => t in s.threads && s.threads[t].RangeLocked? && -1 <= result <= s.threads[t].nbyte
    case RealSeek(t, _) => t in s.threads && s.threads[t].InCall? && s.threads[t].call.Seek?
    case Update(t) => t in s.threads && s.threads[t].Moved?
    case Unlock(t) => t in s.threads && s.threads[t].Shadowed?
  }

  function Advance(result: int): nat {
    if result > 0 then result else 0
  }

  function Do(s: State, step: Step): State
    requires Enabled(s, step)
  {
    match step
    case Start(t, call) => s.(threads := s.threads[t := Waiting(call)])
    case Lock(t) => s.(mutex := true, threads := s.threads[t := InCall(s.threads[t].call)])
    case LockRange(t) => s.(threads := s.threads[t := RangeLocked(s.threads[t].call.nbyte, s.shadow)])
    case RealRead(t, result) =>
      s.(kernel := s.kernel + Advance(result), threads := s.threads[t := Moved(s.threads[t].call, result)])
    case RealWrite(t, result) =>
      s.(kernel := s.kernel + Advance(result), wrote := s.wrote + [Written(s.threads[t].start, s.kernel)],
         threads := s.threads[t := Moved(Write(s.threads[t].nbyte), result)])
    case RealSeek(t, ok) =>
      // The answer of a failing lseek is -1, and moves nothing.
      s.(kernel := if ok then s.threads[t].call.to else s.kernel, seekFailed := !ok,
         threads := s.threads[t := Moved(s.threads[t].call, if ok then s.threads[t].call.to else -1)])
    case Update(t) =>
      var Moved(call, result) := s.threads[t];
      s.(shadow := if call.Seek? then result else s.shadow + Advance(result), threads := s.threads[t := Shadowed(call)])
    case Unlock(t) => s.(mutex := false, threads := s.threads - {t})
  }

  /** A freshly opened descriptor. */
  predicate Init(s: State) {
    s.kernel == 0 && s.shadow == 0 && !s.mutex && s.threads == map[] && s.wrote == [] && !s.seekFailed
  }

  ghost predicate Reaches(s: State, steps: seq<Step>, t: State)
    decreases |steps|
  {
    if steps == [] then s == t
    else Enabled(s, steps[0]) && Reaches(Do(s, steps[0]), steps[1..], t)
  }

  predicate Holds(pc: Pc) {
    !pc.Waiting?
  }

  /** What the copy will be once the thread in the mutex has updated it. */
  function Settled(s: State, pc: Pc): int {
    match pc
    case Moved(call, result) => if call.Seek? then result else s.shadow + Advance(result)
    case _ => s.shadow
  }

  /** The copy is right, or, after a failed lseek, strictly below the kernel's offset. */
  predicate Agrees(s: State, shadow: int) {
    if s.seekFailed then shadow < s.kernel else shadow == s.kernel
  }

  ghost predicate Inv(s: State) {
    && (forall t, u :: t in s.threads && u in s.threads && Holds(s.threads[t]) && Holds(s.threads[u]) ==> t == u)
    && (s.mutex <==> exists t :: t in s.threads && Holds(s.threads[t]))
    && (!s.mutex ==> Agrees(s, s.shadow))
    && (forall t :: t in s.threads && Holds(s.threads[t]) ==> Agrees(s, Settled(s, s.threads[t])))
    && (forall t :: t in s.threads && s.threads[t].RangeLocked? ==> s.threads[t].start == s.shadow)
  }

  lemma HolderStepKeepsInv(s: State, s': State, t: nat, pc: Pc)
    requires Inv(s) && t in s.threads && Holds(s.threads[t]) && Holds(pc)
    requires s'.threads == s.threads[t := pc] && s'.mutex == s.mutex
    requires Agrees(s', Settled(s', pc)) && (pc.RangeLocked? ==> pc.start == s'.shadow)
    ensures Inv(s')
  {
    assert t in s'.threads && Holds(s'.threads[t]);
  }

  lemma StepKeepsInv(s: State, step: Step)
    requires Inv(s) && Enabled(s, step)
    ensures Inv(Do(s, step))
  {
    var s' := Do(s, step);
    match step
    case Start(t, call) =>
      assert forall u :: u in s.threads ==> s'.threads[u] == s.threads[u];
    case Lock(t) =>
      assert t in s'.threads && Holds(s'.threads[t]);
    case LockRange(t) => HolderStepKeepsInv(s, s', t, s'.threads[t]);
    case RealRead(t, _) => HolderStepKeepsInv(s, s', t, s'.threads[t]);
    case RealWrite(t, _) => HolderStepKeepsInv(s, s', t, s'.threads[t]);
    case RealSeek(t, _) => HolderStepKeepsInv(s, s', t, s'.threads[t]);
    case Update(t) => HolderStepKeepsInv(s, s', t, s'.threads[t]);
    case Unlock(t) =>
  }

  lemma {:induction false} RunKeepsInv(s: State, steps: seq<Step>, t: State)
    requires Inv(s) && Reaches(s, steps, t)
    ensures Inv(t)
    decreases |steps|
  {
    if steps != [] {
      StepKeepsInv(s, steps[0]);
      RunKeepsInv(Do(s, steps[0]), steps[1..], t);
    }
  }

  /** Whenever the mutex is free, the copy equals the kernel's offset exactly when the last lseek, if any,
      succeeded: reads and writes, short, failed or complete, never separate the two. */
  lemma ShadowIsRightIff(s0: State, steps: seq<Step>, s: State)
    requires Init(s0) && Reaches(s0, steps, s) && !s.mutex
    ensures s.shadow == s.kernel <==> !s.seekFailed
  {
    RunKeepsInv(s0, steps, s);
  }

  /** At most one thread is between lock and unlock. */
  lemma MutexExcludes(s0: State, steps: seq<Step>, s: State, t: nat, u: nat)
    requires Init(s0) && Reaches(s0, steps, s)
    requires t in s.threads && u in s.threads && Holds(s.threads[t]) && Holds(s.threads[u])
    ensures t == u
  {
    RunKeepsInv(s0, steps, s);
  }

  /** The range a write has locked starts where the kernel is about to write, exactly when the last lseek succeeded. */
  lemma WriteLocksItsRangeIff(s0: State, steps: seq<Step>, s: State, t: nat)
    requires Init(s0) && Reaches(s0, steps, s) && t in s.threads && s.threads[t].RangeLocked?
    ensures s.threads[t].start == s.kernel <==> !s.seekFailed
  {
    RunKeepsInv(s0, steps, s);
    assert Holds(s.threads[t]);
  }

  predicate NoFailedSeek(steps: seq<Step>) {
    forall step :: step in steps && step.RealSeek? ==> step.ok
  }

  lemma {:induction false} WritesStayRight(s: State, steps: seq<Step>, t: State)
    requires Inv(s) && !s.seekFailed && Reaches(s, steps, t) && NoFailedSeek(steps)
    requires forall w :: w in s.wrote ==> w.lockStart == w.kernelStart
    ensures !t.seekFailed && forall w :: w in t.wrote ==> w.lockStart == w.kernelStart
    decreases |steps|
  {
    if steps != [] {
      assert steps[0] in steps;
      assert forall step :: step in steps[1..] ==> step in steps;
      StepKeepsInv(s, steps[0]);
      if steps[0].RealWrite? {
        assert Holds(s.threads[steps[0].t]);
      }
      WritesStayRight(Do(s, steps[0]), steps[1..], t);
    }
  }

  /** Over a whole run in which no lseek failed, every write was mirrored to the place where the kernel put it. */
  lemma EveryWriteIsMirroredInPlace(s0: State, steps: seq<Step>, s: State)
    requires Init(s0) && Reaches(s0, steps, s) && NoFailedSeek(steps)
    ensures forall w :: w in s.wrote ==> w.lockStart == w.kernelStart
  {
    WritesStayRight(s0, steps, s);
  }

  // ----- one call that nobody interrupts -----

  predicate CanAnswer(call: Call, result: int) {
    match call
    case Read(nbyte) => -1 <= result <= nbyte
    case Write(nbyte) => -1 <= result <= nbyte
    case Seek(to) => result == to || result == -1
  }

  /** The steps of a call to which the kernel answers `result`. */
  function StepsOf(t: nat, call: Call, result: int): seq<Step> {
    [Start(t, call), Lock(t)]
    + (match call
       case Read(_) => [RealRead(t, result)]
       case Write(_) => [LockRange(t), RealWrite(t, result)]
       case Seek(_) => [RealSeek(t, result >= 0)])
    + [Update(t), Unlock(t)]
  }

  /** Reads and writes move both offsets by what the kernel did; an lseek sets both, or only the kept one when it
      fails. */
  function AfterCall(s: State, call: Call, result: int): State {
    match call
    case Read(_) => s.(kernel := s.kernel + Advance(result), shadow := s.shadow + Advance(result))
    case Write(_) =>
      s.(kernel := s.kernel + Advance(result), shadow := s.shadow + Advance(result),
         wrote := s.wrote + [Written(s.shadow, s.kernel)])
    case Seek(to) =>
      if result < 0 then s.(shadow := -1, seekFailed := true) else s.(kernel := to, shadow := to, seekFailed := false)
  }

  lemma RunOn(s: State, step: Step, s': State, rest: seq<Step>, t: State)
    requires Enabled(s, step) && Do(s, step) == s' && Reaches(s', rest, t)
    ensures Reaches(s, [step] + rest, t)
  {
    assert ([step] + rest)[1..] == rest;
  }

  lemma Leaves(threads: map<nat, Pc>, t: nat, pc: Pc)
    requires t !in threads
    ensures threads[t := pc] - {t} == threads
  {
  }

  lemma CallEnds(s: State, t: nat, call: Call, result: int, shadow: int)
    requires !s.mutex && t !in s.threads && shadow == if call.Seek? then result else s.shadow + Advance(result)
    ensures Reaches(s.(mutex := true, threads := s.threads[t := Moved(call, result)]), [Update(t), Unlock(t)],
                    s.(shadow := shadow))
  {
    var s1 := s.(mutex := true, threads := s.threads[t := Moved(call, result)]);
    var s2 := s.(mutex := true, shadow := shadow, threads := s.threads[t := Shadowed(call)]);
    Leaves(s.threads, t, Shadowed(call));
    assert s1.threads[t := Shadowed(call)] == s2.threads;
    RunOn(s2, Unlock(t), s.(shadow := shadow), [], s.(shadow := shadow));
    assert [Unlock(t)] + [] == [Unlock(t)];
    RunOn(s1, Update(t), s2, [Unlock(t)], s.(shadow := shadow));
    assert [Update(t)] + [Unlock(t)] == [Update(t), Unlock(t)];
  }

  lemma WriteAlone(s: State, t: nat, n: nat, result: int)
    requires !s.mutex && t !in s.threads && -1 <= result <= n
    ensures Reaches(s.(mutex := true, threads := s.threads[t := InCall(Write(n))]),
                    [LockRange(t)] + ([RealWrite(t, result)] + [Update(t), Unlock(t)]), AfterCall(s, Write(n), result))
  {
    var s2 := s.(mutex := true, threads := s.threads[t := InCall(Write(n))]);
    var s3 := s.(mutex := true, threads := s.threads[t := RangeLocked(n, s.shadow)]);
    var moved := s.(kernel := s.kernel + Advance(result), wrote := s.wrote + [Written(s.shadow, s.kernel)]);
    CallEnds(moved, t, Write(n), result, s.shadow + Advance(result));
    assert s2.threads[t := RangeLocked(n, s.shadow)] == s3.threads;
    assert s3.threads[t := Moved(Write(n), result)] == s.threads[t := Moved(Write(n), result)];
    RunOn(s3, RealWrite(t, result), moved.(mutex := true, threads := s.threads[t := Moved(Write(n), result)]),
          [Update(t), Unlock(t)], AfterCall(s, Write(n), result));
    RunOn(s2, LockRange(t), s3, [RealWrite(t, result)] + [Update(t), Unlock(t)], AfterCall(s, Write(n), result));
  }

  /** The middle of a read or an lseek. */
  lemma OtherAlone(s: State, t: nat, call: Call, result: int)
    requires !s.mutex && t !in s.threads && CanAnswer(call, result) && !call.Write?
    ensures Reaches(s.(mutex := true, threads := s.threads[t := InCall(call)]),
                    [if call.Read? then RealRead(t, result) else RealSeek(t, result >= 0)] + [Update(t), Unlock(t)],
                    AfterCall(s, call, result))
  {
    var s2 := s.(mutex := true, threads := s.threads[t := InCall(call)]);
    var step := if call.Read? then RealRead(t, result) else RealSeek(t, result >= 0);
    var moved := if call.Read? then s.(kernel := s.kernel + Advance(result))
                 else if result < 0 then s.(seekFailed := true) else s.(kernel := call.to, seekFailed := false);
    CallEnds(moved, t, call, result, if call.Seek? then result else s.shadow + Advance(result));
    assert s2.threads[t := Moved(call, result)] == s.threads[t := Moved(call, result)];
    RunOn(s2, step, moved.(mutex := true, threads := s.threads[t := Moved(call, result)]), [Update(t), Unlock(t)],
          AfterCall(s, call, result));
  }

  /** Whatever other threads wait for, a call can be made while the mutex is free, and this is what it does. */
  lemma CallAlone(s: State, t: nat, call: Call, result: int)
    requires !s.mutex && t !in s.threads && CanAnswer(call, result)
    ensures Reaches(s, StepsOf(t, call, result), AfterCall(s, call, result))
    ensures var s' := AfterCall(s, call, result);
      if call.Seek? then
        s'.shadow == result && (if result < 0 then s'.kernel == s.kernel else s'.kernel == call.to)
      else s'.kernel - s.kernel == s'.shadow - s.shadow == if result > 0 then result else 0
  {
    var s1 := s.(threads := s.threads[t := Waiting(call)]);
    var s2 := s.(mutex := true, threads := s.threads[t := InCall(call)]);
    var rest := StepsOf(t, call, result)[2..];
    if call.Write? {
      WriteAlone(s, t, call.nbyte, result);
      assert rest == [LockRange(t)] + ([RealWrite(t, result)] + [Update(t), Unlock(t)]);
    } else {
      OtherAlone(s, t, call, result);
      var step := if call.Read? then RealRead(t, result) else RealSeek(t, result >= 0);
      assert rest == [step] + [Update(t), Unlock(t)];
    }
    assert s1.threads[t := InCall(call)] == s2.threads;
    RunOn(s1, Lock(t), s2, rest, AfterCall(s, call, result));
    RunOn(s, Start(t, call), s1, [Lock(t)] + rest, AfterCall(s, call, result));
    assert StepsOf(t, call, result) == [Start(t, call)] + ([Lock(t)] + rest);
  }

  lemma {:induction false} ReachesConcat(s: State, xs: seq<Step>, t: State, ys: seq<Step>, u: State)
    requires Reaches(s, xs, t) && Reaches(t, ys, u)
    ensures Reaches(s, xs + ys, u)
    decreases |xs|
  {
    if xs == [] {
      assert xs + ys == ys;
    } else {
      ReachesConcat(Do(s, xs[0]), xs[1..], t, ys, u);
      assert (xs + ys)[1..] == xs[1..] + ys;
    }
  }

  ghost predicate Reachable(s: State) {
    exists s0, steps :: Init(s0) && Reaches(s0, steps, s)
  }

  lemma CallRuns(s: State, t: nat, call: Call, result: int)
    requires Reachable(s) && !s.mutex && t !in s.threads && CanAnswer(call, result)
    ensures Reachable(AfterCall(s, call, result))
  {
    var s0, steps :| Init(s0) && Reaches(s0, steps, s);
    CallAlone(s, t, call, result);
    ReachesConcat(s0, steps, s, StepsOf(t, call, result), AfterCall(s, call, result));
  }

  /** The kept offset is signed, the range lock is not. */
  const WORD: nat := 0x1_0000_0000_0000_0000

  function LockedRange(start: int, nbyte: nat): Range {
    Range(start % WORD, (start + nbyte) % WORD)
  }

  /** Below half the words, a write locks the bytes it is asked to write. */
  lemma LockedRangeIsWritten(start: nat, nbyte: nat)
    requires start + nbyte <= LLONG_MAX
    ensures LockedRange(start, nbyte) == Range(start, start + nbyte)
  {
  }

  /** With a kept offset of -1 the range is empty, so that the write excludes nobody; and the mirror's pwrite at that
      offset is refused, which is reported. */
  lemma NegativeOffsetLocksNothing(nbyte: nat, other: Range)
    requires nbyte <= LLONG_MAX
    ensures !Intersects(LockedRange(-1, nbyte), other)
  {
    assert -1 % WORD == WORD - 1;
    assert (-1 + nbyte) % WORD == if nbyte == 0 then WORD - 1 else nbyte - 1;
  }

  /** One failed lseek, with the kernel's offset at any `k`: the next write is not mirrored at all, and the one after
      it, of any length, is locked and mirrored `k` + 1 bytes before the place where the kernel puts it. */
  lemma FailedSeekMisplacesWrites(k: nat, n: nat, m: nat)
    requires 0 < n && n + m <= LLONG_MAX
    ensures exists s :: Reachable(s) && s.wrote == [Written(0, 0), Written(-1, k), Written(n - 1, k + n)]
    ensures LockedRange(n - 1, m) == Range(n - 1, n - 1 + m)
  {
    var s0 := State(0, 0, false, map[], [], false);
    assert Reachable(s0) by {
      assert Init(s0) && Reaches(s0, [], s0);
    }
    hide Reachable;
    CallRuns(s0, 0, Write(k), k);
    var s1 := AfterCall(s0, Write(k), k);
    CallRuns(s1, 0, Seek(0), -1);
    var s2 := AfterCall(s1, Seek(0), -1);
    CallRuns(s2, 0, Write(n), n);
    var s3 := AfterCall(s2, Write(n), n);
    CallRuns(s3, 0, Write(m), m);
    LockedRangeIsWritten(n - 1, m);
    assert AfterCall(s3, Write(m), m).wrote == [Written(0, 0), Written(-1, k), Written(n - 1, k + n)];
  }

  /** How far: after a failed lseek the copy falls behind the kernel's offset by that offset plus one, and reads and
      writes keep the distance. */
  lemma FailedSeekFallsBehind(s0: State, before: seq<Step>, s: State, t: nat, steps: seq<Step>, u: State)
    requires Init(s0) && Reaches(s0, before, s)
    requires Enabled(s, RealSeek(t, false)) && Reaches(Do(s, RealSeek(t, false)), steps, u)
    requires (forall step :: step in steps ==> !step.RealSeek?) && !u.mutex
    ensures u.kernel - u.shadow == s.kernel + 1
  {
    RunKeepsInv(s0, before, s);
    StepKeepsInv(s, RealSeek(t, false));
    assert Holds(s.threads[t]);
    DistanceStays(Do(s, RealSeek(t, false)), steps, u, s.kernel + 1);
  }

  /** How far the copy is behind, counting what the thread in the mutex has still to add. */
  ghost predicate Behind(s: State, d: int) {
    && (!s.mutex ==> s.kernel - s.shadow == d)
    && (forall t :: t in s.threads && Holds(s.threads[t]) ==> s.kernel - Settled(s, s.threads[t]) == d)
    && (forall t :: t in s.threads && Holds(s.threads[t]) ==> s.mutex)
  }

  lemma {:induction false} DistanceStays(s: State, steps: seq<Step>, t: State, d: int)
    requires Inv(s) && Behind(s, d) && Reaches(s, steps, t) && forall step :: step in steps ==> !step.RealSeek?
    ensures Behind(t, d)
    decreases |steps|
  {
    if steps != [] {
      assert steps[0] in steps && forall step :: step in steps[1..] ==> step in steps;
      StepKeepsInv(s, steps[0]);
      DistanceStep(s, steps[0], d);
      DistanceStays(Do(s, steps[0]), steps[1..], t, d);
    }
  }

  lemma DistanceStep(s: State, step: Step, d: int)
    requires Inv(s) && Behind(s, d) && Enabled(s, step) && !step.RealSeek?
    ensures Behind(Do(s, step), d)
  {
    var s' := Do(s, step);
    assert forall u :: u in s'.threads && u !in s.threads ==> s'.threads[u].Waiting?;
  }
}
