/** What the protocol of MirrorProtocol achieves: calls take effect and end, and the copier gets to the end. */
module MirrorProgress {
  import opened Basics
  import opened Ranges
  import opened Files
  import opened MirrorProtocol

  lemma {:induction false} ReachesConcat(s: State, xs: seq<Step>, t: State, ys: seq<Step>, u: State)
    requires Reaches(s, xs, t) && Reaches(t, ys, u)
    ensures Reaches(s, xs + ys, u)
    decreases |xs|
  {
    hide Enabled, Do;
    if xs == [] {
      assert xs + ys == ys;
    } else {
      ReachesConcat(Do(s, xs[0]), xs[1..], t, ys, u);
      assert (xs + ys)[1..] == xs[1..] + ys;
    }
  }

  lemma OneStep(s: State, step: Step)
    requires Enabled(s, step)
    ensures Reaches(s, [step], Do(s, step))
  {
    assert [step][1..] == [];
  }

  // ----- calls -----

  /** What the calls of a run have done to the source, in the order of their source halves. */
  function SourceOps(s: State, steps: seq<Step>): seq<Op>
    decreases |steps|
  {
    if steps == [] || !Enabled(s, steps[0]) then []
    else (if steps[0].SourceHalf? then [s.calls[steps[0].i].op] else []) + SourceOps(Do(s, steps[0]), steps[1..])
  }

  /** Nothing but calls changes the source, and each once at most. */
  lemma {:induction false} SourceIsWhatCallsDid(s: State, steps: seq<Step>, t: State)
    requires Reaches(s, steps, t)
    ensures t.src == ApplyAll(SourceOps(s, steps), s.src)
    decreases |steps|
  {
    if steps != [] {
      var s1, rest := Do(s, steps[0]), SourceOps(Do(s, steps[0]), steps[1..]);
      SourceIsWhatCallsDid(s1, steps[1..], t);
      if steps[0].SourceHalf? {
        var op := s.calls[steps[0].i].op;
        assert SourceOps(s, steps) == [op] + rest && ([op] + rest)[1..] == rest;
      } else {
        assert SourceOps(s, steps) == [] + rest == rest;
      }
    }
  }

  /** A call whose range is free goes through by itself, whatever else is in flight: it does its work on the source and,
      if there is one, on the destination, and leaves. */
  lemma CallRuns(s: State, op: Op, viaWrite: bool)
    requires Enabled(s, LockCall(op, viaWrite))
    ensures var n := |s.calls|;
      Reaches(s, [LockCall(op, viaWrite), SourceHalf(n), MirrorHalf(n), UnlockCall(n)],
              s.(src := Apply(op, s.src), dst := if s.dst.Some? then Some(Apply(op, s.dst.value)) else None))
  {
    var n := |s.calls|;
    var s1 := s.(calls := s.calls + [Call(op, viaWrite, RangeLocked)]);
    var s2 := s.(calls := s.calls + [Call(op, viaWrite, SourceDone)], src := Apply(op, s.src));
    var s3 := s.(calls := s.calls + [Call(op, viaWrite, MirrorDone)], src := Apply(op, s.src),
                 dst := if s.dst.Some? then Some(Apply(op, s.dst.value)) else None);
    var s4 := s3.(calls := s.calls);
    hide Apply, RangeFree;
    LastCall(s.calls, Call(op, viaWrite, RangeLocked), Call(op, viaWrite, SourceDone));
    LastCall(s.calls, Call(op, viaWrite, SourceDone), Call(op, viaWrite, MirrorDone));
    LastCall(s.calls, Call(op, viaWrite, MirrorDone), Call(op, viaWrite, MirrorDone));
    assert Do(s, LockCall(op, viaWrite)) == s1;
    assert Do(s1, SourceHalf(n)) == s2;
    assert Do(s2, MirrorHalf(n)) == s3;
    assert Do(s3, UnlockCall(n)) == s4;
    assert Enabled(s1, SourceHalf(n)) && Enabled(s2, MirrorHalf(n)) && Enabled(s3, UnlockCall(n));
    hide Enabled, Do;
    FourSteps(s, s1, s2, s3, s4, LockCall(op, viaWrite), SourceHalf(n), MirrorHalf(n), UnlockCall(n));
  }

  lemma LastCall(calls: seq<Call>, c: Call, c': Call)
    ensures (calls + [c])[|calls|] == c && (calls + [c])[|calls| := c'] == calls + [c']
    ensures (calls + [c])[..|calls|] + (calls + [c])[|calls| + 1..] == calls
  {
  }

  lemma FourSteps(s: State, s1: State, s2: State, s3: State, s4: State, a: Step, b: Step, c: Step, d: Step)
    requires Enabled(s, a) && Do(s, a) == s1 && Enabled(s1, b) && Do(s1, b) == s2
    requires Enabled(s2, c) && Do(s2, c) == s3 && Enabled(s3, d) && Do(s3, d) == s4
    ensures Reaches(s, [a, b, c, d], s4)
  {
    hide Enabled, Do;
    var steps := [a, b, c, d];
    assert steps[1..] == [b, c, d] && [b, c, d][1..] == [c, d] && [c, d][1..] == [d] && [d][1..] == [];
    assert Reaches(s4, [], s4);
    assert Reaches(s3, [d], s4);
    assert Reaches(s2, [c, d], s4);
    assert Reaches(s1, [b, c, d], s4);
  }

  /** A call that fails on the source, other than `write`, changes nothing. */
  lemma FailedCallRuns(s: State, op: Op)
    requires Enabled(s, LockCall(op, false))
    ensures var n := |s.calls|; Reaches(s, [LockCall(op, false), SourceFails(n), UnlockCall(n)], s)
  {
    var n := |s.calls|;
    var s1 := s.(calls := s.calls + [Call(op, false, RangeLocked)]);
    var s2 := s.(calls := s.calls + [Call(op, false, MirrorDone)]);
    hide RangeFree;
    assert Do(s, LockCall(op, false)) == s1 && Do(s1, SourceFails(n)) == s2 && Do(s2, UnlockCall(n)) == s;
    var steps := [LockCall(op, false), SourceFails(n), UnlockCall(n)];
    assert steps[1..] == [SourceFails(n), UnlockCall(n)] && steps[1..][1..] == [UnlockCall(n)];
    assert steps[1..][1..][1..] == [];
    assert Reaches(s, [], s);
    assert Reaches(s2, steps[1..][1..], s);
    assert Reaches(s1, steps[1..], s);
  }

  // ----- the copier -----

  predicate ByCopier(step: Step) {
    step.CopierStart? || step.CopierLock? || step.CopierRead? || step.CopierWrite? || step.CopierUnlock?
  }

  /** Nothing sets the copier back: until it has finished, it has passed exactly what it has written. */
  lemma CopierAdvances(s: State, step: Step)
    requires Enabled(s, step) && !Do(s, step).copier.Finished?
    ensures CopiedUpTo(Do(s, step).copier) == CopiedUpTo(s.copier) + if step.CopierWrite? then step.w else 0
  {
  }

  function BytesWritten(steps: seq<Step>): nat {
    if steps == [] then 0 else (if steps[0].CopierWrite? then steps[0].w else 0) + BytesWritten(steps[1..])
  }

  lemma FinishedStays(s: State, step: Step)
    requires Enabled(s, step) && s.copier.Finished?
    ensures Do(s, step).copier.Finished?
  {
  }

  lemma {:induction false} FinishedForever(s: State, steps: seq<Step>, t: State)
    requires s.copier.Finished? && Reaches(s, steps, t)
    ensures t.copier.Finished?
    decreases |steps|
  {
    if steps != [] {
      FinishedStays(s, steps[0]);
      FinishedForever(Do(s, steps[0]), steps[1..], t);
    }
  }

  /** Over a run the copier has passed as many bytes as it has written. */
  lemma {:induction false} CopiedIsWritten(s: State, steps: seq<Step>, t: State)
    requires Reaches(s, steps, t) && !t.copier.Finished?
    ensures CopiedUpTo(t.copier) == CopiedUpTo(s.copier) + BytesWritten(steps)
    decreases |steps|
  {
    if steps != [] {
      var s1 := Do(s, steps[0]);
      if s1.copier.Finished? {
        FinishedForever(s1, steps[1..], t);
      }
      CopierAdvances(s, steps[0]);
      CopiedIsWritten(s1, steps[1..], t);
    }
  }

  /** A round without a short write: what has been read is written and passed. */
  lemma RoundRuns(s: State, n: nat)
    requires s.copier.Ready? && s.dst.Some? && Enabled(s, CopierLock)
    requires 0 < n <= BUF_SIZE && s.copier.pos + n <= |s.src|
    ensures var pos := s.copier.pos;
      Reaches(s, [CopierLock, CopierRead(n), CopierWrite(n), CopierUnlock],
              s.(dst := Some(PWrite(s.dst.value, pos, s.src[pos..pos + n])), copier := Ready(pos + n)))
  {
    var pos, buf := s.copier.pos, s.src[s.copier.pos..s.copier.pos + n];
    var s1, s2 := s.(copier := Locked(pos)), s.(copier := Writing(pos, buf, 0));
    var s3 := s.(copier := Writing(pos, buf, n), dst := Some(PWrite(s.dst.value, pos, buf)));
    hide PWrite;
    RangeIsRead(s, pos, n, buf);
    BufferIsWritten(s, pos, buf);
    assert Do(s, CopierLock) == s1 && Do(s1, CopierRead(n)) == s2;
    assert Enabled(s3, CopierUnlock) && Do(s3, CopierUnlock) == s3.(copier := Ready(pos + n));
    hide Enabled, Do;
    FourSteps(s, s1, s2, s3, s3.(copier := Ready(pos + n)), CopierLock, CopierRead(n), CopierWrite(n), CopierUnlock);
  }

  lemma RangeIsRead(s: State, pos: nat, n: nat, buf: seq<Byte>)
    requires 0 < n <= BUF_SIZE && pos + n <= |s.src| && buf == s.src[pos..pos + n]
    ensures var s1 := s.(copier := Locked(pos));
      Enabled(s1, CopierRead(n)) && Do(s1, CopierRead(n)) == s.(copier := Writing(pos, buf, 0))
  {
  }

  lemma BufferIsWritten(s: State, pos: nat, buf: seq<Byte>)
    requires buf != [] && s.dst.Some?
    ensures var s2, w := s.(copier := Writing(pos, buf, 0)), CopierWrite(|buf|);
      Enabled(s2, w) && Do(s2, w) == s.(copier := Writing(pos, buf, |buf|), dst := Some(PWrite(s.dst.value, pos, buf)))
  {
    hide PWrite;
    assert buf[0..0 + |buf|] == buf;
  }

  /** The destination is attached from its creation, and detached and attached again as said; and the backup file
      changes by its creation, by a mirror half while it is attached, and by the copier. */
  lemma DestinationChangesBy(s: State, step: Step)
    requires Enabled(s, step)
    ensures Do(s, step).attached <==> step.CreateDestination? || step.Reattach? || (s.attached && !step.Detach?)
    ensures Do(s, step).dst != s.dst ==>
      step.CreateDestination? || (step.MirrorHalf? && s.attached) || step.CopierWrite?
  {
    hide Apply, PWrite, RangeFree;
  }

  /** How many steps the copier has left, at most, in the file as it is. */
  function Left(s: State): nat {
    var to := CopiedUpTo(s.copier);
    var rest := if to < |s.src| then |s.src| - to else 0;
    match s.copier
    case NotStarted => 4 * rest + 4
    case Ready(_) => 4 * rest + 3
    case Locked(_) => 4 * rest + 2
    case Writing(_, buf, done) => 4 * rest + if done < |buf| then 1 else 4
    case AtEof(_) => 1
    case Finished => 0
  }

  /** Whatever read() and write() answer, every step of the copier brings it nearer to the end. */
  lemma CopierStepFalls(s: State, step: Step)
    requires Inv(s) && Enabled(s, step) && ByCopier(step)
    ensures Left(Do(s, step)) < Left(s)
  {
    assert BufferOk(s);
    hide Replay, CallsOk, Agree;
  }

  /** So it cannot go on for ever by itself. */
  lemma {:induction false} CopierRunIsBounded(s: State, steps: seq<Step>, t: State)
    requires Inv(s) && Reaches(s, steps, t) && forall step :: step in steps ==> ByCopier(step)
    ensures |steps| + Left(t) <= Left(s)
    decreases |steps|
  {
    if steps != [] {
      FirstAndRest(steps);
      StepKeepsInv(s, steps[0]);
      CopierStepFalls(s, steps[0]);
      hide Inv, Enabled, Do, Left, ByCopier;
      CopierRunIsBounded(Do(s, steps[0]), steps[1..], t);
    }
  }

  ghost predicate CopierCanStep(s: State) {
    exists step :: ByCopier(step) && Enabled(s, step)
  }

  /** With no call in flight nothing stops it before the end. */
  lemma CopierIsNeverStuck(s: State)
    requires Inv(s) && s.calls == [] && s.attached && !s.copier.Finished?
    ensures CopierCanStep(s)
  {
    assert BufferOk(s) && DestinationOk(s);
    hide Replay, CallsOk, Agree;
    var step := match s.copier
      case NotStarted => CopierStart
      case Ready(_) => CopierLock
      case Locked(pos) => CopierRead(if |s.src| <= pos then 0 else 1)
      case Writing(_, buf, done) => if done < |buf| then CopierWrite(1) else CopierUnlock
      case AtEof(_) => CopierUnlock
      case Finished => CopierUnlock;
    assert ByCopier(step) && Enabled(s, step);
  }

  lemma CopierLeavesCalls(s: State, step: Step)
    requires Enabled(s, step) && ByCopier(step)
    ensures Do(s, step).calls == s.calls && Do(s, step).attached == s.attached && Do(s, step).src == s.src
  {
  }

  lemma {:induction false} CopierRunLeavesCalls(s: State, steps: seq<Step>, t: State)
    requires Reaches(s, steps, t) && forall step :: step in steps ==> ByCopier(step)
    ensures t.calls == s.calls && t.attached == s.attached && t.src == s.src
    decreases |steps|
  {
    if steps != [] {
      FirstAndRest(steps);
      CopierLeavesCalls(s, steps[0]);
      hide Enabled, Do, ByCopier;
      CopierRunLeavesCalls(Do(s, steps[0]), steps[1..], t);
    }
  }

  /** From every reachable state without calls, the copier alone gets to the end, under any legal reads and writes: it
      takes no more than Left(s) steps, and where it cannot go on the backup is the source. */
  lemma CopierComesToTheEnd(s0: State, before: seq<Step>, s: State, steps: seq<Step>, t: State)
    requires Init(s0) && Reaches(s0, before, s) && s.calls == [] && s.attached
    requires Reaches(s, steps, t) && forall step :: step in steps ==> ByCopier(step)
    ensures |steps| <= Left(s) && t.src == s.src
    ensures !CopierCanStep(t) <==> t.copier.Finished?
    ensures t.copier.Finished? ==> t.dst == Some(s.src)
  {
    hide Inv, Enabled, Do, CopierCanStep, ByCopier, Left;
    RunKeepsInv(s0, before, s) by {
      StartIsOk(s0);
    }
    RunKeepsInv(s, steps, t);
    CopierRunIsBounded(s, steps, t);
    CopierRunLeavesCalls(s, steps, t);
    if t.copier.Finished? {
      ReachesConcat(s0, before, s, steps, t);
      BackupConverges(s0, before + steps, t);
      CannotGoOn(t);
    } else {
      CopierIsNeverStuck(t);
    }
  }

  lemma StartIsOk(s: State)
    requires Init(s)
    ensures Inv(s)
  {
  }

  lemma CannotGoOn(s: State)
    requires s.copier.Finished?
    ensures !CopierCanStep(s)
  {
  }

  /** And it does get there, from every such state. */
  lemma {:induction false} CopierFinishes(s: State) returns (steps: seq<Step>, t: State)
    requires Inv(s) && s.calls == [] && s.attached
    ensures Reaches(s, steps, t) && (forall step :: step in steps ==> ByCopier(step))
    ensures t.copier.Finished? && t.calls == []
    decreases Left(s)
  {
    if s.copier.Finished? {
      steps, t := [], s;
    } else {
      CopierIsNeverStuck(s);
      var step :| ByCopier(step) && Enabled(s, step);
      StepKeepsInv(s, step);
      CopierStepFalls(s, step);
      CopierLeavesCalls(s, step);
      hide Inv, Enabled, Do, ByCopier, Left;
      var rest;
      rest, t := CopierFinishes(Do(s, step));
      steps := [step] + rest;
      assert steps[1..] == rest;
    }
  }

  // ----- every backup can be finished -----

  predicate Ends(step: Step) {
    !step.LockCall? && !step.SourceFails? && !step.Detach?
  }

  /** The next thing a call does. */
  function NextOfCall(phase: Phase, i: nat): Step {
    match phase
    case RangeLocked => SourceHalf(i)
    case SourceDone => MirrorHalf(i)
    case MirrorDone => UnlockCall(i)
  }

  function Weight(calls: seq<Call>): nat {
    if calls == [] then 0
    else (match calls[0].phase case RangeLocked => 3 case SourceDone => 2 case MirrorDone => 1) + Weight(calls[1..])
  }

  lemma FirstCallGoesOn(s: State)
    requires s.calls != []
    ensures var step := NextOfCall(s.calls[0].phase, 0); Enabled(s, step) && Weight(Do(s, step).calls) < Weight(s.calls)
  {
    var step := NextOfCall(s.calls[0].phase, 0);
    var calls' := Do(s, step).calls;
    if step.UnlockCall? {
      assert calls' == s.calls[1..];
    } else {
      assert calls'[1..] == s.calls[1..];
    }
  }

  /** No call that is in flight waits for anything. */
  lemma {:induction false} CallsEnd(s: State) returns (steps: seq<Step>, t: State)
    requires Inv(s)
    ensures Reaches(s, steps, t) && (forall step :: step in steps ==> Ends(step)) && t.calls == [] && Inv(t)
    decreases Weight(s.calls)
  {
    if s.calls == [] {
      steps, t := [], s;
    } else {
      var step := NextOfCall(s.calls[0].phase, 0);
      FirstCallGoesOn(s);
      StepKeepsInv(s, step);
      hide Inv, Enabled, Do, Weight;
      var rest;
      rest, t := CallsEnd(Do(s, step));
      steps := [step] + rest;
      assert steps[1..] == rest;
    }
  }

  /** A destination, if there is none. */
  lemma Attaches(s: State) returns (steps: seq<Step>, t: State)
    requires Inv(s) && s.calls == []
    ensures Reaches(s, steps, t) && (forall step :: step in steps ==> Ends(step))
    ensures t.calls == [] && Inv(t) && t.attached
  {
    if s.attached {
      steps, t := [], s;
    } else {
      var step := if s.dst.None? then CreateDestination else Reattach;
      StepKeepsInv(s, step);
      OneStep(s, step);
      steps, t := [step], Do(s, step);
    }
  }

  /** From every reachable state, if no more calls begin, a run leads to a finished copier, no call in flight and equal
      files: nothing that can happen keeps a backup from being completed. */
  lemma EveryBackupCanFinish(s0: State, before: seq<Step>, s: State) returns (steps: seq<Step>, t: State)
    requires Init(s0) && Reaches(s0, before, s)
    ensures Reaches(s, steps, t) && forall step :: step in steps ==> Ends(step)
    ensures t.copier.Finished? && t.calls == [] && t.dst == Some(t.src)
  {
    RunKeepsInv(s0, before, s);
    var a, u := CallsEnd(s);
    var b, v := Attaches(u);
    var c;
    c, t := CopierFinishes(v);
    hide Inv, Enabled, Do;
    ReachesConcat(s, a, u, b, v);
    ReachesConcat(s, a + b, v, c, t);
    steps := a + b + c;
    ReachesConcat(s0, before, s, steps, t);
    BackupConverges(s0, before + steps, t);
  }
}
