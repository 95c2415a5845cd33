/** Nothing gets stuck: the calls in flight can return and the backup can end, from wherever the session has come to. */
module SessionProgress {
  import opened Basics
  import opened Session
  import opened SessionSafety
  import opened SessionBackup
  import opened SessionTheorems

  // ----- calls -----

  /** The steps that a call has before it, at most. */
  function StepsLeft(pc: Pc): nat {
    match pc
    case Opening(_, _) => 5
    case Resolved(_, _) => 4
    case Referenced(_, _) => 3
    case Mapped(_, _) => 2
    case Creating(_, _, _) => 1
    case Closing(_, _) => 4
    case Erasing(_, _) => 3
    case Dropping(_, _) => 2
    case RealClosing(_) => 1
    case Unlinking(_) => 3
    case Unlinked(_) => 2
    case UnlinkReferenced(_, _) => 1
  }

  /** The call of one thread is nearer to its end, and when it returns, it gives the file operation mutex back, if it
      has it; the others are where they were. */
  predicate Advances(s: State, s': State, t: Tid) {
    t in s.threads && s'.cp == s.cp &&
    s'.fileOp == (if t !in s'.threads && s.fileOp == Some(t) then None else s.fileOp) &&
    ((s'.crashed && s'.threads == s.threads) || s'.threads == s.threads - {t} ||
     (t in s'.threads && StepsLeft(s'.threads[t]) < StepsLeft(s.threads[t])
      && s'.threads == s.threads[t := s'.threads[t]]))
  }

  predicate SameButObjects(s: State, s1: State) {
    s1.threads == s.threads && s1.cp == s.cp && s1.fileOp == s.fileOp
  }

  lemma GotoAdvances(s: State, s1: State, t: Tid, pc: Pc)
    requires t in s.threads && SameButObjects(s, s1) && StepsLeft(pc) < StepsLeft(s.threads[t])
    ensures Advances(s, Goto(s1, t, pc), t)
  {
  }

  lemma FinishAdvances(s: State, s1: State, t: Tid)
    requires t in s.threads && SameButObjects(s, s1)
    ensures Advances(s, Finish(s1, t), t)
  {
  }

  lemma OpenAdvances(s: State, t: Tid, a: AppStep)
    requires AppEnabled(s, t, a) && (a.Realpath? || a.GetSource? || a.Put? || a.EnterOpen? || a.CreateOnOpen?)
    ensures Advances(s, DoApp(s, t, a), t)
  {
    hide Settled, TableFree, Advances;
    var pc := s.threads[t];
    match a
    case Realpath =>
      if pc.path in s.fs {
        GotoAdvances(s, s, t, Resolved(pc.fd, pc.path));
      } else {
        FinishAdvances(s, s.(captureOn := false), t);
      }
    case GetSource(newId) =>
      GotoAdvances(s, GetOrCreate(s, pc.path, newId, ByThread(t)), t, Referenced(pc.fd, SidFor(s, pc.path, newId)));
    case Put =>
      var s1 := MoveRef(s, pc.sid, ByThread(t), ByFd(pc.fd)).(fmap := s.fmap[pc.fd := pc.sid]);
      GotoAdvances(s, s1, t, Mapped(pc.fd, pc.sid));
    case EnterOpen(io) =>
      EnterAdvances(s, t, pc.fd, pc.sid, io);
    case CreateOnOpen(io) =>
      CreateAdvances(s, t, pc.sid, pc.ok, io);
  }

  lemma EnterAdvances(s: State, t: Tid, fd: Fd, sid: Sid, io: bool)
    requires t in s.threads && s.threads[t] == Mapped(fd, sid) && sid in s.srcs
    ensures Advances(s, DoEnterOpen(s, t, fd, sid, io), t)
  {
  }

  lemma CreateAdvances(s: State, t: Tid, sid: Sid, ok: bool, io: bool)
    requires t in s.threads && sid in s.srcs
    ensures Advances(s, DoCreateOnOpen(s, t, sid, ok, io), t)
  {
    hide CreateFails;
  }

  lemma CloseAdvances(s: State, t: Tid, a: AppStep)
    requires AppEnabled(s, t, a) && (a.CloseDetach? || a.Erase? || a.Drop? || a.RealClose?)
    ensures Advances(s, DoApp(s, t, a), t)
  {
    hide Settled, TableFree, Advances;
    var pc := s.threads[t];
    match a
    case CloseDetach =>
      GotoAdvances(s, if s.session then TryRemoveDest(s, pc.sid) else s, t, Erasing(pc.fd, pc.sid));
    case Erase =>
      var s1 := MoveRef(s, pc.sid, ByFd(pc.fd), ByThread(t)).(fmap := s.fmap - {pc.fd});
      GotoAdvances(s, s1, t, Dropping(pc.fd, pc.sid));
    case Drop => GotoAdvances(s, DropRef(s, pc.sid, ByThread(t)), t, RealClosing(pc.fd));
    case RealClose =>
      FinishAdvances(s, s.(kernelFds := s.kernelFds - {pc.fd}, linked := s.linked - {pc.fd}), t);
  }

  lemma SourceAdvances(s: State, s1: State, t: Tid, sid: Sid)
    requires t in s.threads && SameButObjects(s, s1) && sid in s1.srcs && s1.srcs[sid].count > 0
    ensures Advances(s, UnlinkSource(s1, t, sid), t)
  {
  }

  lemma OtherEnds(s: State, t: Tid, sid: Sid)
    requires t in s.threads && sid in s.srcs
    ensures Advances(s, LeakRef(s, t, sid), t) && Advances(s, s.(crashed := true), t)
  {
  }

  lemma CreateKeepsCalls(s: State, sid: Sid, io: bool)
    requires sid in s.srcs
    ensures var s1 := TryCreate(s, sid, io);
      SameButObjects(s, s1) && sid in s1.srcs && s1.srcs[sid].count == s.srcs[sid].count
  {
    hide CreateFails;
  }

  lemma CaptureAdvances(s: State, t: Tid, p: Path, sid: Sid, io: bool, ioUnlink: bool)
    requires t in s.threads && sid in s.srcs && s.srcs[sid].count > 0
    ensures Advances(s, DoCaptureUnlink(s, t, p, sid, io, ioUnlink), t)
  {
    hide ShouldCaptureUnlink, CreateFails, UnlinkSource, LeakRef, TryCreate, Advances;
    if !ShouldCaptureUnlink(s, p) {
      SourceAdvances(s, s, t, sid);
    } else if CreateFails(s, sid, io) || (s.srcs[sid].unlinked && !s.srcs[sid].dest) {
      OtherEnds(s, t, sid);
    } else {
      CreateKeepsCalls(s, sid, io);
      var s1 := TryCreate(s, sid, io);
      SourceAdvances(s, s1.(ioFailed := true, captureOn := false), t, sid);
      SourceAdvances(s, s1.(backup := s1.backup - {p}, captured := s1.captured + {p}), t, sid);
    }
  }

  lemma UnlinkAdvances(s: State, t: Tid, a: AppStep)
    requires AppEnabled(s, t, a) && (a.RealUnlink? || a.UnlinkGet? || a.CaptureUnlink?)
    ensures Advances(s, DoApp(s, t, a), t)
  {
    hide Settled, TableFree, Advances, DoCaptureUnlink, GetOrCreate;
    var pc := s.threads[t];
    match a
    case RealUnlink(ok) =>
      if ok {
        RealUnlinkAdvances(s, t, pc.path);
      } else {
        FinishAdvances(s, s, t);
      }
    case UnlinkGet(newId) => GetAdvances(s, t, pc.path, newId);
    case CaptureUnlink(io, ioUnlink) => CaptureAdvances(s, t, pc.path, pc.sid, io, ioUnlink);
  }

  lemma RealUnlinkAdvances(s: State, t: Tid, p: Path)
    requires t in s.threads && s.threads[t] == Unlinking(p)
    ensures Advances(s, DoRealUnlink(s, t, p, true), t)
  {
  }

  lemma GetAdvances(s: State, t: Tid, p: Path, newId: Sid)
    requires t in s.threads && s.threads[t] == Unlinked(p) && CanGet(s, p, newId)
    ensures Advances(s, DoUnlinkGet(s, t, p, newId), t)
  {
    hide TableFree;
  }

  /** The step begins a call, or takes up another file. */
  predicate Begins(step: Step) {
    match step
    case App(_, a) => a.RealOpen? || a.StartClose? || a.StartUnlink?
    case Backup(b) => b.CopyPick?
  }

  /** Every step of a call brings it nearer to its end. */
  lemma CallAdvances(s: State, t: Tid, a: AppStep)
    requires AppEnabled(s, t, a) && !Begins(App(t, a))
    ensures Advances(s, DoApp(s, t, a), t)
  {
    hide AppEnabled, DoApp, Advances;
    if a.RealUnlink? || a.UnlinkGet? || a.CaptureUnlink? {
      UnlinkAdvances(s, t, a);
    } else if a.CloseDetach? || a.Erase? || a.Drop? || a.RealClose? {
      CloseAdvances(s, t, a);
    } else {
      OpenAdvances(s, t, a);
    }
  }

  // ----- a call can always go on -----

  lemma {:induction false} Bounded(xs: set<nat>) returns (n: nat)
    ensures forall x :: x in xs ==> x < n
  {
    if xs == {} {
      n := 0;
    } else {
      var x :| x in xs;
      n := Bounded(xs - {x});
      assert forall y :: y in xs ==> y == x || y in xs - {x};
      if n <= x {
        n := x + 1;
      }
    }
  }

  /** The next step of the call, when everything on the backup side works. */
  function NextOf(pc: Pc, newId: Sid): AppStep {
    match pc
    case Opening(_, _) => Realpath
    case Resolved(_, _) => GetSource(newId)
    case Referenced(_, _) => Put
    case Mapped(_, _) => EnterOpen(true)
    case Creating(_, _, _) => CreateOnOpen(true)
    case Closing(_, _) => CloseDetach
    case Erasing(_, _) => Erase
    case Dropping(_, _) => Drop
    case RealClosing(_) => RealClose
    case Unlinking(_) => RealUnlink(true)
    case Unlinked(_) => UnlinkGet(newId)
    case UnlinkReferenced(_, _) => CaptureUnlink(true, true)
  }

  lemma SourceIsThere(s: State, t: Tid)
    requires Inv(s) && t in s.threads && UsesSource(s.threads[t])
    ensures s.threads[t].sid in s.srcs && s.srcs[s.threads[t].sid].count > 0
  {
    OwnPc(s, t);
    var pc := s.threads[t];
    if pc.Mapped? || pc.Closing? || pc.Erasing? {
      assert FdOk(s, pc.fd, pc.sid);
    }
    assert Live(s, pc.sid, ByThread(t)) || Live(s, pc.sid, ByFd(pc.fd));
    assert SrcOk(s, pc.sid);
  }

  lemma EntryIsThere(s: State, p: Path)
    requires Inv(s)
    ensures p in s.table ==> s.table[p] in s.srcs
  {
  }

  lemma CallCanGoOn(s: State, t: Tid, newId: Sid)
    requires Inv(s) && t in s.threads && !WriterIn(s.cp) && newId !in s.srcs
    requires TableFree(s) || s.threads[t].Creating?
    ensures AppEnabled(s, t, NextOf(s.threads[t], newId)) && !Begins(App(t, NextOf(s.threads[t], newId)))
  {
    hide Inv, Settled, TableFree;
    var pc := s.threads[t];
    if pc.Resolved? || pc.Unlinked? {
      EntryIsThere(s, pc.path);
    } else if UsesSource(pc) {
      SourceIsThere(s, t);
    }
  }

  /** The steps that the calls of the threads below `n` have before them. */
  function Left(threads: map<Tid, Pc>, n: nat): nat {
    if n == 0 then 0 else Left(threads, n - 1) + if n - 1 in threads then StepsLeft(threads[n - 1]) else 0
  }

  lemma {:induction false} LeftFalls(s: State, s': State, t: Tid, n: nat)
    requires Advances(s, s', t) && !s'.crashed
    ensures t < n ==> Left(s'.threads, n) < Left(s.threads, n)
    ensures t >= n ==> Left(s'.threads, n) == Left(s.threads, n)
  {
    if n > 0 {
      LeftFalls(s, s', t, n - 1);
    }
  }

  predicate Busy(cp: BackupPc) {
    WriterIn(cp) || cp.CopyCreating?
  }

  ghost predicate NothingBegins(steps: seq<Step>) {
    forall step :: step in steps ==> !Begins(step)
  }

  lemma NothingBeginsFirst(step: Step, rest: seq<Step>)
    requires !Begins(step) && NothingBegins(rest)
    ensures NothingBegins([step] + rest) && ([step] + rest)[1..] == rest
  {
  }

  lemma SomeCallCanGoOn(s: State) returns (t: Tid, a: AppStep)
    requires Inv(s) && !Busy(s.cp) && s.threads != map[]
    ensures AppEnabled(s, t, a) && !Begins(App(t, a))
  {
    var newId := Bounded(s.srcs.Keys);
    hide Inv, NextOf;
    if u :| u in s.threads && s.threads[u].Creating? {
      t := u;
    } else {
      t :| t in s.threads;
      assert TableFree(s);
    }
    hide TableFree, AppEnabled, Begins;
    CallCanGoOn(s, t, newId);
    a := NextOf(s.threads[t], newId);
  }

  lemma SomeCallGoesOn(s: State, n: nat) returns (t: Tid, a: AppStep)
    requires Inv(s) && !s.crashed && !Busy(s.cp) && s.threads != map[] && forall t :: t in s.threads ==> t < n
    ensures Enabled(s, App(t, a)) && !Begins(App(t, a))
    ensures var s' := Do(s, App(t, a));
      Inv(s') && s'.cp == s.cp && (forall u :: u in s'.threads ==> u < n)
      && (!s'.crashed ==> Left(s'.threads, n) < Left(s.threads, n))
  {
    hide Inv, AppEnabled, DoApp, Busy, StepsLeft;
    t, a := SomeCallCanGoOn(s);
    CallAdvances(s, t, a);
    StepKeepsInv(s, App(t, a));
    if !DoApp(s, t, a).crashed {
      LeftFalls(s, DoApp(s, t, a), t, n);
    }
  }

  /** The calls in flight come to their ends, unless one of them follows a NULL pointer. */
  lemma {:induction false} CallsEnd(s: State, n: nat) returns (steps: seq<Step>, s': State)
    requires Inv(s) && !Busy(s.cp) && forall t :: t in s.threads ==> t < n
    ensures Reaches(s, steps, s') && NothingBegins(steps) && Inv(s') && s'.cp == s.cp
    ensures s'.crashed || s'.threads == map[]
    decreases !s.crashed, Left(s.threads, n)
  {
    if s.crashed || s.threads == map[] {
      return [], s;
    }
    var t, a := SomeCallGoesOn(s, n);
    hide Inv, Busy, Begins, NothingBegins, Enabled, Do, Left;
    var rest;
    rest, s' := CallsEnd(Do(s, App(t, a)), n);
    steps := [App(t, a)] + rest;
    NothingBeginsFirst(App(t, a), rest);
  }

  // ----- the backup thread -----

  /** The steps that the backup thread has before it, at most, with descriptors below `m`. */
  function BackupLeft(cp: BackupPc, m: nat): nat {
    match cp
    case NotStarted => 2 * m + 5
    case Preparing(next) => m + 4 + if next < m then m - next else 0
    case CopyStatted(_) => m + 10
    case CopyReferenced(_, _) => m + 9
    case CopyOpened(_, _) => m + 8
    case CopyCreating(_, _, _) => m + 7
    case CopyData(_, _) => m + 6
    case CopyDetaching(_, _) => m + 5
    case CopyDropping(_, _, _) => m + 4
    case Copying => m + 3
    case Failed => m + 3
    case Disabling(next) => 1 + if next < m then m - next else 0
    case Done => 0
  }

  /** Its next step, when everything on the backup side works. */
  function NextOfBackup(s: State, newId: Sid): BackupStep
    requires !s.cp.Done?
  {
    match s.cp
    case NotStarted => StartBackup
    case Preparing(next) => if PastEnd(s, next) then PrepareEnd else PrepareOne(true)
    case CopyStatted(_) => CopyGet(newId)
    case CopyReferenced(_, _) => CopyOpen
    case CopyOpened(_, _) => CopyLock
    case CopyCreating(_, _, _) => CopyCreate(true)
    case CopyData(_, _) => CopyDataEnd(true)
    case CopyDetaching(_, _) => CopyDetach
    case CopyDropping(_, _, _) => CopyDrop
    case Copying => StartDisable
    case Failed => StartDisable
    case Disabling(next) => if PastEnd(s, next) then DisableEnd else DisableOne
  }

  lemma CopierFileIsThere(s: State)
    requires Inv(s)
    ensures CopierHolds(s.cp) ==> s.cp.sid in s.srcs && s.srcs[s.cp.sid].count > 0
    ensures forall fd :: fd in s.fmap ==> s.fmap[fd] in s.srcs
  {
    if CopierHolds(s.cp) {
      assert SrcOk(s, s.cp.sid);
    }
    assert forall fd :: fd in s.fmap ==> FdOk(s, fd, s.fmap[fd]);
  }

  lemma BackupCanGoOn(s: State, newId: Sid)
    requires Inv(s) && !s.cp.Done? && NoReaders(s) && newId !in s.srcs
    ensures BackupEnabled(s, NextOfBackup(s, newId)) && !Begins(Backup(NextOfBackup(s, newId)))
  {
    CopierFileIsThere(s);
    if s.cp.CopyStatted? {
      EntryIsThere(s, s.cp.path);
    }
    hide Inv, NoReaders;
  }

  predicate SameCalls(s: State, s': State) {
    s'.threads == s.threads && s'.fmap == s.fmap && s'.crashed == s.crashed
  }

  lemma ObjectsKeepCalls(s: State, sid: Sid, p: Path, newId: Sid, io: bool)
    ensures sid in s.srcs ==> SameCalls(s, TryRemoveDest(s, sid)) && SameCalls(s, TryCreate(s, sid, io))
    ensures sid in s.srcs && s.srcs[sid].count > 0 ==> SameCalls(s, DropRef(s, sid, ByCopier))
    ensures (p in s.table ==> s.table[p] in s.srcs) ==> SameCalls(s, GetOrCreate(s, p, newId, ByCopier))
  {
  }

  /** The backup thread has come nearer to its end. */
  predicate Nearer(s: State, s': State, m: nat) {
    SameCalls(s, s') && BackupLeft(s'.cp, m) < BackupLeft(s.cp, m)
  }

  lemma CreatedNearer(s: State, sid: Sid, io: bool, cp: BackupPc, m: nat)
    requires sid in s.srcs && BackupLeft(cp, m) < BackupLeft(s.cp, m)
    ensures Nearer(s, TryCreate(s, sid, io).(cp := cp), m)
  {
    ObjectsKeepCalls(s, sid, "", 0, io);
    hide TryCreate;
  }

  lemma PrepareAdvances(s: State, next: Fd, io: bool, m: nat)
    requires (next in s.fmap ==> s.fmap[next] in s.srcs) && next < m && s.cp == Preparing(next)
    ensures Nearer(s, DoPrepare(s, next, io), m)
  {
    if next in s.fmap {
      CreatedNearer(s, s.fmap[next], true, Preparing(next + 1), m);
    }
    assert Nearer(s, s.(cp := Preparing(next + 1)), m);
    assert Nearer(s, s.(cp := Copying, captureOn := true, aborted := true), m);
    assert Nearer(s, s.(cp := Failed, ioFailed := true, prepareFailed := true, captureOn := false), m);
    hide TryCreate, DoPrepare, Nearer;
    PrepareCases(s, next, io, x => Nearer(s, x, m));
  }

  lemma CreationAdvances(s: State, p: Path, sid: Sid, present: bool, io: bool, m: nat)
    requires sid in s.srcs && s.cp == CopyCreating(p, sid, present)
    ensures Nearer(s, DoCopyCreate(s, p, sid, present, io), m)
  {
    CreatedNearer(s, sid, io, CopyData(p, sid), m);
    CreatedNearer(s, sid, io, CopyDetaching(p, sid), m);
    assert Nearer(s, s.(cp := CopyDetaching(p, sid)), m);
    assert Nearer(s, s.(ioFailed := true, cp := CopyDropping(p, sid, false)), m);
    hide TryCreate, CreateFails, DoCopyCreate, Nearer;
    CopyCreateCases(s, p, sid, present, io, x => Nearer(s, x, m));
  }

  /** Every step of the backup thread but taking up a file brings the backup nearer to its end. */
  lemma BackupAdvances(s: State, b: BackupStep, m: nat)
    requires BackupEnabled(s, b) && !b.CopyPick? && forall fd :: fd in s.fmap ==> fd < m
    ensures Nearer(s, DoBackup(s, b), m)
  {
    hide TableFree, NoReaders, DoPrepare, DoCopyCreate, TryRemoveDest, TryCreate, DropRef, GetOrCreate;
    match b
    case PrepareOne(io) => PrepareAdvances(s, s.cp.next, io, m);
    case CopyGet(newId) => ObjectsKeepCalls(s, 0, s.cp.path, newId, true);
    case CopyCreate(io) => CreationAdvances(s, s.cp.path, s.cp.sid, s.cp.present, io, m);
    case CopyDetach => ObjectsKeepCalls(s, s.cp.sid, "", 0, true);
    case CopyDrop => ObjectsKeepCalls(s, s.cp.sid, "", 0, true);
    case DisableOne =>
      if s.cp.next in s.fmap {
        ObjectsKeepCalls(s, s.fmap[s.cp.next], "", 0, true);
      }
    case _ =>
  }

  lemma BackupGoesOn(s: State, m: nat) returns (b: BackupStep)
    requires Inv(s) && !s.crashed && !s.cp.Done? && NoReaders(s) && forall fd :: fd in s.fmap ==> fd < m
    ensures Enabled(s, Backup(b)) && !Begins(Backup(b))
    ensures var s' := Do(s, Backup(b));
      Inv(s') && Nearer(s, s', m)
  {
    hide Inv, BackupEnabled, DoBackup, NextOfBackup, BackupLeft;
    var newId := Bounded(s.srcs.Keys);
    BackupCanGoOn(s, newId);
    b := NextOfBackup(s, newId);
    BackupAdvances(s, b, m);
    StepKeepsInv(s, Backup(b));
  }

  lemma BusyExcludesReaders(s: State)
    requires Inv(s) && Busy(s.cp)
    ensures NoReaders(s)
  {
    forall t | t in s.threads
      ensures !s.threads[t].Creating?
    {
      OwnPc(s, t);
    }
  }

  /** The backup thread leaves its lock sections; and when no call is in flight, it comes to the end. */
  lemma {:induction false} BackupRuns(s: State, m: nat) returns (steps: seq<Step>, s': State)
    requires Inv(s) && !s.crashed && forall fd :: fd in s.fmap ==> fd < m
    ensures Reaches(s, steps, s') && NothingBegins(steps) && Inv(s') && SameCalls(s, s') && !Busy(s'.cp)
    ensures s.threads == map[] ==> s'.cp.Done?
    decreases BackupLeft(s.cp, m)
  {
    if s.cp.Done? || (!Busy(s.cp) && s.threads != map[]) {
      return [], s;
    }
    if Busy(s.cp) {
      BusyExcludesReaders(s);
    }
    assert NoReaders(s);
    hide Inv, Busy, NoReaders, Begins, NothingBegins, Enabled, Do, BackupLeft;
    var b := BackupGoesOn(s, m);
    var rest;
    rest, s' := BackupRuns(Do(s, Backup(b)), m);
    steps := [Backup(b)] + rest;
    NothingBeginsFirst(Backup(b), rest);
  }

  lemma {:induction false} RunsJoin(s: State, xs: seq<Step>, t: State, ys: seq<Step>, u: State)
    requires Reaches(s, xs, t) && Reaches(t, ys, u) && NothingBegins(xs) && NothingBegins(ys)
    ensures Reaches(s, xs + ys, u) && NothingBegins(xs + ys)
    decreases |xs|
  {
    hide Enabled, Do, Begins;
    if xs == [] {
      assert xs + ys == ys;
    } else {
      assert (xs + ys)[1..] == xs[1..] + ys;
      RunsJoin(Do(s, xs[0]), xs[1..], t, ys, u);
    }
  }

  /** From everywhere, without another call and without another file, all calls return and the backup ends, unless an
      unlink() follows a NULL pointer. */
  lemma EverythingCanEnd(s: State) returns (steps: seq<Step>, s': State)
    requires Reachable(s) && !s.crashed
    ensures Reaches(s, steps, s') && NothingBegins(steps)
    ensures s'.crashed || (s'.threads == map[] && s'.cp.Done?)
  {
    ReachableInv(s);
    hide Inv, Reachable, Busy, NothingBegins;
    var m := Bounded(s.fmap.Keys);
    var first, s1 := BackupRuns(s, m);
    var n := Bounded(s1.threads.Keys);
    var second, s2 := CallsEnd(s1, n);
    RunsJoin(s, first, s1, second, s2);
    if s2.crashed {
      return first + second, s2;
    }
    var k := Bounded(s2.fmap.Keys);
    var third;
    third, s' := BackupRuns(s2, k);
    RunsJoin(s, first + second, s2, third, s');
    steps := first + second + third;
  }
}
