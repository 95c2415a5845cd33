/** What the invariant of SessionSafety says about every run. */
module SessionTheorems {
  import opened Session
  import opened SessionSafety
  import opened SessionBackup
  import opened SessionDelivery

  ghost predicate Reachable(s: State) {
    exists s0, steps :: Init(s0) && Reaches(s0, steps, s)
  }

  lemma InitKeepsInv(s: State)
    requires Init(s)
    ensures Inv(s)
  {
  }

  lemma StepKeepsInv(s: State, step: Step)
    requires Inv(s) && Enabled(s, step)
    ensures Inv(Do(s, step))
  {
    hide Inv;
    match step
    case App(t, a) => AppKeepsInv(s, t, a);
    case Backup(b) => BackupKeepsInv(s, b);
  }

  lemma {:induction false} RunKeepsInv(s: State, steps: seq<Step>, t: State)
    requires Inv(s) && Reaches(s, steps, t)
    ensures Inv(t)
    decreases |steps|
  {
    hide Inv;
    if steps != [] {
      StepKeepsInv(s, steps[0]);
      RunKeepsInv(Do(s, steps[0]), steps[1..], t);
    }
  }

  lemma ReachableInv(s: State)
    requires Reachable(s)
    ensures Inv(s)
  {
    hide Inv;
    var s0, steps :| Init(s0) && Reaches(s0, steps, s);
    InitKeepsInv(s0);
    RunKeepsInv(s0, steps, s);
  }

  // ----- reference conservation -----

  /** The descriptions that point at a source_file, and the calls in flight that hold a reference to it. */
  function FdsOf(s: State, sid: Sid): set<Fd> {
    set fd | fd in s.fmap && s.fmap[fd] == sid
  }

  function ThreadsOf(s: State, sid: Sid): set<Tid> {
    set t | t in s.threads && CountedBy(s.threads[t], sid)
  }

  function CopierOf(s: State, sid: Sid): set<Ref> {
    if CopierHolds(s.cp) && s.cp.sid == sid then {ByCopier} else {}
  }

  function FdRefs(fds: set<Fd>): set<Ref> {
    set fd | fd in fds :: ByFd(fd)
  }

  function ThreadRefs(ts: set<Tid>): set<Ref> {
    set t | t in ts :: ByThread(t)
  }

  lemma {:induction false} FdRefsSize(fds: set<Fd>)
    ensures |FdRefs(fds)| == |fds|
  {
    if fds != {} {
      var fd :| fd in fds;
      FdRefsSize(fds - {fd});
      assert FdRefs(fds) == FdRefs(fds - {fd}) + {ByFd(fd)};
    }
  }

  lemma {:induction false} ThreadRefsSize(ts: set<Tid>)
    ensures |ThreadRefs(ts)| == |ts|
  {
    if ts != {} {
      var t :| t in ts;
      ThreadRefsSize(ts - {t});
      assert ThreadRefs(ts) == ThreadRefs(ts - {t}) + {ByThread(t)};
    }
  }

  lemma HolderIsLive(s: State, r: Ref, sid: Sid)
    requires Inv(s) && HeldBy(s, r, sid)
    ensures Live(s, sid, r)
  {
    if r.ByThread? {
      OwnPc(s, r.t);
    }
  }

  lemma HoldersEnumerated(s: State, sid: Sid, r: Ref)
    ensures r in FdRefs(FdsOf(s, sid)) + ThreadRefs(ThreadsOf(s, sid)) + CopierOf(s, sid) <==> HeldBy(s, r, sid)
  {
  }

  lemma HeldIffCounted(s: State, sid: Sid, r: Ref)
    requires Inv(s) && sid in s.srcs
    ensures r in s.srcs[sid].refs <==> HeldBy(s, r, sid)
  {
    assert SrcOk(s, sid);
    if HeldBy(s, r, sid) {
      HolderIsLive(s, r, sid);
    }
  }

  lemma RefsAreHolders(s: State, sid: Sid)
    requires Inv(s) && sid in s.srcs
    ensures s.srcs[sid].refs == FdRefs(FdsOf(s, sid)) + ThreadRefs(ThreadsOf(s, sid)) + CopierOf(s, sid)
  {
    hide *;
    forall r
      ensures r in s.srcs[sid].refs <==> r in FdRefs(FdsOf(s, sid)) + ThreadRefs(ThreadsOf(s, sid)) + CopierOf(s, sid)
    {
      HeldIffCounted(s, sid, r);
      HoldersEnumerated(s, sid, r);
    }
  }

  /** A count is the mapped descriptions plus the holders in flight, plus what failed unlink() calls abandoned. */
  lemma RefConservation(s: State, sid: Sid)
    requires Reachable(s) && sid in s.srcs
    ensures s.srcs[sid].count == |FdsOf(s, sid)| + |ThreadsOf(s, sid)| + |CopierOf(s, sid)| + s.srcs[sid].leaked
    ensures !s.srcs[sid].failed ==> s.srcs[sid].leaked == 0
    ensures s.srcs[sid].count > 0
  {
    ReachableInv(s);
    assert SrcOk(s, sid);
    RefsAreHolders(s, sid);
    FdRefsSize(FdsOf(s, sid));
    ThreadRefsSize(ThreadsOf(s, sid));
    hide Inv, SrcOk;
    var f, t, c := FdRefs(FdsOf(s, sid)), ThreadRefs(ThreadsOf(s, sid)), CopierOf(s, sid);
    assert f !! t && (f + t) !! c;
  }

  predicate UsesSource(pc: Pc) {
    pc.Referenced? || pc.Mapped? || pc.Creating? || pc.Closing? || pc.Erasing? || pc.Dropping? || pc.UnlinkReferenced?
  }

  /** Nobody's pointer dangles: the table, the fmap, every call in flight and the copier point at objects that exist and
      are counted.  So the existence conditions of the steps never block, and the decrement check never fires. */
  lemma NoDanglingReference(s: State)
    requires Reachable(s)
    ensures forall fd :: fd in s.fmap ==> s.fmap[fd] in s.srcs
    ensures forall p :: p in s.table ==> s.table[p] in s.srcs && s.srcs[s.table[p]].name == p
    ensures forall t :: t in s.threads && UsesSource(s.threads[t]) ==>
      s.threads[t].sid in s.srcs && s.srcs[s.threads[t].sid].count > 0
    ensures CopierHolds(s.cp) ==> s.cp.sid in s.srcs && s.srcs[s.cp.sid].count > 0 && s.srcs[s.cp.sid].name == s.cp.path
  {
    ReachableInv(s);
    forall sid | sid in s.srcs
      ensures s.srcs[sid].count > 0
    {
      assert SrcOk(s, sid);
    }
    assert FdsOk(s) && TableOk(s) && CopierOk(s);
    forall t | t in s.threads && UsesSource(s.threads[t])
      ensures s.threads[t].sid in s.srcs
    {
      OwnPc(s, t);
    }
  }

  /** put() finds its slot empty, and no two calls work on one descriptor. */
  lemma PutFindsAnEmptySlot(s: State, t: Tid, u: Tid)
    requires Reachable(s) && t in s.threads && u in s.threads
    ensures s.threads[t].Referenced? ==> s.threads[t].fd !in s.fmap
    ensures forall fd :: OwnsFd(s.threads[t], fd) && OwnsFd(s.threads[u], fd) ==> t == u
  {
    ReachableInv(s);
    OwnPc(s, t);
  }

  lemma UnlinkSourceLeaksNothing(s: State, t: Tid, sid: Sid)
    requires sid in s.srcs && s.srcs[sid].count > 0
    ensures var s' := UnlinkSource(s, t, sid); sid in s'.srcs ==> s'.srcs[sid].leaked == s.srcs[sid].leaked
  {
  }

  lemma CreateLeaksNothing(s: State, sid: Sid, io: bool)
    requires sid in s.srcs
    ensures var s' := TryCreate(s, sid, io);
      && sid in s'.srcs && s'.srcs[sid].leaked == s.srcs[sid].leaked && s'.srcs[sid].count == s.srcs[sid].count
      && s'.crashed == s.crashed
  {
  }

  /** unlink() abandons a reference exactly when the call is captured, its object has no destination and is not marked,
      and the destination cannot be created. */
  lemma UnlinkLeaksIff(s: State, t: Tid, p: Path, sid: Sid, io: bool, ioUnlink: bool)
    requires sid in s.srcs && s.srcs[sid].count > 0
    ensures var s' := DoCaptureUnlink(s, t, p, sid, io, ioUnlink);
      (sid in s'.srcs && s'.srcs[sid].leaked != s.srcs[sid].leaked) <==>
        ShouldCaptureUnlink(s, p) && !s.srcs[sid].unlinked && !s.srcs[sid].dest && !io
  {
    hide ShouldCaptureUnlink, TryCreate, UnlinkSource;
    if !ShouldCaptureUnlink(s, p) {
      UnlinkSourceLeaksNothing(s, t, sid);
    } else if !CreateFails(s, sid, io) && (!s.srcs[sid].unlinked || s.srcs[sid].dest) {
      CreateLeaksNothing(s, sid, io);
      var s1 := TryCreate(s, sid, io);
      if ioUnlink {
        UnlinkSourceLeaksNothing(s1.(backup := s1.backup - {p}, captured := s1.captured + {p}), t, sid);
      } else {
        UnlinkSourceLeaksNothing(s1.(ioFailed := true, captureOn := false), t, sid);
      }
    }
  }

  /** A reference that unlink() abandoned is never given back: from then on the object is never freed. */
  lemma AbandonedReferenceStays(s: State, steps: seq<Step>, t: State, sid: Sid)
    requires Reachable(s) && Reaches(s, steps, t) && sid in s.srcs && s.srcs[sid].leaked > 0
    ensures sid in t.srcs && t.srcs[sid].leaked > 0 && t.srcs[sid].count > 0
  {
    ReachableInv(s);
    ReachableBacked(s);
    hide Reachable, Backed;
    LeakedForever(s, steps, t, sid);
  }

  lemma {:induction false} LeakedForever(s: State, steps: seq<Step>, t: State, sid: Sid)
    requires Inv(s) && Backed(s) && Reaches(s, steps, t) && sid in s.srcs && s.srcs[sid].leaked > 0
    ensures sid in t.srcs && t.srcs[sid].leaked > 0 && t.srcs[sid].count > 0
    decreases |steps|
  {
    if steps == [] {
      assert SrcOk(s, sid);
    } else {
      StepKeepsInv(s, steps[0]);
      StepIsGentle(s, steps[0]);
      assert LeakKept(s, Do(s, steps[0]), sid);
      StepKeepsBacked(s, steps[0]);
      hide Inv, Gentle, Backed;
      LeakedForever(Do(s, steps[0]), steps[1..], t, sid);
    }
  }

  lemma StepIsGentle(s: State, step: Step)
    requires Inv(s) && Enabled(s, step) && (s.cp.NotStarted? ==> s.backup == {})
    ensures Gentle(s, Do(s, step))
  {
    hide Inv, Gentle;
    match step
    case App(t, a) => AppIsGentle(s, t, a);
    case Backup(b) => BackupIsGentle(s, b);
  }

  // ----- capture coverage -----

  /** A step of a thread leaves the backup thread alone, and only creating a file takes it out of `captured`. */
  predicate BackupAlone(s: State, s': State) {
    && s'.cp == s.cp && s'.cfg == s.cfg && s'.aborted == s.aborted && s'.prepareFailed == s.prepareFailed
    && s.goneSincePick <= s'.goneSincePick && forall p :: p in s.fs && p !in s'.fs ==> p in s'.goneSincePick
  }

  predicate Steady(s: State, s': State, p: Path) {
    BackupAlone(s, s') && (p in s.captured ==> p in s'.captured)
  }

  lemma OpenSteady(s: State, t: Tid, fd: Fd, p: Path, creat: bool, q: Path)
    ensures Steady(s, DoRealOpen(s, t, fd, p, creat), q) || (creat && q == p)
    ensures BackupAlone(s, DoRealOpen(s, t, fd, p, creat))
  {
  }

  lemma RealpathSteady(s: State, t: Tid, fd: Fd, p: Path, q: Path)
    ensures Steady(s, DoRealpath(s, t, fd, p), q)
  {
    if p in s.fs {
      assert DoRealpath(s, t, fd, p) == Goto(s, t, Resolved(fd, p));
    } else {
      assert DoRealpath(s, t, fd, p) == Finish(s.(captureOn := false), t);
    }
  }

  lemma StartCloseSteady(s: State, t: Tid, fd: Fd, q: Path)
    ensures Steady(s, DoStartClose(s, t, fd), q)
  {
  }

  lemma RealUnlinkSteady(s: State, t: Tid, p: Path, ok: bool, q: Path)
    ensures Steady(s, DoRealUnlink(s, t, p, ok), q)
  {
  }

  lemma GetSteady(s: State, t: Tid, fd: Fd, p: Path, newId: Sid, q: Path)
    requires CanGet(s, p, newId)
    ensures Steady(s, DoGetSource(s, t, fd, p, newId), q) && Steady(s, DoUnlinkGet(s, t, p, newId), q)
  {
    hide TableFree;
  }

  lemma MapSteady(s: State, t: Tid, fd: Fd, sid: Sid, q: Path)
    requires sid in s.srcs
    ensures Steady(s, DoPut(s, t, fd, sid), q) && Steady(s, DoErase(s, t, fd, sid), q)
  {
  }

  lemma EnterOpenSteady(s: State, t: Tid, fd: Fd, sid: Sid, io: bool, q: Path)
    requires sid in s.srcs
    ensures Steady(s, DoEnterOpen(s, t, fd, sid, io), q)
  {
  }

  lemma CreateSteady(s: State, t: Tid, sid: Sid, ok: bool, io: bool, q: Path)
    requires sid in s.srcs
    ensures Steady(s, DoCreateOnOpen(s, t, sid, ok, io), q)
  {
  }

  lemma CloseSteady(s: State, t: Tid, fd: Fd, sid: Sid, q: Path)
    requires sid in s.srcs
    ensures Steady(s, DoCloseDetach(s, t, fd, sid), q)
  {
  }

  lemma DropSteady(s: State, t: Tid, fd: Fd, sid: Sid, q: Path)
    requires sid in s.srcs && s.srcs[sid].count > 0
    ensures Steady(s, DoDrop(s, t, fd, sid), q)
  {
  }

  lemma UnlinkSourceSteady(s: State, t: Tid, sid: Sid, q: Path)
    requires sid in s.srcs && s.srcs[sid].count > 0
    ensures Steady(s, UnlinkSource(s, t, sid), q)
  {
  }

  lemma LeakSteady(s: State, t: Tid, sid: Sid, q: Path)
    requires sid in s.srcs
    ensures Steady(s, LeakRef(s, t, sid), q) && Steady(s, s.(crashed := true), q)
  {
  }

  lemma RemovedSteady(s: State, t: Tid, p: Path, sid: Sid, s1: State, q: Path)
    requires s1 == s.(srcs := s1.srcs, backup := s1.backup, ioFailed := s1.ioFailed)
    requires sid in s1.srcs && s1.srcs[sid].count > 0
    ensures Steady(s, UnlinkSource(s1.(backup := s1.backup - {p}, captured := s1.captured + {p}), t, sid), q)
    ensures Steady(s, UnlinkSource(s1.(ioFailed := true, captureOn := false), t, sid), q)
  {
    hide UnlinkSource;
    UnlinkSourceSteady(s1.(backup := s1.backup - {p}, captured := s1.captured + {p}), t, sid, q);
    UnlinkSourceSteady(s1.(ioFailed := true, captureOn := false), t, sid, q);
  }

  lemma CaptureUnlinkSteady(s: State, t: Tid, p: Path, sid: Sid, io: bool, ioUnlink: bool, q: Path)
    requires sid in s.srcs && s.srcs[sid].count > 0
    ensures Steady(s, DoCaptureUnlink(s, t, p, sid, io, ioUnlink), q)
  {
    TryCreateFields(s, sid, io);
    hide UnlinkSource, TryCreate, CreateFails, LeakRef, Steady;
    if !ShouldCaptureUnlink(s, p) {
      UnlinkSourceSteady(s, t, sid, q);
    } else if CreateFails(s, sid, io) || (s.srcs[sid].unlinked && !s.srcs[sid].dest) {
      LeakSteady(s, t, sid, q);
    } else {
      RemovedSteady(s, t, p, sid, TryCreate(s, sid, io), q);
    }
  }

  lemma AppSteady(s: State, t: Tid, a: AppStep, q: Path)
    requires AppEnabled(s, t, a)
    ensures Recreates(App(t, a), q) || Steady(s, DoApp(s, t, a), q)
    ensures BackupAlone(s, DoApp(s, t, a))
  {
    hide Settled, TableFree, CanGet, DoRealOpen, DoRealpath, DoGetSource, DoPut, DoEnterOpen, DoCreateOnOpen,
      DoStartClose,
      DoCloseDetach, DoErase, DoDrop, DoRealUnlink, DoUnlinkGet, DoCaptureUnlink;
    match a
    case RealOpen(fd, p, creat) => OpenSteady(s, t, fd, p, creat, q);
    case Realpath => RealpathSteady(s, t, s.threads[t].fd, s.threads[t].path, q);
    case GetSource(newId) => GetSteady(s, t, s.threads[t].fd, s.threads[t].path, newId, q);
    case Put => MapSteady(s, t, s.threads[t].fd, s.threads[t].sid, q);
    case EnterOpen(io) => EnterOpenSteady(s, t, s.threads[t].fd, s.threads[t].sid, io, q);
    case CreateOnOpen(io) => CreateSteady(s, t, s.threads[t].sid, s.threads[t].ok, io, q);
    case StartClose(fd) => StartCloseSteady(s, t, fd, q);
    case CloseDetach => CloseSteady(s, t, s.threads[t].fd, s.threads[t].sid, q);
    case Erase => MapSteady(s, t, s.threads[t].fd, s.threads[t].sid, q);
    case Drop => DropSteady(s, t, s.threads[t].fd, s.threads[t].sid, q);
    case RealClose =>
    case StartUnlink(p) =>
    case RealUnlink(ok) => RealUnlinkSteady(s, t, s.threads[t].path, ok, q);
    case UnlinkGet(newId) => GetSteady(s, t, 0, s.threads[t].path, newId, q);
    case CaptureUnlink(io, ioUnlink) => CaptureUnlinkSteady(s, t, s.threads[t].path, s.threads[t].sid, io, ioUnlink, q);
  }

  predicate SameCaptured(s: State, s': State) {
    s'.captured == s.captured
  }

  lemma ObjectsKeepCaptured(s: State, sid: Sid, p: Path, newId: Sid)
    ensures sid in s.srcs ==> SameCaptured(s, TryRemoveDest(s, sid)) && SameCaptured(s, TryCreate(s, sid, true))
    ensures sid in s.srcs && s.srcs[sid].count > 0 ==> SameCaptured(s, DropRef(s, sid, ByCopier))
    ensures (p in s.table ==> s.table[p] in s.srcs) ==> SameCaptured(s, GetOrCreate(s, p, newId, ByCopier))
  {
  }

  lemma BackupKeepsCaptured(s: State, b: BackupStep)
    requires BackupEnabled(s, b)
    ensures SameCaptured(s, DoBackup(s, b))
  {
    hide TableFree, NoReaders, PastEnd, DoPrepare, DoCopyCreate, TryRemoveDest, TryCreate, DropRef, GetOrCreate;
    match b
    case PrepareOne(io) => PrepareKeepsCaptured(s, s.cp.next, io);
    case CopyGet(newId) => ObjectsKeepCaptured(s, 0, s.cp.path, newId);
    case CopyCreate(io) => CopyCreateKeepsCaptured(s, s.cp.path, s.cp.sid, s.cp.present, io);
    case CopyDetach => ObjectsKeepCaptured(s, s.cp.sid, s.cp.path, 0);
    case CopyDrop => ObjectsKeepCaptured(s, s.cp.sid, s.cp.path, 0);
    case DisableOne => DisableKeepsCaptured(s);
    case _ =>
  }

  lemma DisableKeepsCaptured(s: State)
    requires BackupEnabled(s, DisableOne)
    ensures SameCaptured(s, DoBackup(s, DisableOne))
  {
    if s.cp.next in s.fmap {
      ObjectsKeepCaptured(s, s.fmap[s.cp.next], "", 0);
    }
    hide TryRemoveDest, PastEnd;
  }

  lemma PrepareKeepsCaptured(s: State, next: Fd, io: bool)
    requires next in s.fmap ==> s.fmap[next] in s.srcs
    ensures SameCaptured(s, DoPrepare(s, next, io))
  {
    if next in s.fmap {
      CreatedCaptured(s, s.fmap[next], true, Preparing(next + 1));
    }
    assert SameCaptured(s, s.(cp := Preparing(next + 1)));
    assert SameCaptured(s, s.(cp := Copying, captureOn := true, aborted := true));
    assert SameCaptured(s, s.(cp := Failed, ioFailed := true, prepareFailed := true, captureOn := false));
    hide TryCreate, DoPrepare, SameCaptured;
    PrepareCases(s, next, io, x => SameCaptured(s, x));
  }

  lemma CreatedCaptured(s: State, sid: Sid, io: bool, cp: BackupPc)
    requires sid in s.srcs
    ensures SameCaptured(s, TryCreate(s, sid, io).(cp := cp))
  {
  }

  lemma CopyCreateKeepsCaptured(s: State, p: Path, sid: Sid, present: bool, io: bool)
    requires sid in s.srcs
    ensures SameCaptured(s, DoCopyCreate(s, p, sid, present, io))
  {
    CreatedCaptured(s, sid, io, CopyData(p, sid));
    CreatedCaptured(s, sid, io, CopyDetaching(p, sid));
    assert SameCaptured(s, s.(cp := CopyDetaching(p, sid)));
    assert SameCaptured(s, s.(ioFailed := true, cp := CopyDropping(p, sid, false)));
    hide TryCreate, CreateFails, DoCopyCreate, SameCaptured;
    CopyCreateCases(s, p, sid, present, io, x => SameCaptured(s, x));
  }

  lemma StepKeepsBacked(s: State, step: Step)
    requires Inv(s) && Backed(s) && Enabled(s, step)
    ensures Backed(Do(s, step))
  {
    StepIsGentle(s, step);
    GentleKeepsObjects(s, Do(s, step));
    StepKeepsInv(s, step);
    assert CopierOk(s) && CopierOk(Do(s, step));
    hide Inv, CopierOk, ObjectsBacked, CopierBacked, Gentle;
    match step
    case App(t, a) =>
      AppSteady(s, t, a, "");
      AppKeepsCopier(s, DoApp(s, t, a));
    case Backup(b) => BackupKeepsCopier(s, b);
  }

  lemma {:induction false} RunKeepsBacked(s: State, steps: seq<Step>, t: State)
    requires Inv(s) && Backed(s) && Reaches(s, steps, t)
    ensures Backed(t)
    decreases |steps|
  {
    hide Inv, Backed;
    if steps != [] {
      StepKeepsInv(s, steps[0]);
      StepKeepsBacked(s, steps[0]);
      RunKeepsBacked(Do(s, steps[0]), steps[1..], t);
    }
  }

  lemma ReachableBacked(s: State)
    requires Reachable(s)
    ensures Backed(s)
  {
    hide Inv;
    var s0, steps :| Init(s0) && Reaches(s0, steps, s);
    InitKeepsInv(s0);
    RunKeepsBacked(s0, steps, s);
  }

  /** The destination a mapped description has: its object's, and the file it stands for is in the backup. */
  predicate Captured(s: State, fd: Fd)
    requires fd in s.fmap && s.fmap[fd] in s.srcs
  {
    s.srcs[s.fmap[fd]].dest && s.srcs[s.fmap[fd]].name in s.backup
  }

  /** Between prepare and the end of copying, every mapped description whose open() has returned and whose close()
      has not begun, of a file that still has its name, inside the source and not excluded, has a destination that is a
      file of the backup; unless its object was marked by an unlink() of an earlier file of that name, or creating this
      very destination failed.  Failures elsewhere do not matter. */
  lemma CaptureCoverage(s: State, fd: Fd)
    requires Reachable(s) && Copied(s.cp) && !s.aborted
    requires fd in s.fmap && fd in s.linked && Settled(s, fd)
    ensures s.fmap[fd] in s.srcs && fd in s.kernelFds
    ensures s.srcs[s.fmap[fd]].name == s.linked[fd] && s.linked[fd] in s.fs
    ensures var src := s.srcs[s.fmap[fd]];
      src.name in s.cfg.inSource && src.name !in s.cfg.backupExcluded && !src.unlinked && !src.failed ==>
        Captured(s, fd)
  {
    ReachableInv(s);
    assert CoverOk(s) && FdsOk(s) && GoneOk(s) && Covered(s, fd);
    assert FdOk(s, fd, s.fmap[fd]) && HasDestination(s, s.fmap[fd]);
    ReachableBacked(s);
    assert ObjectBacked(s, s.srcs[s.fmap[fd]]);
    hide Inv, Backed, Clean, Settled;
  }

  /** The mark decides: as long as no error has been reported, a marked object has no file in the backup. */
  lemma CoverageIff(s: State, fd: Fd)
    requires Reachable(s) && Copied(s.cp) && !s.aborted && s.captureOn
    requires fd in s.fmap && fd in s.linked && Settled(s, fd) && s.fmap[fd] in s.srcs
    requires var src := s.srcs[s.fmap[fd]];
      Followed(s, src.name) && src.name !in s.cfg.backupExcluded && !src.failed
    ensures Captured(s, fd) <==> !s.srcs[s.fmap[fd]].unlinked
  {
    hide Reachable, Settled, Captured;
    CaptureCoverage(s, fd);
    if s.srcs[s.fmap[fd]].unlinked {
      MarkedHasNoFile(s, s.fmap[fd]);
      assert !Captured(s, fd) by {
        NotCaptured(s, fd);
      }
    }
  }

  lemma NotCaptured(s: State, fd: Fd)
    requires fd in s.fmap && s.fmap[fd] in s.srcs && s.srcs[s.fmap[fd]].name !in s.backup
    ensures !Captured(s, fd)
  {
  }

  lemma MarkedHasNoFile(s: State, sid: Sid)
    requires Reachable(s) && Copied(s.cp) && s.captureOn && sid in s.srcs && s.srcs[sid].unlinked
    requires Followed(s, s.srcs[sid].name)
    ensures s.srcs[sid].name !in s.backup
  {
    ReachableInv(s);
    assert GoneOk(s);
    hide Inv;
    ReachableBacked(s);
    assert ObjectBacked(s, s.srcs[sid]);
  }

  /** What the copier finishes without error is in the backup, if the file has kept its name since it was picked and
      its object is not marked; and, as long as no error has been reported, only then. */
  lemma CopierDeliversItsFile(s: State)
    requires Reachable(s) && s.cp.CopyDropping? && s.cp.ok && s.cp.path !in s.goneSincePick
    ensures s.cp.path in s.fs && s.cp.sid in s.srcs && s.srcs[s.cp.sid].name == s.cp.path
    ensures !s.srcs[s.cp.sid].unlinked ==> s.cp.path in s.backup
    ensures s.captureOn ==> (s.cp.path in s.backup <==> !s.srcs[s.cp.sid].unlinked)
  {
    ReachableInv(s);
    assert CopierOk(s);
    ReachableBacked(s);
    assert CopierBacked(s);
    hide Inv, Backed, Reachable;
    if s.captureOn && s.srcs[s.cp.sid].unlinked {
      MarkedHasNoFile(s, s.cp.sid);
    }
  }

  // ----- unlinked stays unlinked -----

  predicate Recreates(step: Step, p: Path) {
    step.App? && step.a.RealOpen? && step.a.creat && step.a.path == p
  }

  lemma StaysCaptured(s: State, step: Step, p: Path)
    requires Enabled(s, step) && p in s.captured && !Recreates(step, p)
    ensures p in Do(s, step).captured
  {
    match step
    case App(t, a) => AppSteady(s, t, a, p);
    case Backup(b) => BackupKeepsCaptured(s, b);
  }

  lemma {:induction false} CapturedForever(s: State, steps: seq<Step>, t: State, p: Path)
    requires Reaches(s, steps, t) && p in s.captured && forall i :: 0 <= i < |steps| ==> !Recreates(steps[i], p)
    ensures p in t.captured
    decreases |steps|
  {
    if steps != [] {
      StaysCaptured(s, steps[0], p);
      CapturedForever(Do(s, steps[0]), steps[1..], t, p);
    }
  }

  /** Once a captured unlink() of `p` has finished, having neither failed nor followed a NULL destination, nothing that
      happens before somebody creates `p` again, not a copier that had already looked at the file nor an open() still on
      its way, puts it back into the backup. */
  lemma UnlinkedStaysUnlinked(s: State, t: Tid, io: bool, ioUnlink: bool, p: Path, after: seq<Step>, s': State)
    requires Reachable(s) && Enabled(s, App(t, CaptureUnlink(io, ioUnlink))) && s.threads[t].path == p
    requires ShouldCaptureUnlink(s, p) && !CreateFails(s, s.threads[t].sid, io) && ioUnlink
    requires !(s.srcs[s.threads[t].sid].unlinked && !s.srcs[s.threads[t].sid].dest)
    requires Reaches(Do(s, App(t, CaptureUnlink(io, ioUnlink))), after, s')
    requires forall i :: 0 <= i < |after| ==> !Recreates(after[i], p)
    ensures p !in s'.backup && p !in s'.fs
  {
    var step := App(t, CaptureUnlink(io, ioUnlink));
    ReachableInv(s);
    CapturedNow(s, t, p, s.threads[t].sid, io);
    StepKeepsInv(s, step);
    hide Inv, Reachable, ShouldCaptureUnlink;
    CapturedForever(Do(s, step), after, s', p);
    RunKeepsInv(Do(s, step), after, s');
    assert GoneOk(s') by {
      assert Inv(s');
    }
  }

  lemma CapturedNow(s: State, t: Tid, p: Path, sid: Sid, io: bool)
    requires Inv(s) && t in s.threads && s.threads[t] == UnlinkReferenced(p, sid)
    requires ShouldCaptureUnlink(s, p) && sid in s.srcs && !CreateFails(s, sid, io) && s.srcs[sid].count > 0
    requires !(s.srcs[sid].unlinked && !s.srcs[sid].dest)
    ensures p in DoCaptureUnlink(s, t, p, sid, io, true).captured
  {
    OwnPc(s, t);
    assert SrcOk(s, sid);
    hide Inv;
  }

  /** A NULL destination is followed only if some name was created again after it had been unlinked. */
  lemma CrashNeedsRecreation(s: State)
    requires Reachable(s) && s.crashed
    ensures s.recreated != {}
  {
    ReachableInv(s);
  }

  lemma UnlinkSourceReturns(s: State, t: Tid, sid: Sid)
    requires sid in s.srcs && s.srcs[sid].count > 0
    ensures UnlinkSource(s, t, sid).crashed == s.crashed
  {
  }

  lemma CrashesIff(s: State, t: Tid, p: Path, sid: Sid, io: bool, ioUnlink: bool)
    requires sid in s.srcs && s.srcs[sid].count > 0 && !s.crashed
    ensures DoCaptureUnlink(s, t, p, sid, io, ioUnlink).crashed <==>
      ShouldCaptureUnlink(s, p) && s.srcs[sid].unlinked && !s.srcs[sid].dest
  {
    hide ShouldCaptureUnlink, TryCreate, UnlinkSource;
    if !ShouldCaptureUnlink(s, p) {
      UnlinkSourceReturns(s, t, sid);
    } else if !CreateFails(s, sid, io) && (!s.srcs[sid].unlinked || s.srcs[sid].dest) {
      CreateLeaksNothing(s, sid, io);
      var s1 := TryCreate(s, sid, io);
      if ioUnlink {
        UnlinkSourceReturns(s1.(backup := s1.backup - {p}, captured := s1.captured + {p}), t, sid);
      } else {
        UnlinkSourceReturns(s1.(ioFailed := true, captureOn := false), t, sid);
      }
    }
  }

  lemma MarkedWasRecreated(s: State, t: Tid, p: Path, sid: Sid)
    requires Inv(s) && t in s.threads && s.threads[t] == UnlinkReferenced(p, sid) && sid in s.srcs
    requires s.srcs[sid].unlinked
    ensures p in s.recreated
  {
    OwnPc(s, t);
    assert SrcOk(s, sid);
    assert MarkedUnlinked(s, p);
    hide Inv;
  }

  /** unlink() follows it exactly when the call is captured and its object was marked by an earlier unlink() and has no
      destination; the name has then been created again since. */
  lemma UnlinkCrashesIff(s: State, t: Tid, p: Path, sid: Sid, io: bool, ioUnlink: bool)
    requires Reachable(s) && Enabled(s, App(t, CaptureUnlink(io, ioUnlink))) && s.threads[t] == UnlinkReferenced(p, sid)
    ensures var crashes := Do(s, App(t, CaptureUnlink(io, ioUnlink))).crashed;
      && (crashes <==> ShouldCaptureUnlink(s, p) && s.srcs[sid].unlinked && !s.srcs[sid].dest)
      && (crashes ==> p in s.recreated)
  {
    ReachableInv(s);
    hide Inv, Reachable, TableFree, ShouldCaptureUnlink, DoCaptureUnlink;
    CrashesIff(s, t, p, sid, io, ioUnlink);
    if s.srcs[sid].unlinked {
      MarkedWasRecreated(s, t, p, sid);
    }
  }
}
