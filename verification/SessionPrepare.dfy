/** When prepare stops short.  The loop over the descriptors is left, with success, at the first open file that
    lies in the source and is excluded; the descriptors behind it get no destination.  Here: it stops short exactly
    when such a file was open as the loop began, whatever the other threads do meanwhile. */
module SessionPrepare {
  import opened Session
  import opened SessionSafety
  import opened SessionBackup
  import opened SessionTheorems

  /** An open file that ends the loop. */
  predicate Stopper(s: State, fd: Fd) {
    && fd in s.fmap && s.fmap[fd] in s.srcs
    && s.srcs[s.fmap[fd]].name in s.cfg.inSource && s.srcs[s.fmap[fd]].name in s.cfg.backupExcluded
  }

  ghost predicate ExcludedFileOpen(s: State) {
    exists fd :: Stopper(s, fd)
  }

  predicate NamesKept(s: State, s': State) {
    forall sid :: sid in s.srcs && sid in s'.srcs ==>
      s'.srcs[sid].name == s.srcs[sid].name && s'.srcs[sid].unlinked == s.srcs[sid].unlinked
  }

  /** The descriptors, the names of their files, and the exclusions, are those of `s0`. */
  predicate SameOpenFiles(s0: State, s: State) {
    && s.fmap == s0.fmap && s.cfg == s0.cfg
    && forall fd :: fd in s.fmap ==>
         s.fmap[fd] in s.srcs && s.fmap[fd] in s0.srcs && s.srcs[s.fmap[fd]].name == s0.srcs[s.fmap[fd]].name
  }

  /** What is known at `s` about a prepare that began at `s0`. */
  ghost predicate Watching(s0: State, s: State) {
    if s.cp.Preparing? then
      SameOpenFiles(s0, s) && !s.aborted && forall fd: Fd :: fd < s.cp.next ==> !Stopper(s0, fd)
    else
      && !s.cp.NotStarted?
      && (s.aborted ==> ExcludedFileOpen(s0))
      && (ExcludedFileOpen(s0) ==> s.aborted || s.prepareFailed)
  }

  predicate SameOpen(s: State, s': State) {
    s'.fmap == s.fmap && NamesKept(s, s')
  }

  lemma SameByFields(s: State, s': State)
    requires s'.fmap == s.fmap && s'.srcs == s.srcs
    ensures SameOpen(s, s')
  {
  }

  lemma GetKeepsOpen(s: State, t: Tid, fd: Fd, p: Path, newId: Sid)
    requires CanGet(s, p, newId)
    ensures SameOpen(s, DoGetSource(s, t, fd, p, newId)) && SameOpen(s, DoUnlinkGet(s, t, p, newId))
  {
    hide TableFree;
  }

  lemma DropKeepsOpen(s: State, t: Tid, fd: Fd, sid: Sid)
    requires sid in s.srcs && s.srcs[sid].count > 0
    ensures SameOpen(s, DoDrop(s, t, fd, sid))
  {
  }

  lemma RealpathKeepsOpen(s: State, t: Tid, fd: Fd, p: Path)
    ensures SameOpen(s, DoRealpath(s, t, fd, p))
  {
    RealpathSteady(s, t, fd, p, p);
    if p in s.fs {
      assert DoRealpath(s, t, fd, p) == Goto(s, t, Resolved(fd, p));
    } else {
      assert DoRealpath(s, t, fd, p) == Finish(s.(captureOn := false), t);
    }
  }

  lemma FsKeepsOpen(s: State, t: Tid, fd: Fd, p: Path, flag: bool)
    ensures SameOpen(s, DoRealOpen(s, t, fd, p, flag)) && SameOpen(s, DoRealUnlink(s, t, p, flag))
  {
  }

  /** While prepare holds the session and the fmap, no thread maps or unmaps a descriptor. */
  lemma AppWhilePreparing(s: State, t: Tid, a: AppStep)
    requires AppEnabled(s, t, a) && s.cp.Preparing? && NoReaders(s)
    ensures SameOpen(s, DoApp(s, t, a))
  {
    hide Settled, TableFree, CanGet, DoRealOpen, DoRealpath, DoGetSource, DoDrop, DoRealUnlink, DoUnlinkGet, NamesKept;
    hide DoPut, DoEnterOpen, DoCreateOnOpen, DoStartClose, DoCloseDetach, DoErase, DoCaptureUnlink;
    match a
    case RealOpen(fd, p, creat) => FsKeepsOpen(s, t, fd, p, creat);
    case Realpath => RealpathKeepsOpen(s, t, s.threads[t].fd, s.threads[t].path);
    case GetSource(newId) => GetKeepsOpen(s, t, s.threads[t].fd, s.threads[t].path, newId);
    case Drop => DropKeepsOpen(s, t, s.threads[t].fd, s.threads[t].sid);
    case RealClose => SameByFields(s, DoApp(s, t, a));
    case StartUnlink(p) => SameByFields(s, DoApp(s, t, a));
    case RealUnlink(ok) => FsKeepsOpen(s, t, 0, s.threads[t].path, ok);
    case UnlinkGet(newId) => GetKeepsOpen(s, t, 0, s.threads[t].path, newId);
    case _ => assert false;
  }

  lemma SameStoppers(s0: State, s: State)
    requires SameOpenFiles(s0, s)
    ensures forall fd :: Stopper(s, fd) <==> Stopper(s0, fd)
  {
  }

  lemma StillMapped(s0: State, s: State, s': State)
    requires SameOpenFiles(s0, s) && s'.fmap == s.fmap && s'.cfg == s.cfg && NamesKept(s, s') && FdsOk(s')
    ensures SameOpenFiles(s0, s')
  {
    forall fd | fd in s'.fmap
      ensures s'.fmap[fd] in s'.srcs
    {
      assert Live(s', s'.fmap[fd], ByFd(fd));
    }
  }

  lemma PrepareStopsHere(s0: State, s: State, s': State)
    requires Watching(s0, s) && s.cp.Preparing? && Stopper(s, s.cp.next)
    requires !s'.cp.Preparing? && !s'.cp.NotStarted? && s'.aborted
    ensures Watching(s0, s')
  {
    SameStoppers(s0, s);
  }

  lemma PrepareFails(s0: State, s: State, s': State)
    requires Watching(s0, s) && s.cp.Preparing? && !s'.cp.Preparing? && !s'.cp.NotStarted? && !s'.aborted
    requires s'.prepareFailed
    ensures Watching(s0, s')
  {
  }

  lemma PrepareGoesOn(s0: State, s: State, s': State)
    requires Watching(s0, s) && s.cp.Preparing? && !Stopper(s, s.cp.next) && s'.cp == Preparing(s.cp.next + 1)
    requires SameOpen(s, s') && s'.cfg == s.cfg && !s'.aborted
    requires forall fd :: fd in s.fmap ==> s.fmap[fd] in s'.srcs
    ensures Watching(s0, s')
  {
    SameStoppers(s0, s);
    hide Stopper;
  }

  lemma Mapped(s0: State, s: State)
    requires Watching(s0, s) && s.cp.Preparing?
    ensures !s.aborted && forall fd :: fd in s.fmap ==> s.fmap[fd] in s.srcs
  {
  }

  lemma PrepareMakes(s0: State, s: State, next: Fd)
    requires Watching(s0, s) && s.cp == Preparing(next) && next in s.fmap && s.fmap[next] in s.srcs && !Stopper(s, next)
    ensures Watching(s0, TryCreate(s, s.fmap[next], true).(cp := Preparing(next + 1)))
  {
    Mapped(s0, s);
    hide Watching, Stopper;
    PrepareGoesOn(s0, s, TryCreate(s, s.fmap[next], true).(cp := Preparing(next + 1)));
  }

  lemma PrepareSkipped(s0: State, s: State)
    requires Watching(s0, s) && s.cp.Preparing? && !Stopper(s, s.cp.next)
    ensures Watching(s0, s.(cp := Preparing(s.cp.next + 1)))
  {
    Mapped(s0, s);
    assert SameOpen(s, s.(cp := Preparing(s.cp.next + 1)));
    hide Watching, Stopper, SameOpen;
    PrepareGoesOn(s0, s, s.(cp := Preparing(s.cp.next + 1)));
  }

  lemma PrepareEnds(s0: State, s: State)
    requires Watching(s0, s) && s.cp.Preparing?
    ensures Watching(s0, s.(cp := Failed, ioFailed := true, prepareFailed := true, captureOn := false))
    ensures Stopper(s, s.cp.next) ==> Watching(s0, s.(cp := Copying, captureOn := true, aborted := true))
  {
    Mapped(s0, s);
    hide Watching, Stopper;
    PrepareFails(s0, s, s.(cp := Failed, ioFailed := true, prepareFailed := true, captureOn := false));
    if Stopper(s, s.cp.next) {
      PrepareStopsHere(s0, s, s.(cp := Copying, captureOn := true, aborted := true));
    }
  }

  lemma PrepareWatched(s0: State, s: State, io: bool)
    requires Watching(s0, s) && s.cp.Preparing? && (s.cp.next in s.fmap ==> s.fmap[s.cp.next] in s.srcs)
    ensures Watching(s0, DoPrepare(s, s.cp.next, io))
  {
    PrepareEnds(s0, s);
    hide Watching, TryCreate;
    if !Stopper(s, s.cp.next) {
      PrepareSkipped(s0, s);
      if s.cp.next in s.fmap {
        PrepareMakes(s0, s, s.cp.next);
      }
    }
  }

  lemma PreparedWatched(s0: State, s: State)
    requires Watching(s0, s) && s.cp.Preparing? && PastEnd(s, s.cp.next)
    ensures Watching(s0, s.(cp := Copying, captureOn := true))
  {
    assert SameOpenFiles(s0, s);
    assert !ExcludedFileOpen(s0);
  }

  /** Nothing after prepare begins another. */
  predicate Onwards(s: State, s': State) {
    !s'.cp.NotStarted? && !s'.cp.Preparing? && s'.aborted == s.aborted && s'.prepareFailed == s.prepareFailed
  }

  lemma CreatedGoesOn(s: State, sid: Sid, io: bool, cp: BackupPc)
    requires sid in s.srcs && !cp.NotStarted? && !cp.Preparing?
    ensures Onwards(s, TryCreate(s, sid, io).(cp := cp))
  {
  }

  lemma CopyCreateGoesOn(s: State, p: Path, sid: Sid, present: bool, io: bool)
    requires sid in s.srcs
    ensures Onwards(s, DoCopyCreate(s, p, sid, present, io))
  {
    CreatedGoesOn(s, sid, io, CopyData(p, sid));
    CreatedGoesOn(s, sid, io, CopyDetaching(p, sid));
    assert Onwards(s, s.(cp := CopyDetaching(p, sid)));
    assert Onwards(s, s.(ioFailed := true, cp := CopyDropping(p, sid, false)));
    hide TryCreate, CreateFails, DoCopyCreate, Onwards;
    CopyCreateCases(s, p, sid, present, io, x => Onwards(s, x));
  }

  lemma CopyDropGoesOn(s: State, sid: Sid, ok: bool)
    requires sid in s.srcs && s.srcs[sid].count > 0
    ensures var s1 := DropRef(s, sid, ByCopier);
      Onwards(s, if ok then s1.(cp := Copying) else s1.(cp := Failed, captureOn := false))
  {
  }

  lemma BackupGoesOn(s: State, b: BackupStep)
    requires BackupEnabled(s, b) && !s.cp.NotStarted? && !s.cp.Preparing?
    ensures Onwards(s, DoBackup(s, b))
  {
    hide TableFree, NoReaders, PastEnd, CanGet, DoCopyCreate, DropRef;
    match b
    case CopyCreate(io) => CopyCreateGoesOn(s, s.cp.path, s.cp.sid, s.cp.present, io);
    case CopyDrop => CopyDropGoesOn(s, s.cp.sid, s.cp.ok);
    case _ =>
  }

  lemma BackupWatched(s0: State, s: State, b: BackupStep)
    requires Watching(s0, s) && BackupEnabled(s, b)
    ensures Watching(s0, DoBackup(s, b))
  {
    hide TableFree, NoReaders, PastEnd, DoPrepare;
    assert !s.cp.NotStarted?;
    if s.cp.Preparing? {
      hide Watching;
      match b
      case PrepareOne(io) => PrepareWatched(s0, s, io);
      case PrepareEnd => PreparedWatched(s0, s);
      case _ => assert false;
    } else {
      BackupGoesOn(s, b);
      hide DoBackup, BackupEnabled, ExcludedFileOpen;
    }
  }

  lemma StepWatched(s0: State, s: State, step: Step)
    requires Inv(s) && Watching(s0, s) && Enabled(s, step)
    ensures Watching(s0, Do(s, step))
  {
    match step
    case Backup(b) =>
      hide Inv, Watching;
      BackupWatched(s0, s, b);
    case App(t, a) =>
      StepKeepsInv(s, step);
      assert FdsOk(Do(s, step)) && ThreadsOk(s);
      hide Inv, FdsOk, ThreadsOk, ExcludedFileOpen, AppEnabled, DoApp;
      AppSteady(s, t, a, "");
      if s.cp.Preparing? {
        WriterExcludesReaders(s);
        AppWhilePreparing(s, t, a);
        StillMapped(s0, s, Do(s, step));
      }
  }

  lemma {:induction false} RunWatched(s0: State, s: State, steps: seq<Step>, t: State)
    requires Inv(s) && Watching(s0, s) && Reaches(s, steps, t)
    ensures Watching(s0, t)
    decreases |steps|
  {
    hide Inv, Watching;
    if steps != [] {
      StepKeepsInv(s, steps[0]);
      StepWatched(s0, s, steps[0]);
      RunWatched(s0, Do(s, steps[0]), steps[1..], t);
    }
  }

  predicate NotStopped(s: State) {
    s.cp.NotStarted? || s.cp.Preparing? ==> !s.aborted
  }

  lemma PrepareNotStopped(s: State, next: Fd, io: bool)
    requires !s.aborted && (next in s.fmap ==> s.fmap[next] in s.srcs)
    ensures NotStopped(DoPrepare(s, next, io))
  {
    if next in s.fmap {
      TryCreateFields(s, s.fmap[next], true);
    }
    hide TryCreate, DoPrepare;
    PrepareCases(s, next, io, NotStopped);
  }

  lemma StepNotStopped(s: State, step: Step)
    requires NotStopped(s) && Enabled(s, step)
    ensures NotStopped(Do(s, step))
  {
    hide AppEnabled, DoApp, TableFree, NoReaders, PastEnd, DoPrepare;
    match step
    case App(t, a) => AppSteady(s, t, a, "");
    case Backup(b) =>
      if b.PrepareOne? {
        PrepareNotStopped(s, s.cp.next, b.io);
      } else if !s.cp.NotStarted? && !s.cp.Preparing? {
        BackupGoesOn(s, b);
        hide DoBackup;
      }
  }

  lemma {:induction false} RunNotStopped(s: State, steps: seq<Step>, t: State)
    requires NotStopped(s) && Reaches(s, steps, t)
    ensures NotStopped(t)
    decreases |steps|
  {
    if steps != [] {
      StepNotStopped(s, steps[0]);
      hide NotStopped;
      RunNotStopped(Do(s, steps[0]), steps[1..], t);
    }
  }

  lemma ReachableNotStopped(s: State)
    requires Reachable(s)
    ensures NotStopped(s)
  {
    var s0, steps :| Init(s0) && Reaches(s0, steps, s);
    RunNotStopped(s0, steps, s);
  }

  /** Prepare, begun at `s`, stops short exactly when an excluded file of the source was open at `s`; unless it could
      not create a destination, which ends the session.  It then never covers what it skipped, up to the end of the run.
      */
  lemma PrepareStopsIff(s: State, steps: seq<Step>, t: State)
    requires Reachable(s) && s.cp == Preparing(0) && Reaches(s, steps, t) && !t.cp.Preparing?
    ensures t.aborted ==> ExcludedFileOpen(s)
    ensures !t.prepareFailed ==> (t.aborted <==> ExcludedFileOpen(s))
  {
    ReachableInv(s);
    ReachableNotStopped(s);
    assert SameOpenFiles(s, s) by {
      forall fd | fd in s.fmap
        ensures s.fmap[fd] in s.srcs
      {
        assert FdOk(s, fd, s.fmap[fd]);
      }
    }
    RunWatched(s, s, steps, t);
  }

  /** So with no excluded file open when the session began, every settled descriptor whose file has kept its name is
      covered up to the end of copying. */
  lemma CoverageWithoutExclusion(s: State, steps: seq<Step>, t: State, fd: Fd)
    requires Reachable(s) && s.cp == Preparing(0) && !ExcludedFileOpen(s)
    requires Reaches(s, steps, t) && Reachable(t) && Copied(t.cp)
    requires fd in t.fmap && fd in t.linked && Settled(t, fd)
    ensures t.fmap[fd] in t.srcs
    ensures var src := t.srcs[t.fmap[fd]];
      src.name in t.cfg.inSource && src.name !in t.cfg.backupExcluded && !src.unlinked && !src.failed ==>
        Captured(t, fd)
  {
    hide Reachable, Reaches, ExcludedFileOpen, Settled, Captured;
    PrepareStopsIff(s, steps, t);
    CaptureCoverage(t, fd);
  }
}
