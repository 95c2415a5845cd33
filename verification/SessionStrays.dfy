/** Which files the backup has that the source has not.  While unlink() is captured, a file of the backup is in the
    source or about to be unlinked there too; with two exceptions, and here is when they occur: a file that prepare made
    for a description whose file was gone by then, and one whose unlink() could not open the backup file. */
module SessionStrays {
  import opened Basics
  import opened Session
  import opened SessionSafety
  import opened SessionBackup
  import opened SessionDelivery
  import opened SessionTheorems
  import opened SessionPrepare
  import opened SessionArrival

  /** An unlink() of the file is between its real unlink and its capture; it holds the file-op mutex. */
  predicate Leaving(s: State, p: Path) {
    s.fileOp.Some? && s.fileOp.value in s.threads &&
    match s.threads[s.fileOp.value]
    case Unlinked(q) => q == p
    case UnlinkReferenced(q, _) => q == p
    case _ => false
  }

  predicate Present(s: State, p: Path) {
    p in s.fs || Leaving(s, p)
  }

  /** In the backup alone. */
  predicate Strayed(s: State, p: Path) {
    p in s.backup && !Present(s, p)
  }

  /** An unlink() of the file has returned early, since it could not open the backup file. */
  ghost predicate Abandoned(s: State, p: Path) {
    exists sid :: sid in s.srcs && s.srcs[sid].name == p && s.srcs[sid].leaked > 0
  }

  /** Unlinks are captured: prepare is over, and no error has been reported. */
  predicate Running(s: State) {
    Clean(s) && !s.cp.NotStarted? && !s.cp.Preparing?
  }

  /** Whoever is about to create a backup file has found its file, and nobody can have finished to unlink it since. */
  ghost predicate CreatorsPresent(s: State, p: Path) {
    && (forall t :: t in s.threads && Creates(s, s.threads[t], p) ==> Present(s, p))
    && (s.cp.CopyCreating? && s.cp.present && s.cp.path == p ==> Present(s, p))
  }

  predicate Creates(s: State, pc: Pc, p: Path) {
    pc.Creating? && pc.ok && pc.sid in s.srcs && s.srcs[pc.sid].name == p
  }

  // ----- the steps of threads -----

  lemma AppKeepsLeaving(s: State, t: Tid, a: AppStep, p: Path)
    requires AppEnabled(s, t, a) && Leaving(s, p) && !a.CaptureUnlink?
    ensures Leaving(DoApp(s, t, a), p)
  {
    if s.fileOp == Some(t) {
      hide TableFree, CanGet, GetOrCreate, Settled;
      match a
      case UnlinkGet(newId) => UnlinkGetLeaves(s, t, s.threads[t].path, newId);
      case _ =>
    } else {
      AppActsAlone(s, t, a);
      hide DoApp, AppEnabled;
    }
  }

  lemma UnlinkGetLeaves(s: State, t: Tid, p: Path, newId: Sid)
    requires CanGet(s, p, newId) && s.fileOp == Some(t)
    ensures Leaving(DoUnlinkGet(s, t, p, newId), p)
  {
    hide TableFree;
  }

  lemma UnlinkLeaves(s: State, t: Tid, p: Path, ok: bool, q: Path)
    requires s.fileOp == Some(t) && q in s.fs
    ensures Present(DoRealUnlink(s, t, p, ok), q)
  {
  }

  lemma OpenKeepsFile(s: State, t: Tid, fd: Fd, p: Path, creat: bool, q: Path)
    requires q in s.fs
    ensures q in DoRealOpen(s, t, fd, p, creat).fs
  {
  }

  lemma PresentStays(s: State, t: Tid, a: AppStep, p: Path)
    requires Inv(s) && AppEnabled(s, t, a) && Present(s, p) && !a.CaptureUnlink?
    ensures Present(DoApp(s, t, a), p)
  {
    if Leaving(s, p) {
      hide Inv;
      AppKeepsLeaving(s, t, a, p);
      hide DoApp, AppEnabled;
    } else if a.RealUnlink? {
      OwnPc(s, t);
      hide Inv, DoRealUnlink;
      UnlinkLeaves(s, t, s.threads[t].path, a.ok, p);
    } else if a.RealOpen? {
      hide Inv, DoRealOpen;
      OpenKeepsFile(s, t, a.fd, a.path, a.creat, p);
    } else {
      hide Inv;
      AppAdds(s, t, a);
      hide DoApp, AppEnabled;
    }
  }

  // ----- who creates backup files -----

  lemma EnterCreates(s: State, t: Tid, fd: Fd, sid: Sid, io: bool, p: Path)
    requires sid in s.srcs
    ensures var s' := DoEnterOpen(s, t, fd, sid, io);
      t in s'.threads && Creates(s', s'.threads[t], p) ==> p in s.fs
  {
  }

  /** The thread is not creating a backup file, nor past a real unlink. */
  predicate Elsewhere(s: State, t: Tid) {
    t in s.threads ==> !s.threads[t].Creating? && !s.threads[t].Unlinked? && !s.threads[t].UnlinkReferenced?
  }

  lemma OpenElsewhere(s: State, t: Tid, fd: Fd, p: Path, creat: bool, newId: Sid)
    ensures Elsewhere(DoRealOpen(s, t, fd, p, creat), t)
    ensures CanGet(s, p, newId) ==> Elsewhere(DoGetSource(s, t, fd, p, newId), t)
  {
    hide TableFree, GetOrCreate;
  }

  lemma RealpathElsewhere(s: State, t: Tid, fd: Fd, p: Path)
    ensures Elsewhere(DoRealpath(s, t, fd, p), t)
  {
    assert Elsewhere(Goto(s, t, Resolved(fd, p)), t) && Elsewhere(Finish(s.(captureOn := false), t), t);
  }

  lemma CloseElsewhere(s: State, t: Tid, fd: Fd, sid: Sid)
    ensures Elsewhere(DoStartClose(s, t, fd), t) && Elsewhere(DoRealClose(s, t, fd), t)
    ensures sid in s.srcs ==> Elsewhere(DoErase(s, t, fd, sid), t) && Elsewhere(DoCloseDetach(s, t, fd, sid), t)
    ensures sid in s.srcs && s.srcs[sid].count > 0 ==> Elsewhere(DoDrop(s, t, fd, sid), t)
  {
    hide MoveRef, TryRemoveDest, DropRef;
  }

  lemma CreateElsewhere(s: State, t: Tid, fd: Fd, sid: Sid, ok: bool, io: bool)
    requires sid in s.srcs
    ensures Elsewhere(DoPut(s, t, fd, sid), t) && Elsewhere(DoCreateOnOpen(s, t, sid, ok, io), t)
  {
    hide MoveRef, TryCreate, CreateFails;
  }

  predicate Remarkable(a: AppStep) {
    a.EnterOpen? || a.RealUnlink? || a.UnlinkGet? || a.CaptureUnlink?
  }

  lemma StepElsewhere(s: State, t: Tid, a: AppStep)
    requires AppEnabled(s, t, a) && !Remarkable(a)
    ensures Elsewhere(DoApp(s, t, a), t)
  {
    hide Settled, TableFree, CanGet, DoRealOpen, DoRealpath, DoGetSource, DoPut, DoCreateOnOpen, DoStartClose,
      DoCloseDetach, DoErase, DoDrop, DoRealClose;
    match a
    case RealOpen(fd, p, creat) => OpenElsewhere(s, t, fd, p, creat, 0);
    case Realpath => RealpathElsewhere(s, t, s.threads[t].fd, s.threads[t].path);
    case GetSource(newId) => OpenElsewhere(s, t, s.threads[t].fd, s.threads[t].path, false, newId);
    case Put => CreateElsewhere(s, t, s.threads[t].fd, s.threads[t].sid, false, false);
    case CreateOnOpen(io) => CreateElsewhere(s, t, s.threads[t].fd, s.threads[t].sid, s.threads[t].ok, io);
    case StartClose(fd) => CloseElsewhere(s, t, fd, 0);
    case CloseDetach => CloseElsewhere(s, t, s.threads[t].fd, s.threads[t].sid);
    case Erase => CloseElsewhere(s, t, s.threads[t].fd, s.threads[t].sid);
    case Drop => CloseElsewhere(s, t, s.threads[t].fd, s.threads[t].sid);
    case RealClose => CloseElsewhere(s, t, s.threads[t].fd, 0);
    case StartUnlink(q) =>
  }

  /** Where the remarkable steps lead to. */
  lemma EnterPc(s: State, t: Tid, fd: Fd, sid: Sid, io: bool)
    requires sid in s.srcs
    ensures var s' := DoEnterOpen(s, t, fd, sid, io); t in s'.threads ==> s'.threads[t].Creating?
  {
  }

  lemma UnlinkPc(s: State, t: Tid, p: Path, ok: bool)
    ensures var s' := DoRealUnlink(s, t, p, ok); t in s'.threads ==> s'.threads[t] == Unlinked(p)
  {
  }

  lemma UnlinkGetPc(s: State, t: Tid, p: Path, newId: Sid)
    requires CanGet(s, p, newId)
    ensures var s' := DoUnlinkGet(s, t, p, newId);
      t in s'.threads && s'.threads[t] == UnlinkReferenced(p, SidFor(s, p, newId)) && s'.fileOp == s.fileOp
  {
    hide TableFree;
  }

  /** Only the capture of an open() becomes a creator. */
  lemma BecomesCreator(s: State, t: Tid, a: AppStep, p: Path)
    requires AppEnabled(s, t, a) && !a.CaptureUnlink?
    ensures var s' := DoApp(s, t, a);
      t in s'.threads && Creates(s', s'.threads[t], p) ==> p in s.fs
  {
    if Remarkable(a) {
      hide Settled, TableFree, CanGet, DoEnterOpen, DoRealUnlink, DoUnlinkGet;
      match a
      case EnterOpen(io) => EnterCreates(s, t, s.threads[t].fd, s.threads[t].sid, io, p);
      case RealUnlink(ok) => UnlinkPc(s, t, s.threads[t].path, ok);
      case UnlinkGet(newId) => UnlinkGetPc(s, t, s.threads[t].path, newId);
    } else {
      StepElsewhere(s, t, a);
      hide DoApp, AppEnabled;
    }
  }

  lemma UnlinkingExcludesCreators(s: State, t: Tid, a: AppStep, p: Path)
    requires AppEnabled(s, t, a) && a.CaptureUnlink?
    ensures NoReaders(s) && !s.cp.CopyCreating?
  {
  }

  lemma CaptureUnlinkEnds(s: State, t: Tid, p: Path, sid: Sid, io: bool, ioUnlink: bool)
    requires sid in s.srcs && s.srcs[sid].count > 0 && t in s.threads
    ensures var s' := DoCaptureUnlink(s, t, p, sid, io, ioUnlink);
      t in s'.threads ==> s'.threads[t] == s.threads[t]
  {
    UnlinkSourceEnds(s, t, sid);
    TryCreateFields(s, sid, io);
    var s1 := TryCreate(s, sid, io);
    UnlinkSourceEnds(s1.(ioFailed := true, captureOn := false), t, sid);
    UnlinkSourceEnds(s1.(backup := s1.backup - {p}, captured := s1.captured + {p}), t, sid);
    assert t !in LeakRef(s, t, sid).threads;
    hide UnlinkSource, TryCreate, CreateFails, ShouldCaptureUnlink, LeakRef;
  }

  lemma UnlinkSourceEnds(s: State, t: Tid, sid: Sid)
    requires sid in s.srcs && s.srcs[sid].count > 0
    ensures t !in UnlinkSource(s, t, sid).threads
  {
  }

  lemma NoCreators(s: State, s': State, t: Tid, p: Path)
    requires ActsAlone(s, s', t) && t in s.threads && NoReaders(s) && s'.cp == s.cp && !s.cp.CopyCreating?
    requires t in s'.threads ==> s'.threads[t] == s.threads[t]
    ensures CreatorsPresent(s', p)
  {
    hide Present;
  }

  lemma CaptureUnlinkKeepsCreators(s: State, t: Tid, a: AppStep, p: Path)
    requires AppEnabled(s, t, a) && a.CaptureUnlink?
    ensures CreatorsPresent(DoApp(s, t, a), p)
  {
    UnlinkingExcludesCreators(s, t, a, p);
    AppActsAlone(s, t, a);
    AppSteady(s, t, a, p);
    hide DoCaptureUnlink, ShouldCaptureUnlink, TableFree, NoReaders, ActsAlone, CreatorsPresent;
    CaptureUnlinkEnds(s, t, s.threads[t].path, s.threads[t].sid, a.io, a.ioUnlink);
    NoCreators(s, DoApp(s, t, a), t, p);
  }

  lemma CreatorsLive(s: State, u: Tid, p: Path)
    requires Inv(s) && u in s.threads && s.threads[u].Creating?
    ensures s.threads[u].sid in s.srcs
  {
    OwnPc(s, u);
  }

  /** The creators stay the same, but for the thread that takes the step, which has just found its file. */
  lemma SameCreators(s: State, s': State, t: Tid, p: Path)
    requires Inv(s) && ActsAlone(s, s', t) && s'.cp == s.cp && CreatorsPresent(s, p)
    requires t in s'.threads && Creates(s', s'.threads[t], p) ==> Present(s, p)
    requires Present(s, p) ==> Present(s', p)
    ensures CreatorsPresent(s', p)
  {
    hide Present;
    forall u | u in s'.threads && Creates(s', s'.threads[u], p) && u != t
      ensures Creates(s, s.threads[u], p)
    {
      CreatorsLive(s, u, p);
    }
    hide Inv, ActsAlone, Creates;
  }

  lemma AppKeepsCreators(s: State, t: Tid, a: AppStep, p: Path)
    requires Inv(s) && AppEnabled(s, t, a) && CreatorsPresent(s, p)
    ensures CreatorsPresent(DoApp(s, t, a), p)
  {
    hide Inv, CreatorsPresent, ActsAlone, AppEnabled, DoApp;
    if a.CaptureUnlink? {
      CaptureUnlinkKeepsCreators(s, t, a, p);
    } else {
      AppActsAlone(s, t, a);
      AppSteady(s, t, a, p);
      BecomesCreator(s, t, a, p);
      if Present(s, p) {
        PresentStays(s, t, a, p);
      }
      SameCreators(s, DoApp(s, t, a), t, p);
    }
  }

  lemma FileIsPresent(s: State, p: Path)
    requires p in s.fs
    ensures Present(s, p)
  {
  }

  // ----- the steps of the backup thread -----

  /** They leave the threads and the source alone, and names are not changed. */
  predicate SameWorldAround(s: State, s': State) {
    && s'.threads == s.threads && s'.fileOp == s.fileOp && s'.fs == s.fs && s'.cfg == s.cfg
    && forall x :: x in s.srcs && x in s'.srcs ==> s'.srcs[x].name == s.srcs[x].name
  }

  lemma CreatedAround(s: State, sid: Sid, io: bool, cp: BackupPc)
    requires sid in s.srcs
    ensures SameWorldAround(s, TryCreate(s, sid, io).(cp := cp))
  {
  }

  lemma RemovedAround(s: State, sid: Sid)
    requires sid in s.srcs
    ensures SameWorldAround(s, TryRemoveDest(s, sid))
    ensures s.srcs[sid].count > 0 ==> SameWorldAround(s, DropRef(s, sid, ByCopier))
  {
  }

  lemma GotAround(s: State, p: Path, newId: Sid)
    requires CanGet(s, p, newId)
    ensures SameWorldAround(s, GetOrCreate(s, p, newId, ByCopier))
  {
    hide TableFree;
  }

  lemma PrepareAround(s: State, next: Fd, io: bool)
    requires next in s.fmap ==> s.fmap[next] in s.srcs
    ensures SameWorldAround(s, DoPrepare(s, next, io))
  {
    if next in s.fmap {
      CreatedAround(s, s.fmap[next], true, Preparing(next + 1));
    }
    assert SameWorldAround(s, s.(cp := Preparing(next + 1)));
    assert SameWorldAround(s, s.(cp := Copying, captureOn := true, aborted := true));
    assert SameWorldAround(s, s.(cp := Failed, ioFailed := true, prepareFailed := true, captureOn := false));
    hide TryCreate, DoPrepare, SameWorldAround;
    PrepareCases(s, next, io, x => SameWorldAround(s, x));
  }

  /** Making a destination does not bring the copier back to where it makes one. */
  lemma CopyCreateAround(s: State, p: Path, sid: Sid, present: bool, io: bool)
    requires sid in s.srcs
    ensures var s' := DoCopyCreate(s, p, sid, present, io); SameWorldAround(s, s') && !s'.cp.CopyCreating?
  {
    CreatedAround(s, sid, io, CopyData(p, sid));
    CreatedAround(s, sid, io, CopyDetaching(p, sid));
    assert SameWorldAround(s, s.(cp := CopyDetaching(p, sid)));
    assert SameWorldAround(s, s.(ioFailed := true, cp := CopyDropping(p, sid, false)));
    hide TryCreate, CreateFails, DoCopyCreate, SameWorldAround;
    CopyCreateCases(s, p, sid, present, io, x => SameWorldAround(s, x) && !x.cp.CopyCreating?);
  }

  lemma BackupAround(s: State, b: BackupStep)
    requires BackupEnabled(s, b)
    ensures SameWorldAround(s, DoBackup(s, b))
  {
    hide TableFree, PastEnd, NoReaders, DoPrepare, DoCopyCreate, TryRemoveDest, DropRef, GetOrCreate, CanGet;
    match b
    case PrepareOne(io) => PrepareAround(s, s.cp.next, io);
    case CopyGet(newId) => GotAround(s, s.cp.path, newId);
    case CopyCreate(io) => CopyCreateAround(s, s.cp.path, s.cp.sid, s.cp.present, io);
    case CopyDetach => RemovedAround(s, s.cp.sid);
    case CopyDrop => RemovedAround(s, s.cp.sid);
    case DisableOne =>
      if s.cp.next in s.fmap {
        RemovedAround(s, s.fmap[s.cp.next]);
      }
    case _ =>
  }

  predicate Locked(s: State) {
    s.cp.CopyCreating? && s.cp.present ==> s.cp.path in s.fs
  }

  lemma BackupLocks(s: State, b: BackupStep)
    requires BackupEnabled(s, b)
    ensures Locked(DoBackup(s, b))
  {
    hide TableFree, PastEnd, NoReaders, DoPrepare, DoCopyCreate, TryRemoveDest, DropRef, GetOrCreate, CanGet;
    match b
    case PrepareOne(io) => PrepareLocks(s, s.cp.next, io);
    case CopyCreate(io) => CopyCreateAround(s, s.cp.path, s.cp.sid, s.cp.present, io);
    case _ =>
  }

  lemma PrepareLocks(s: State, next: Fd, io: bool)
    requires next in s.fmap ==> s.fmap[next] in s.srcs
    ensures Locked(DoPrepare(s, next, io))
  {
    hide TryCreate, DoPrepare;
    PrepareCases(s, next, io, Locked);
  }

  lemma BackupKeepsPresent(s: State, b: BackupStep, p: Path)
    requires BackupEnabled(s, b)
    ensures Present(DoBackup(s, b), p) <==> Present(s, p)
  {
    BackupAround(s, b);
    hide DoBackup, BackupEnabled;
  }

  lemma BackupKeepsCreators(s: State, b: BackupStep, p: Path)
    requires Inv(s) && BackupEnabled(s, b) && CreatorsPresent(s, p)
    ensures CreatorsPresent(DoBackup(s, b), p)
  {
    var s' := DoBackup(s, b);
    BackupAround(s, b);
    BackupLocks(s, b);
    BackupKeepsPresent(s, b, p);
    hide Inv, DoBackup, BackupEnabled, Present;
    if p in s.fs {
      FileIsPresent(s, p);
    }
    forall u | u in s'.threads && Creates(s', s'.threads[u], p)
      ensures Present(s', p)
    {
      CreatorsLive(s, u, p);
      assert Creates(s, s.threads[u], p);
    }
  }

  // ----- a step of the session, for one file -----

  lemma FileAppears(s: State, t: Tid, a: AppStep, p: Path)
    requires AppEnabled(s, t, a) && !a.CaptureUnlink?
    ensures Recreates(App(t, a), p) ==> p in DoApp(s, t, a).fs
    ensures p in DoApp(s, t, a).fs && p !in s.fs ==> Recreates(App(t, a), p)
  {
    if a.RealOpen? {
      OpenFiles(s, t, a.fd, a.path, a.creat);
      hide DoRealOpen;
    } else if a.RealUnlink? {
      UnlinkFiles(s, t, s.threads[t].path, a.ok);
      hide DoRealUnlink;
    } else {
      AppAdds(s, t, a);
      hide DoApp, AppEnabled;
    }
  }

  lemma OpenFiles(s: State, t: Tid, fd: Fd, p: Path, creat: bool)
    ensures DoRealOpen(s, t, fd, p, creat).fs == if creat then s.fs + {p} else s.fs
  {
  }

  lemma UnlinkFiles(s: State, t: Tid, p: Path, ok: bool)
    ensures DoRealUnlink(s, t, p, ok).fs <= s.fs
  {
  }

  lemma OthersLeaving(s: State, s': State, t: Tid, p: Path)
    requires ActsAlone(s, s', t) && Leaving(s', p) && s'.fileOp != Some(t)
    ensures Present(s, p)
  {
  }

  lemma ElsewhereIsNotLeaving(s: State, t: Tid, p: Path)
    requires Elsewhere(s, t) && s.fileOp == Some(t)
    ensures !Leaving(s, p)
  {
  }

  /** Who is past the real unlink has had the file before it. */
  lemma LeavingComes(s: State, t: Tid, a: AppStep, p: Path)
    requires Inv(s) && AppEnabled(s, t, a) && Leaving(DoApp(s, t, a), p)
    ensures Present(s, p)
  {
    var s' := DoApp(s, t, a);
    hide Inv, DoApp, Leaving, Present, ThreadOk, AppEnabled, ActsAlone, Elsewhere;
    if s'.fileOp != Some(t) {
      AppActsAlone(s, t, a);
      OthersLeaving(s, s', t, p);
    } else if Remarkable(a) {
      RemarkableIsInside(s, t, a);
      OwnPc(s, t);
      UnlinkComes(s, t, a, p);
    } else {
      StepElsewhere(s, t, a);
      ElsewhereIsNotLeaving(s', t, p);
    }
  }

  lemma RemarkableIsInside(s: State, t: Tid, a: AppStep)
    requires AppEnabled(s, t, a) && Remarkable(a)
    ensures t in s.threads
  {
  }

  lemma UnlinkComes(s: State, t: Tid, a: AppStep, p: Path)
    requires AppEnabled(s, t, a) && Remarkable(a) && ThreadOk(s, t, s.threads[t])
    requires Leaving(DoApp(s, t, a), p) && DoApp(s, t, a).fileOp == Some(t)
    ensures Present(s, p)
  {
    hide TableFree, CanGet, DoEnterOpen, DoRealUnlink, DoUnlinkGet, DoCaptureUnlink;
    match a
    case EnterOpen(io) => EnterPc(s, t, s.threads[t].fd, s.threads[t].sid, io);
    case RealUnlink(ok) => UnlinkPc(s, t, s.threads[t].path, ok);
    case UnlinkGet(newId) => UnlinkGetPc(s, t, s.threads[t].path, newId);
    case CaptureUnlink(io, ioUnlink) => CaptureUnlinkEnds(s, t, s.threads[t].path, s.threads[t].sid, io, ioUnlink);
  }

  lemma LeakStays(s: State, s': State, p: Path)
    requires Gentle(s, s') && Abandoned(s, p)
    requires forall x :: x in s.srcs && x in s'.srcs ==> s'.srcs[x].name == s.srcs[x].name
    ensures Abandoned(s', p)
  {
    var sid :| sid in s.srcs && s.srcs[sid].name == p && s.srcs[sid].leaked > 0;
    assert LeakKept(s, s', sid);
  }

  lemma StepKeepsAbandoned(s: State, step: Step, p: Path)
    requires Inv(s) && Backed(s) && Enabled(s, step) && Abandoned(s, p)
    ensures Abandoned(Do(s, step), p)
  {
    StepIsGentle(s, step) by {
      assert Backed(s);
    }
    hide Inv, Backed, Gentle, Abandoned, DoApp, DoBackup;
    match step
    case App(t, a) =>
      AppActsAlone(s, t, a);
      hide AppEnabled;
      LeakStays(s, Do(s, step), p);
    case Backup(b) =>
      BackupAround(s, b);
      hide BackupEnabled;
      LeakStays(s, Do(s, step), p);
  }

  // a thread takes a step that is not the end of an unlink()

  lemma PlainAppStrays(s: State, t: Tid, a: AppStep, p: Path)
    requires Inv(s) && AppEnabled(s, t, a) && !a.CaptureUnlink? && CreatorsPresent(s, p)
    ensures Strayed(DoApp(s, t, a), p) <==> Strayed(s, p) && !Recreates(App(t, a), p)
  {
    var s' := DoApp(s, t, a);
    AppAdds(s, t, a);
    FileAppears(s, t, a, p);
    if Present(s, p) {
      PresentStays(s, t, a, p);
    }
    if Leaving(s', p) {
      LeavingComes(s, t, a, p);
    }
    if a.CreateOnOpen? && s.threads[t].ok && s.srcs[s.threads[t].sid].name == p {
      CreatorIs(s, t, a, p);
    }
    hide Inv, DoApp, CreatorsPresent, Leaving;
  }

  lemma CreatorIs(s: State, t: Tid, a: AppStep, p: Path)
    requires AppEnabled(s, t, a) && a.CreateOnOpen? && s.threads[t].ok && s.srcs[s.threads[t].sid].name == p
    requires CreatorsPresent(s, p)
    ensures Present(s, p)
  {
    assert Creates(s, s.threads[t], p);
  }

  // the end of an unlink()

  lemma UnlinkSourceFlags(s: State, t: Tid, sid: Sid)
    requires sid in s.srcs && s.srcs[sid].count > 0
    ensures var s' := UnlinkSource(s, t, sid); s'.captureOn == s.captureOn && s'.backup == s.backup
  {
  }

  /** As long as no error is reported, a captured unlink() adds nothing to the backup. */
  lemma UnlinkAddsNothing(s: State, t: Tid, p: Path, sid: Sid, io: bool, ioUnlink: bool)
    requires sid in s.srcs && s.srcs[sid].count > 0 && s.srcs[sid].name == p
    ensures var s' := DoCaptureUnlink(s, t, p, sid, io, ioUnlink); s'.captureOn ==> s'.backup <= s.backup
  {
    UnlinkSourceFlags(s, t, sid);
    TryCreateFields(s, sid, io);
    var s1 := TryCreate(s, sid, io);
    assert s1.backup <= s.backup + {p};
    UnlinkSourceFlags(s1.(ioFailed := true, captureOn := false), t, sid);
    UnlinkSourceFlags(s1.(backup := s1.backup - {p}, captured := s1.captured + {p}), t, sid);
    assert LeakRef(s, t, sid).backup == s.backup;
    hide UnlinkSource, TryCreate, CreateFails, ShouldCaptureUnlink, LeakRef;
  }

  lemma Leaked(s: State, t: Tid, p: Path, sid: Sid)
    requires sid in s.srcs && s.srcs[sid].name == p
    ensures Abandoned(LeakRef(s, t, sid), p)
  {
    assert sid in LeakRef(s, t, sid).srcs;
  }

  /** How a captured unlink() of a file can leave it in the backup: the backup file could not be opened, or its unlink
      failed, or the call followed a NULL destination. */
  lemma UnlinkKeepsFile(s: State, t: Tid, p: Path, sid: Sid, io: bool, ioUnlink: bool)
    requires sid in s.srcs && s.srcs[sid].count > 0 && s.srcs[sid].name == p
    requires ShouldCaptureUnlink(s, p) && p in s.backup
    ensures var s' := DoCaptureUnlink(s, t, p, sid, io, ioUnlink);
      p in s'.backup ==>
        || (CreateFails(s, sid, io) && Abandoned(s', p))
        || !s'.captureOn
        || s' == s.(crashed := true)
  {
    Leaked(s, t, p, sid);
    UnlinkTakesIff(s, t, p, sid, io, ioUnlink, p);
    TryCreateFields(s, sid, io);
    UnlinkSourceFlags(TryCreate(s, sid, io).(ioFailed := true, captureOn := false), t, sid);
    hide UnlinkSource, TryCreate, CreateFails, ShouldCaptureUnlink, LeakRef, Abandoned;
  }

  lemma LeakStrands(s: State, t: Tid, p: Path, sid: Sid)
    requires sid in s.srcs && s.fileOp == Some(t) && p !in s.fs
    ensures Strayed(LeakRef(s, t, sid), p) <==> p in s.backup
  {
  }

  /** A captured unlink() that neither reports an error nor crashes leaves the file in the backup alone exactly when it
      was there and the backup file could not be opened. */
  lemma UnlinkStrandsIff(s: State, t: Tid, p: Path, sid: Sid, io: bool, ioUnlink: bool)
    requires Inv(s) && t in s.threads && s.threads[t] == UnlinkReferenced(p, sid) && ShouldCaptureUnlink(s, p)
    requires sid in s.srcs && s.srcs[sid].count > 0
    ensures var s' := DoCaptureUnlink(s, t, p, sid, io, ioUnlink);
      s'.captureOn && s' != s.(crashed := true) ==>
        (Strayed(s', p) <==> p in s.backup && CreateFails(s, sid, io))
  {
    OwnPc(s, t);
    assert s.fileOp == Some(t) && p !in s.fs && s.srcs[sid].name == p;
    hide Inv;
    if CreateFails(s, sid, io) {
      LeakStrands(s, t, p, sid);
      hide LeakRef, Strayed, ShouldCaptureUnlink, CreateFails;
    } else if p in s.backup {
      hide DoCaptureUnlink, ShouldCaptureUnlink, CreateFails, Abandoned;
      UnlinkKeepsFile(s, t, p, sid, io, ioUnlink);
    } else {
      hide DoCaptureUnlink, ShouldCaptureUnlink, CreateFails, Abandoned;
      UnlinkAddsNothing(s, t, p, sid, io, ioUnlink);
    }
  }

  lemma AtUnlinkIsLeaving(s: State, t: Tid, p: Path, sid: Sid)
    requires Inv(s) && t in s.threads && s.threads[t] == UnlinkReferenced(p, sid)
    ensures s.fileOp == Some(t) && Leaving(s, p) && sid in s.srcs && s.srcs[sid].name == p
    ensures forall q :: Leaving(s, q) ==> q == p
  {
    OwnPc(s, t);
  }

  lemma UnlinkStraysAt(s: State, t: Tid, q: Path, sid: Sid, io: bool, ioUnlink: bool, p: Path)
    requires sid in s.srcs && s.srcs[sid].count > 0 && s.srcs[sid].name == q
    requires Leaving(s, q) && (Leaving(s, p) ==> p == q) && ShouldCaptureUnlink(s, p)
    requires var s' := DoCaptureUnlink(s, t, q, sid, io, ioUnlink);
      s'.captureOn && !Abandoned(s', p) && (Leaving(s', p) ==> Present(s, p))
    ensures Strayed(DoCaptureUnlink(s, t, q, sid, io, ioUnlink), p) <==> Strayed(s, p)
  {
    var s' := DoCaptureUnlink(s, t, q, sid, io, ioUnlink);
    CaptureUnlinkSameHistory(s, t, q, sid, io, ioUnlink);
    UnlinkAddsNothing(s, t, q, sid, io, ioUnlink);
    CrashedIsLeaving(s, p);
    if p in s.backup {
      UnlinkTakesIff(s, t, q, sid, io, ioUnlink, p);
      if p == q {
        UnlinkKeepsFile(s, t, p, sid, io, ioUnlink);
      }
    }
    hide DoCaptureUnlink, Leaving, Abandoned, ShouldCaptureUnlink, CreateFails;
  }

  lemma UnlinkStrays(s: State, t: Tid, a: AppStep, p: Path)
    requires Inv(s) && AppEnabled(s, t, a) && a.CaptureUnlink? && Followed(s, p) && s.session && s.captureOn
    requires var s' := DoApp(s, t, a); s'.captureOn && !Abandoned(s', p)
    ensures Strayed(DoApp(s, t, a), p) <==> Strayed(s, p)
  {
    var q, sid := s.threads[t].path, s.threads[t].sid;
    AtUnlinkIsLeaving(s, t, q, sid);
    assert ShouldCaptureUnlink(s, p);
    if Leaving(DoApp(s, t, a), p) {
      LeavingComes(s, t, a, p);
    }
    hide Inv, TableFree, DoCaptureUnlink, Leaving, Present, Abandoned, ShouldCaptureUnlink, Strayed;
    UnlinkStraysAt(s, t, q, sid, a.io, a.ioUnlink, p);
  }

  lemma CrashedIsLeaving(s: State, p: Path)
    ensures Leaving(s.(crashed := true), p) == Leaving(s, p)
  {
  }

  // the backup thread takes a step

  lemma BackupStrays(s: State, b: BackupStep, p: Path)
    requires CopierOk(s) && BackupEnabled(s, b) && !s.cp.Preparing? && CreatorsPresent(s, p)
    ensures Strayed(DoBackup(s, b), p) <==> Strayed(s, p)
  {
    BackupKeepsPresent(s, b, p);
    BackupAdds(s, b);
    assert b.CopyCreate? ==> s.cp.CopyCreating?;
    assert !b.PrepareOne?;
    hide CopierOk, BackupEnabled, DoBackup, Present, SameHistory;
  }

  lemma RunningFlags(s: State, p: Path)
    requires Inv(s) && Running(s) && Followed(s, p)
    ensures s.session && s.captureOn && CopierOk(s) && !s.cp.Preparing?
  {
  }

  /** One step decides: until an error is reported, a file comes to be in the backup alone by no step, and stays so
      until it is made again. */
  lemma StepStrays(s: State, step: Step, p: Path)
    requires Inv(s) && Enabled(s, step) && Running(s) && Running(Do(s, step)) && Followed(s, p) && CreatorsPresent(s, p)
    requires !Abandoned(Do(s, step), p)
    ensures Strayed(Do(s, step), p) <==> Strayed(s, p) && !Recreates(step, p)
  {
    StepKeepsInv(s, step);
    RunningFlags(s, p);
    assert Do(s, step).captureOn;
    hide Inv, CopierOk, Running, Followed, Strayed, Abandoned, CreatorsPresent, DoApp, DoBackup, AppEnabled,
      BackupEnabled;
    match step
    case App(t, a) =>
      if a.CaptureUnlink? {
        UnlinkStrays(s, t, a, p);
      } else {
        PlainAppStrays(s, t, a, p);
      }
    case Backup(b) => BackupStrays(s, b, p);
  }

  lemma StepKeepsCreators(s: State, step: Step, p: Path)
    requires Inv(s) && Enabled(s, step) && CreatorsPresent(s, p)
    ensures CreatorsPresent(Do(s, step), p)
  {
    hide Inv, CreatorsPresent;
    match step
    case App(t, a) => AppKeepsCreators(s, t, a, p);
    case Backup(b) => BackupKeepsCreators(s, b, p);
  }

  /** Prepare does not come back. */
  predicate Begun(s: State) {
    !s.cp.NotStarted? && !s.cp.Preparing?
  }

  lemma StepOnwards(s: State, step: Step)
    requires Inv(s) && Backed(s) && Enabled(s, step) && Begun(s)
    ensures Begun(Do(s, step)) && Do(s, step).cfg == s.cfg && (Running(Do(s, step)) ==> Running(s))
  {
    StepIsGentle(s, step);
    assert SameTimes(s, Do(s, step));
    hide Inv, Backed, Gentle, Clean, AppEnabled, BackupEnabled;
    match step
    case App(t, a) =>
      AppSteady(s, t, a, "");
      hide DoApp;
    case Backup(b) =>
      BackupGoesOn(s, b);
      hide DoBackup;
  }

  /** What a run adds to the files that the backup has alone. */
  lemma {:induction false} RunStrays(s: State, steps: seq<Step>, u: State, p: Path)
    requires Inv(s) && Backed(s) && Begun(s) && CreatorsPresent(s, p) && Followed(s, p) && Reaches(s, steps, u)
    requires Running(u) && !Abandoned(u, p)
    ensures Running(s) && !Abandoned(s, p)
    ensures Strayed(u, p) <==> Strayed(s, p) && forall step :: step in steps ==> !Recreates(step, p)
    decreases |steps|
  {
    if steps != [] {
      var s1 := Do(s, steps[0]);
      FirstAndRest(steps);
      StepKeepsInv(s, steps[0]);
      StepKeepsBacked(s, steps[0]);
      StepKeepsCreators(s, steps[0], p);
      StepOnwards(s, steps[0]);
      hide Inv, Backed, CreatorsPresent, Running, Abandoned, Strayed, Enabled, Do, Recreates;
      RunStrays(s1, steps[1..], u, p);
      if Abandoned(s, p) {
        StepKeepsAbandoned(s, steps[0], p);
      }
      StepStrays(s, steps[0], p);
    }
  }

  // ----- what prepare leaves -----

  /** One of the first descriptions is of an object of that name that is not marked. */
  ghost predicate OpenUnder(s: State, next: Fd, p: Path) {
    exists fd: Fd :: IsOpenAs(s, fd, p) && fd < next
  }

  predicate IsOpenAs(s: State, fd: Fd, p: Path) {
    fd in s.fmap && s.fmap[fd] in s.srcs && s.srcs[s.fmap[fd]].name == p && !s.srcs[s.fmap[fd]].unlinked
  }

  /** Prepare has made the files of the descriptions it has passed, and no others. */
  ghost predicate PreparedExactly(s: State, p: Path) {
    s.cp.Preparing? && p in s.cfg.inSource && p !in s.cfg.backupExcluded ==>
      (p in s.backup <==> OpenUnder(s, s.cp.next, p))
  }

  lemma SameOpenAs(s: State, s': State, p: Path)
    requires SameOpen(s, s') && FdsOk(s) && FdsOk(s')
    ensures forall fd :: IsOpenAs(s', fd, p) <==> IsOpenAs(s, fd, p)
  {
    forall fd | fd in s.fmap
      ensures s.fmap[fd] in s.srcs && s.fmap[fd] in s'.srcs
    {
      assert FdOk(s, fd, s.fmap[fd]) && FdOk(s', fd, s'.fmap[fd]);
    }
  }

  lemma NoCreateInPrepare(s: State, t: Tid, a: AppStep)
    requires AppEnabled(s, t, a) && s.cp.Preparing? && NoReaders(s)
    ensures !a.CreateOnOpen? && !a.CaptureUnlink?
  {
  }

  lemma AppKeepsPrepared(s: State, t: Tid, a: AppStep, p: Path)
    requires Inv(s) && AppEnabled(s, t, a) && PreparedExactly(s, p) && Inv(DoApp(s, t, a))
    ensures PreparedExactly(DoApp(s, t, a), p)
  {
    var s' := DoApp(s, t, a);
    AppSteady(s, t, a, "");
    if s.cp.Preparing? {
      WriterExcludesReaders(s);
      NoCreateInPrepare(s, t, a);
      AppWhilePreparing(s, t, a);
      AppAdds(s, t, a);
      SameOpenAs(s, s', p);
      hide Inv, DoApp, AppEnabled, IsOpenAs;
    }
  }

  /** What a round of prepare does to one file. */
  lemma PrepareMakesFile(s: State, sid: Sid, p: Path)
    requires sid in s.srcs && ObjectBacked(s, s.srcs[sid])
    ensures p in TryCreate(s, sid, true).backup <==> p in s.backup || (s.srcs[sid].name == p && !s.srcs[sid].unlinked)
    ensures forall fd :: IsOpenAs(TryCreate(s, sid, true), fd, p) <==> IsOpenAs(s, fd, p)
  {
  }

  lemma OneMoreOpen(s: State, next: Fd, p: Path)
    ensures OpenUnder(s, next + 1, p) <==> OpenUnder(s, next, p) || IsOpenAs(s, next, p)
  {
    hide IsOpenAs;
  }

  ghost predicate RoundMade(s: State, s': State, p: Path)
    requires s.cp.Preparing?
  {
    && (p in s'.backup <==> p in s.backup || IsOpenAs(s, s.cp.next, p))
    && forall fd :: IsOpenAs(s', fd, p) <==> IsOpenAs(s, fd, p)
  }

  /** What is known when the next round of prepare has ended: it goes on, or copying begins. */
  ghost predicate RoundDone(s: State, s': State, p: Path)
    requires s.cp.Preparing?
  {
    && (s'.cp.Preparing? ==> s'.cp.next == s.cp.next + 1 && RoundMade(s, s', p))
    && (s'.cp.Copying? ==> s'.backup == s.backup)
  }

  lemma PrepareRound(s: State, next: Fd, io: bool, p: Path)
    requires s.cp == Preparing(next)
    requires (next in s.fmap ==> s.fmap[next] in s.srcs && ObjectBacked(s, s.srcs[s.fmap[next]]))
    requires p in s.cfg.inSource && p !in s.cfg.backupExcluded
    ensures RoundDone(s, DoPrepare(s, next, io), p)
  {
    assert RoundDone(s, s.(cp := Copying, captureOn := true, aborted := true), p);
    assert RoundDone(s, s.(cp := Failed, ioFailed := true, prepareFailed := true, captureOn := false), p);
    if next in s.fmap {
      PrepareMakesFile(s, s.fmap[next], p);
      PrepareMade(s, s.fmap[next], p);
    }
    PreparePasses(s, p);
    hide TryCreate, ObjectBacked, RoundDone;
  }

  lemma PrepareMade(s: State, sid: Sid, p: Path)
    requires s.cp.Preparing? && sid in s.srcs && ObjectBacked(s, s.srcs[sid]) && MappedTo(s, s.cp.next, sid)
    ensures RoundDone(s, TryCreate(s, sid, true).(cp := Preparing(s.cp.next + 1)), p)
  {
    PrepareMakesFile(s, sid, p);
    var s1 := TryCreate(s, sid, true);
    assert forall fd :: IsOpenAs(s1.(cp := Preparing(s.cp.next + 1)), fd, p) <==> IsOpenAs(s1, fd, p);
    assert IsOpenAs(s, s.cp.next, p) <==> s.srcs[sid].name == p && !s.srcs[sid].unlinked;
    hide TryCreate, ObjectBacked, IsOpenAs;
  }

  lemma PreparePasses(s: State, p: Path)
    requires s.cp.Preparing?
    ensures !IsOpenAs(s, s.cp.next, p) ==> RoundDone(s, s.(cp := Preparing(s.cp.next + 1)), p)
  {
  }

  lemma NextPrepared(s: State, s': State, p: Path)
    requires PreparedExactly(s, p) && s.cp.Preparing? && RoundDone(s, s', p) && s'.cfg == s.cfg
    ensures PreparedExactly(s', p)
  {
    if s'.cp.Preparing? {
      OneMoreOpen(s, s.cp.next, p);
      hide IsOpenAs;
    }
  }

  lemma RoundOf(s: State, io: bool, p: Path)
    requires Inv(s) && Backed(s) && BackupEnabled(s, PrepareOne(io)) && p in s.cfg.inSource
    requires p !in s.cfg.backupExcluded
    ensures RoundDone(s, DoBackup(s, PrepareOne(io)), p)
  {
    assert s.cp.next in s.fmap ==> ObjectBacked(s, s.srcs[s.fmap[s.cp.next]]);
    hide Inv, Backed, ObjectBacked, RoundDone, DoPrepare, TableFree, PastEnd;
    PrepareRound(s, s.cp.next, io, p);
  }

  lemma BackupKeepsPrepared(s: State, b: BackupStep, p: Path)
    requires Inv(s) && Backed(s) && BackupEnabled(s, b) && PreparedExactly(s, p)
    ensures PreparedExactly(DoBackup(s, b), p)
  {
    var s' := DoBackup(s, b);
    BackupAround(s, b);
    if Begun(s) {
      BackupGoesOn(s, b);
      hide DoBackup, BackupEnabled;
    } else if s.cp.Preparing? && b.PrepareOne? && p in s.cfg.inSource && p !in s.cfg.backupExcluded {
      RoundOf(s, b.io, p);
      hide Inv, Backed, DoBackup, BackupEnabled, RoundDone, PreparedExactly;
      NextPrepared(s, s', p);
    } else {
      hide Inv, TableFree, NoReaders, PastEnd, DoPrepare;
    }
  }

  lemma {:induction false} RunKeepsPrepared(s: State, steps: seq<Step>, t: State, p: Path)
    requires Inv(s) && Backed(s) && PreparedExactly(s, p) && Reaches(s, steps, t)
    ensures PreparedExactly(t, p)
    decreases |steps|
  {
    hide Inv, Backed, PreparedExactly;
    if steps != [] {
      StepKeepsInv(s, steps[0]);
      StepKeepsBacked(s, steps[0]);
      match steps[0] {
        case App(t, a) => AppKeepsPrepared(s, t, a, p);
        case Backup(b) => BackupKeepsPrepared(s, b, p);
      }
      RunKeepsPrepared(Do(s, steps[0]), steps[1..], t, p);
    }
  }

  /** While prepare runs, the backup has of the source exactly the names under which a description that prepare has
      passed is open, with an object that is not marked. */
  lemma PreparedFiles(s: State, p: Path)
    requires Reachable(s) && s.cp.Preparing? && p in s.cfg.inSource && p !in s.cfg.backupExcluded
    ensures p in s.backup <==> OpenUnder(s, s.cp.next, p)
  {
    hide Inv, OpenUnder;
    var s0, steps :| Init(s0) && Reaches(s0, steps, s);
    InitKeepsInv(s0);
    RunKeepsPrepared(s0, steps, s, p);
  }

  // ----- the session as a whole -----

  lemma {:induction false} RunOnwards(s: State, steps: seq<Step>, u: State)
    requires Inv(s) && Backed(s) && Begun(s) && Reaches(s, steps, u)
    ensures Begun(u)
    decreases |steps|
  {
    hide Inv, Backed, Begun, Running;
    if steps != [] {
      StepKeepsInv(s, steps[0]);
      StepKeepsBacked(s, steps[0]);
      StepOnwards(s, steps[0]);
      RunOnwards(Do(s, steps[0]), steps[1..], u);
    }
  }

  lemma NoneCreates(s: State, s': State, p: Path)
    requires NoReaders(s) && s'.threads == s.threads && s'.cp.Copying?
    ensures CreatorsPresent(s', p)
  {
    hide Present;
  }

  lemma CopyingBegins(s: State, b: BackupStep, p: Path)
    requires Inv(s) && Backed(s) && s.cp.Preparing? && BackupEnabled(s, b) && DoBackup(s, b).cp.Copying?
    requires p in s.cfg.inSource && p !in s.cfg.backupExcluded
    ensures var s1 := DoBackup(s, b);
      && CreatorsPresent(s1, p) && s1.cfg == s.cfg
      && (p in s1.backup <==> p in s.backup) && (Present(s1, p) <==> Present(s, p))
  {
    assert ThreadsOk(s);
    WriterExcludesReaders(s);
    BackupAround(s, b);
    BackupKeepsPresent(s, b, p);
    NoneCreates(s, DoBackup(s, b), p);
    if b.PrepareOne? {
      RoundOf(s, b.io, p);
    }
    hide Inv, Backed, TableFree, NoReaders, PastEnd, DoPrepare, Present, ThreadsOk, IsOpenAs, CreatorsPresent;
  }

  /** Up to the end of the session, as long as no error has been reported: a file that the source has not, and that no
      unlink() is taking out or has given up on, is in the backup exactly when it was open while prepare ran although it
      had been unlinked already, by a call that had returned, and nobody has made it again since. */
  lemma StraysIff(s: State, b: BackupStep, after: seq<Step>, u: State, p: Path)
    requires Reachable(s) && s.cp.Preparing? && Enabled(s, Backup(b)) && Do(s, Backup(b)).cp.Copying?
    requires Reaches(Do(s, Backup(b)), after, u) && u.session && u.captureOn
    requires Followed(s, p) && p !in s.cfg.backupExcluded && !Present(u, p) && !Abandoned(u, p)
    ensures p in u.backup <==>
      OpenUnder(s, s.cp.next, p) && !Present(s, p) && forall step :: step in after ==> !Recreates(step, p)
  {
    var s1 := Do(s, Backup(b));
    ReachableInv(s);
    ReachableBacked(s);
    StepKeepsInv(s, Backup(b));
    StepKeepsBacked(s, Backup(b));
    CopyingBegins(s, b, p);
    PreparedFiles(s, p);
    hide Reachable, Inv, Backed, Enabled, Do, OpenUnder, Present, Abandoned, CreatorsPresent, Recreates;
    RunOnwards(s1, after, u);
    RunStrays(s1, after, u, p);
  }
}
