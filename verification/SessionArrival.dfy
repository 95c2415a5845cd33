/** Which files are in the backup, and stay there: what the copier delivers although files come and go meanwhile, and
    what becomes of a delivered file up to the end of the session. */
module SessionArrival {
  import opened Basics
  import opened Session
  import opened SessionSafety
  import opened SessionBackup
  import opened SessionDelivery
  import opened SessionTheorems

  /** An open() that created the file is between its real open and its capture; it holds the file-op mutex. */
  predicate Arriving(s: State, p: Path, sid: Sid) {
    s.fileOp.Some? && s.fileOp.value in s.threads &&
    match s.threads[s.fileOp.value]
    case Opening(_, q) => q == p
    case Resolved(_, q) => q == p
    case Referenced(_, x) => x == sid
    case Mapped(_, x) => x == sid
    case Creating(_, x, ok) => x == sid && ok
    case _ => false
  }

  /** A file that the backup is to have: it exists, nothing exempts it, and its object is neither marked nor failed. */
  predicate Wanted(s: State, p: Path, sid: Sid) {
    p in s.fs && p !in s.cfg.backupExcluded && sid in s.srcs && !s.srcs[sid].unlinked && !s.srcs[sid].failed
  }

  /** The copier is finished with the file: it is in the backup, or on its way there. */
  predicate Arrived(s: State) {
    CopierDelivered(s.cp) && Wanted(s, s.cp.path, s.cp.sid) ==>
      s.cp.path in s.backup || Arriving(s, s.cp.path, s.cp.sid)
  }

  // ----- the steps of threads -----

  /** The thread has created the file, and holds the mutex. */
  predicate JustCreated(s: State, t: Tid, p: Path) {
    s.fileOp == Some(t) && t in s.threads && s.threads[t].Opening? && s.threads[t].path == p
  }

  /** The others stay where they are, a failure is not forgotten, and files appear by a creating open() alone. */
  ghost predicate ActsAlone(s: State, s': State, t: Tid) {
    && (forall p :: p in s'.fs && p !in s.fs ==> JustCreated(s', t, p))
    && (forall u :: u != t ==>
          (u in s'.threads <==> u in s.threads) && (u in s.threads ==> s'.threads[u] == s.threads[u]))
    && (s.fileOp.Some? && s.fileOp != Some(t) ==> s'.fileOp == s.fileOp)
    && (s'.fileOp == s.fileOp || s'.fileOp.None? || s'.fileOp == Some(t))
    && (forall x :: x in s.srcs && x in s'.srcs ==> SameName(s.srcs[x], s'.srcs[x]))
  }

  predicate SameName(src: Src, src': Src) {
    src'.name == src.name && (src.failed ==> src'.failed)
  }

  lemma OpenAlone(s: State, t: Tid, fd: Fd, p: Path, creat: bool)
    requires creat ==> s.fileOp.None?
    ensures ActsAlone(s, DoRealOpen(s, t, fd, p, creat), t)
  {
  }

  lemma RealpathAlone(s: State, t: Tid, fd: Fd, p: Path)
    ensures ActsAlone(s, DoRealpath(s, t, fd, p), t)
  {
    assert ActsAlone(s, Goto(s, t, Resolved(fd, p)), t);
    assert ActsAlone(s, Finish(s.(captureOn := false), t), t);
  }

  lemma GetAlone(s: State, t: Tid, fd: Fd, p: Path, newId: Sid)
    requires CanGet(s, p, newId)
    ensures ActsAlone(s, DoGetSource(s, t, fd, p, newId), t) && ActsAlone(s, DoUnlinkGet(s, t, p, newId), t)
  {
    hide TableFree;
  }

  lemma PutAlone(s: State, t: Tid, fd: Fd, sid: Sid)
    requires sid in s.srcs
    ensures ActsAlone(s, DoPut(s, t, fd, sid), t)
  {
  }

  lemma EraseAlone(s: State, t: Tid, fd: Fd, sid: Sid)
    requires sid in s.srcs
    ensures ActsAlone(s, DoErase(s, t, fd, sid), t)
  {
  }

  lemma EnterOpenAlone(s: State, t: Tid, fd: Fd, sid: Sid, io: bool)
    requires sid in s.srcs
    ensures ActsAlone(s, DoEnterOpen(s, t, fd, sid, io), t)
  {
  }

  lemma CreateAlone(s: State, t: Tid, sid: Sid, ok: bool, io: bool)
    requires sid in s.srcs
    ensures ActsAlone(s, DoCreateOnOpen(s, t, sid, ok, io), t)
  {
  }

  lemma CloseAlone(s: State, t: Tid, fd: Fd, sid: Sid)
    requires sid in s.srcs
    ensures ActsAlone(s, DoCloseDetach(s, t, fd, sid), t)
  {
  }

  lemma DropAlone(s: State, t: Tid, fd: Fd, sid: Sid)
    requires sid in s.srcs && s.srcs[sid].count > 0
    ensures ActsAlone(s, DoDrop(s, t, fd, sid), t)
  {
  }

  lemma RealUnlinkAlone(s: State, t: Tid, p: Path, ok: bool)
    ensures ActsAlone(s, DoRealUnlink(s, t, p, ok), t)
  {
  }

  lemma StartCloseAlone(s: State, t: Tid, fd: Fd)
    ensures ActsAlone(s, DoStartClose(s, t, fd), t)
  {
  }

  lemma UnlinkSourceAlone(s: State, t: Tid, sid: Sid)
    requires sid in s.srcs && s.srcs[sid].count > 0
    ensures ActsAlone(s, UnlinkSource(s, t, sid), t)
  {
  }

  lemma FinishAlone(s: State, t: Tid)
    ensures ActsAlone(s, Finish(s, t), t)
  {
  }

  lemma LeakAlone(s: State, t: Tid, sid: Sid)
    requires sid in s.srcs
    ensures ActsAlone(s, LeakRef(s, t, sid), t)
  {
    var src := s.srcs[sid];
    var src' := src.(refs := src.refs - {ByThread(t)}, leaked := src.leaked + 1, failed := true);
    var s1 := s.(srcs := s.srcs[sid := src'], ioFailed := true);
    assert SameName(src, src');
    assert LeakRef(s, t, sid) == Finish(s1, t);
    hide *;
    FinishAlone(s1, t);
    NamesFirst(s, sid, src');
    ThenAlone(s, s1, Finish(s1, t), t);
  }

  lemma NamesFirst(s: State, sid: Sid, src': Src)
    requires sid in s.srcs && SameName(s.srcs[sid], src')
    ensures var srcs := s.srcs[sid := src'];
      srcs.Keys == s.srcs.Keys && forall x :: x in s.srcs ==> SameName(s.srcs[x], srcs[x])
  {
  }

  lemma CreatedFirst(s: State, sid: Sid, io: bool)
    requires sid in s.srcs
    ensures var s1 := TryCreate(s, sid, io);
      && s1.srcs.Keys == s.srcs.Keys && forall x :: x in s.srcs ==> SameName(s.srcs[x], s1.srcs[x])
  {
  }

  lemma ThenAlone(s: State, s1: State, s2: State, t: Tid)
    requires s1.threads == s.threads && s1.fileOp == s.fileOp && s1.fs == s.fs && s1.srcs.Keys == s.srcs.Keys
    requires ActsAlone(s1, s2, t)
    requires forall x :: x in s.srcs ==> SameName(s.srcs[x], s1.srcs[x])
    ensures ActsAlone(s, s2, t)
  {
    assert forall x :: x in s.srcs ==> x in s1.srcs;
  }

  lemma RemovedAlone(s: State, t: Tid, p: Path, sid: Sid, io: bool)
    requires sid in s.srcs && s.srcs[sid].count > 0
    ensures var s1 := TryCreate(s, sid, io);
      && sid in s1.srcs && s1.srcs[sid].count > 0
      && ActsAlone(s, UnlinkSource(s1.(backup := s1.backup - {p}, captured := s1.captured + {p}), t, sid), t)
      && ActsAlone(s, UnlinkSource(s1.(ioFailed := true, captureOn := false), t, sid), t)
  {
    var s1 := TryCreate(s, sid, io);
    TryCreateFields(s, sid, io);
    CreatedFirst(s, sid, io);
    var removed := s1.(backup := s1.backup - {p}, captured := s1.captured + {p});
    var failed := s1.(ioFailed := true, captureOn := false);
    hide TryCreate, UnlinkSource, ActsAlone;
    UnlinkSourceAlone(removed, t, sid);
    ThenAlone(s, removed, UnlinkSource(removed, t, sid), t);
    UnlinkSourceAlone(failed, t, sid);
    ThenAlone(s, failed, UnlinkSource(failed, t, sid), t);
  }

  lemma CaptureUnlinkAlone(s: State, t: Tid, p: Path, sid: Sid, io: bool, ioUnlink: bool)
    requires sid in s.srcs && s.srcs[sid].count > 0
    ensures ActsAlone(s, DoCaptureUnlink(s, t, p, sid, io, ioUnlink), t)
  {
    UnlinkSourceAlone(s, t, sid);
    LeakAlone(s, t, sid);
    assert ActsAlone(s, s.(crashed := true), t);
    RemovedAlone(s, t, p, sid, io);
    hide UnlinkSource, TryCreate, CreateFails, LeakRef, ActsAlone, ShouldCaptureUnlink;
  }

  lemma AppActsAlone(s: State, t: Tid, a: AppStep)
    requires AppEnabled(s, t, a)
    ensures ActsAlone(s, DoApp(s, t, a), t)
  {
    hide Settled, TableFree, CanGet, DoRealOpen, DoRealpath, DoGetSource, DoPut, DoEnterOpen, DoCreateOnOpen,
      DoStartClose,
      DoCloseDetach, DoErase, DoDrop, DoRealUnlink, DoUnlinkGet, DoCaptureUnlink;
    match a
    case RealOpen(fd, p, creat) => OpenAlone(s, t, fd, p, creat);
    case Realpath => RealpathAlone(s, t, s.threads[t].fd, s.threads[t].path);
    case GetSource(newId) => GetAlone(s, t, s.threads[t].fd, s.threads[t].path, newId);
    case Put => PutAlone(s, t, s.threads[t].fd, s.threads[t].sid);
    case EnterOpen(io) => EnterOpenAlone(s, t, s.threads[t].fd, s.threads[t].sid, io);
    case CreateOnOpen(io) => CreateAlone(s, t, s.threads[t].sid, s.threads[t].ok, io);
    case StartClose(fd) => StartCloseAlone(s, t, fd);
    case CloseDetach => CloseAlone(s, t, s.threads[t].fd, s.threads[t].sid);
    case Erase => EraseAlone(s, t, s.threads[t].fd, s.threads[t].sid);
    case Drop => DropAlone(s, t, s.threads[t].fd, s.threads[t].sid);
    case RealClose =>
    case StartUnlink(p) =>
    case RealUnlink(ok) => RealUnlinkAlone(s, t, s.threads[t].path, ok);
    case UnlinkGet(newId) => GetAlone(s, t, 0, s.threads[t].path, newId);
    case CaptureUnlink(io, ioUnlink) => CaptureUnlinkAlone(s, t, s.threads[t].path, s.threads[t].sid, io, ioUnlink);
  }

  // ----- the open() that is on its way -----

  /** What is known of a file whose open() is on its way while the copier is past it. */
  ghost predicate OnItsWay(s: State, t: Tid, p: Path, sid: Sid) {
    && s.fileOp == Some(t) && Arriving(s, p, sid) && s.session
    && sid in s.srcs && s.srcs[sid].name == p && p in s.table && s.table[p] == sid
    && p in s.fs && p in s.cfg.inSource && p !in s.cfg.backupExcluded
  }

  /** It goes on, or has made the destination, or failed. */
  predicate GoesOn(s: State, p: Path, sid: Sid) {
    Arriving(s, p, sid) || (sid in s.srcs && (s.srcs[sid].dest || s.srcs[sid].unlinked || s.srcs[sid].failed))
  }

  lemma RealpathGoesOn(s: State, t: Tid, fd: Fd, p: Path, sid: Sid)
    requires OnItsWay(s, t, p, sid)
    ensures GoesOn(DoRealpath(s, t, fd, p), p, sid)
  {
  }

  lemma GetGoesOn(s: State, t: Tid, fd: Fd, p: Path, sid: Sid, newId: Sid)
    requires OnItsWay(s, t, p, sid) && CanGet(s, p, newId)
    ensures GoesOn(DoGetSource(s, t, fd, p, newId), p, sid)
  {
    hide TableFree, GotSrcs;
  }

  lemma PutGoesOn(s: State, t: Tid, fd: Fd, p: Path, sid: Sid)
    requires OnItsWay(s, t, p, sid)
    ensures GoesOn(DoPut(s, t, fd, sid), p, sid)
  {
  }

  lemma EnterGoesOn(s: State, t: Tid, fd: Fd, p: Path, sid: Sid, io: bool)
    requires OnItsWay(s, t, p, sid)
    ensures GoesOn(DoEnterOpen(s, t, fd, sid, io), p, sid)
  {
  }

  lemma CreateGoesOn(s: State, t: Tid, p: Path, sid: Sid, io: bool)
    requires OnItsWay(s, t, p, sid)
    ensures GoesOn(DoCreateOnOpen(s, t, sid, true, io), p, sid)
  {
  }

  lemma ArrivingGoesOn(s: State, t: Tid, a: AppStep, p: Path, sid: Sid)
    requires OnItsWay(s, t, p, sid) && AppEnabled(s, t, a)
    ensures GoesOn(DoApp(s, t, a), p, sid)
  {
    hide Settled, TableFree, CanGet, DoRealOpen, DoRealpath, DoGetSource, DoPut, DoEnterOpen, DoCreateOnOpen,
      DoStartClose,
      DoCloseDetach, DoErase, DoDrop, DoRealUnlink, DoUnlinkGet, DoCaptureUnlink;
    match a
    case Realpath => RealpathGoesOn(s, t, s.threads[t].fd, p, sid);
    case GetSource(newId) => GetGoesOn(s, t, s.threads[t].fd, p, sid, newId);
    case Put => PutGoesOn(s, t, s.threads[t].fd, p, sid);
    case EnterOpen(io) => EnterGoesOn(s, t, s.threads[t].fd, p, sid, io);
    case CreateOnOpen(io) => CreateGoesOn(s, t, p, sid, io);
    case _ =>
  }

  lemma StaysArriving(s: State, s': State, t: Tid, p: Path, sid: Sid)
    requires ActsAlone(s, s', t) && Arriving(s, p, sid) && s.fileOp != Some(t)
    ensures Arriving(s', p, sid)
  {
  }

  // ----- every step keeps it -----

  /** What the copier knows of the object it holds. */
  lemma CopierObject(s: State)
    requires Inv(s) && CopierHolds(s.cp)
    ensures s.cp.sid in s.srcs && s.srcs[s.cp.sid].name == s.cp.path && s.session
    ensures s.cp.path in s.table && s.table[s.cp.path] == s.cp.sid
  {
    assert CopierOk(s) && GoneOk(s);
    assert SrcOk(s, s.cp.sid);
  }

  lemma WantedBefore(s: State, s': State, t: Tid, p: Path, sid: Sid)
    requires ActsAlone(s, s', t) && Gentle(s, s') && sid in s.srcs && Wanted(s', p, sid)
    ensures p in s.fs ==> Wanted(s, p, sid)
    ensures p !in s.fs ==> Arriving(s', p, sid)
  {
    assert s'.cfg == s.cfg;
  }

  lemma StaysInHand(s: State, s': State, p: Path, sid: Sid)
    requires Gentle(s, s') && p in s.backup && sid in s'.srcs && s'.srcs[sid].name == p && !s'.srcs[sid].unlinked
    ensures p in s'.backup
  {
  }

  lemma DestinationArrives(s: State, p: Path, sid: Sid)
    requires ObjectsBacked(s) && sid in s.srcs && s.srcs[sid].name == p && s.srcs[sid].dest && !s.srcs[sid].unlinked
    ensures p in s.backup
  {
    assert ObjectBacked(s, s.srcs[sid]);
  }

  /** A step of a thread, with what its own open() has come to. */
  lemma ArrivesStill(s: State, s': State, t: Tid, p: Path, sid: Sid)
    requires ActsAlone(s, s', t) && Gentle(s, s') && ObjectsBacked(s') && sid in s.srcs && Wanted(s', p, sid)
    requires s'.srcs[sid].name == p
    requires Wanted(s, p, sid) ==> p in s.backup || Arriving(s, p, sid)
    requires p in s.fs && Arriving(s, p, sid) && s.fileOp == Some(t) ==> GoesOn(s', p, sid)
    ensures p in s'.backup || Arriving(s', p, sid)
  {
    WantedBefore(s, s', t, p, sid);
    assert sid in s'.srcs && !s'.srcs[sid].unlinked && !s'.srcs[sid].failed;
    hide Gentle, ActsAlone, ObjectsBacked, Arriving, Wanted;
    if p in s.backup {
      StaysInHand(s, s', p, sid);
    } else if p in s.fs {
      if s.fileOp == Some(t) {
        if !Arriving(s', p, sid) {
          DestinationArrives(s', p, sid);
        }
      } else {
        StaysArriving(s, s', t, p, sid);
      }
    }
  }

  lemma CopierFacts(s: State)
    requires Inv(s) && Backed(s) && CopierHolds(s.cp)
    ensures Followed(s, s.cp.path) && ObjectsBacked(s)
    ensures s.cp.sid in s.srcs && s.srcs[s.cp.sid].name == s.cp.path && s.session
    ensures s.cp.path in s.table && s.table[s.cp.path] == s.cp.sid
  {
    CopierObject(s);
    assert CopierBacked(s);
  }

  lemma AppKeepsArrived(s: State, t: Tid, a: AppStep)
    requires Inv(s) && Backed(s) && Arrived(s) && AppEnabled(s, t, a)
    requires var s' := DoApp(s, t, a); Inv(s') && Backed(s')
    ensures Arrived(DoApp(s, t, a))
  {
    var s' := DoApp(s, t, a);
    AppSteady(s, t, a, "");
    AppActsAlone(s, t, a);
    AppIsGentle(s, t, a) by {
      assert Backed(s);
    }
    hide Inv, Backed, Gentle, ActsAlone, DoApp, AppEnabled, Arriving, Wanted, ObjectsBacked, OnItsWay;
    if CopierDelivered(s.cp) && Wanted(s', s.cp.path, s.cp.sid) {
      var p, sid := s.cp.path, s.cp.sid;
      CopierFacts(s);
      CopierFacts(s');
      if p in s.fs && Arriving(s, p, sid) && s.fileOp == Some(t) {
        assert OnItsWay(s, t, p, sid) by {
          NotExcluded(s, s', p, sid);
          ItsWay(s, t, p, sid);
        }
        ArrivingGoesOn(s, t, a, p, sid);
      }
      ArrivesStill(s, s', t, p, sid);
    }
  }

  lemma NotExcluded(s: State, s': State, p: Path, sid: Sid)
    requires Wanted(s', p, sid) && s'.cfg == s.cfg
    ensures p !in s.cfg.backupExcluded
  {
  }

  lemma ItsWay(s: State, t: Tid, p: Path, sid: Sid)
    requires s.fileOp == Some(t) && Arriving(s, p, sid) && s.session && p in s.fs && Followed(s, p)
    requires sid in s.srcs && s.srcs[sid].name == p && p in s.table && s.table[p] == sid && p !in s.cfg.backupExcluded
    ensures OnItsWay(s, t, p, sid)
  {
  }

  predicate NothingDelivered(s: State) {
    !CopierDelivered(s.cp)
  }

  lemma PrepareArrives(s: State, next: Fd, io: bool)
    requires next in s.fmap ==> s.fmap[next] in s.srcs
    ensures NothingDelivered(DoPrepare(s, next, io))
  {
    hide TryCreate, DoPrepare;
    PrepareCases(s, next, io, NothingDelivered);
  }

  /** The copier has made the destination, or found the object marked; or the file was missing, and still is unless an
      open() is on its way. */
  lemma CopyCreateArrives(s: State, p: Path, sid: Sid, present: bool, io: bool)
    requires s.cp == CopyCreating(p, sid, present) && sid in s.srcs && s.srcs[sid].name == p && Arrived(s)
    requires ObjectsBacked(DoCopyCreate(s, p, sid, present, io))
    ensures Arrived(DoCopyCreate(s, p, sid, present, io))
  {
    var s' := DoCopyCreate(s, p, sid, present, io);
    if present && !CreateFails(s, sid, io) {
      assert sid in s'.srcs && ObjectBacked(s', s'.srcs[sid]);
      assert s'.srcs[sid].name == p && (s'.srcs[sid].dest || s'.srcs[sid].unlinked);
      hide ObjectsBacked, Clean, Arriving;
    } else {
      hide ObjectsBacked, ObjectBacked, Arriving, CreateFails;
    }
  }

  lemma CopyDetachArrives(s: State, p: Path, sid: Sid)
    requires Arrived(s) && s.cp == CopyDetaching(p, sid) && sid in s.srcs
    ensures Arrived(TryRemoveDest(s, sid).(cp := CopyDropping(p, sid, true)))
  {
  }

  /** A step of the copier that changes only its program counter: it finds the file missing, or goes on. */
  lemma CopierGoesOn(s: State, cp: BackupPc)
    requires Arrived(s) && CopierHolds(s.cp) && (CopierHolds(cp) ==> cp.path == s.cp.path && cp.sid == s.cp.sid)
    requires CopierDelivered(cp) ==> CopierHolds(cp) && (CopierDelivered(s.cp) || cp.path !in s.fs)
    ensures Arrived(s.(cp := cp))
  {
    hide Arriving;
    assert forall p, sid :: Arriving(s.(cp := cp), p, sid) == Arriving(s, p, sid) by {
      SameArriving(s, cp);
    }
  }

  lemma SameArriving(s: State, cp: BackupPc)
    ensures forall p, sid :: Arriving(s.(cp := cp), p, sid) == Arriving(s, p, sid)
  {
  }

  /** The steps after which the copier has a file behind it. */
  predicate Finishes(b: BackupStep) {
    b.CopyOpen? || b.CopyLock? || b.CopyDataEnd? || b.CopyDetach? || b.CopyCreate?
  }

  lemma OtherStepsDeliverNothing(s: State, b: BackupStep)
    requires BackupEnabled(s, b) && !Finishes(b)
    ensures NothingDelivered(DoBackup(s, b))
  {
    hide TableFree, PastEnd, NoReaders, DoPrepare, TryRemoveDest, DropRef, GetOrCreate, CanGet;
    match b
    case PrepareOne(io) => PrepareArrives(s, s.cp.next, io);
    case _ =>
  }

  lemma BackupKeepsArrived(s: State, b: BackupStep)
    requires Inv(s) && Arrived(s) && BackupEnabled(s, b) && ObjectsBacked(DoBackup(s, b))
    ensures Arrived(DoBackup(s, b))
  {
    if !Finishes(b) {
      OtherStepsDeliverNothing(s, b);
      hide Wanted, Arriving, Inv, ObjectsBacked, DoBackup, BackupEnabled;
    } else {
      CopierObject(s);
      hide Inv, TableFree, DoCopyCreate, TryRemoveDest, ObjectsBacked, Arrived;
      match b
      case CopyCreate(io) => CopyCreateArrives(s, s.cp.path, s.cp.sid, s.cp.present, io);
      case CopyDetach => CopyDetachArrives(s, s.cp.path, s.cp.sid);
      case CopyOpen => CopierGoesOn(s, DoBackup(s, b).cp);
      case CopyLock => CopierGoesOn(s, DoBackup(s, b).cp);
      case CopyDataEnd(_) => CopierGoesOn(s, DoBackup(s, b).cp);
      case _ =>
    }
  }

  lemma {:induction false} RunKeepsArrived(s: State, steps: seq<Step>, t: State)
    requires Inv(s) && Backed(s) && Arrived(s) && Reaches(s, steps, t)
    ensures Arrived(t)
    decreases |steps|
  {
    hide Inv, Backed, Arrived;
    if steps != [] {
      StepKeepsInv(s, steps[0]);
      StepKeepsBacked(s, steps[0]);
      StepKeepsArrived(s, steps[0]);
      RunKeepsArrived(Do(s, steps[0]), steps[1..], t);
    }
  }

  lemma StepKeepsArrived(s: State, step: Step)
    requires Inv(s) && Backed(s) && Arrived(s) && Enabled(s, step)
    ensures Arrived(Do(s, step))
  {
    StepKeepsInv(s, step);
    StepKeepsBacked(s, step);
    hide Inv, Backed, Arrived;
    match step
    case App(t, a) => AppKeepsArrived(s, t, a);
    case Backup(b) =>
      assert ObjectsBacked(DoBackup(s, b)) by {
        assert Backed(Do(s, step));
      }
      BackupKeepsArrived(s, b);
  }

  lemma ReachableArrived(s: State)
    requires Reachable(s)
    ensures Arrived(s)
  {
    hide Inv;
    var s0, steps :| Init(s0) && Reaches(s0, steps, s);
    InitKeepsInv(s0);
    RunKeepsArrived(s0, steps, s);
  }

  /** When the copier is done with a file, without an error: a file that exists then, for which nothing failed, and
      which no creating open() is still bringing, is in the backup if its object is not marked; and, as long as no error
      has been reported, only then.  It does not matter what became of the file since the copier picked it. */
  lemma CopierDeliversIff(s: State)
    requires Reachable(s) && s.cp.CopyDropping? && s.cp.ok
    requires s.cp.path in s.fs && s.cp.path !in s.cfg.backupExcluded && !Arriving(s, s.cp.path, s.cp.sid)
    ensures s.cp.sid in s.srcs && s.srcs[s.cp.sid].name == s.cp.path
    ensures var src := s.srcs[s.cp.sid];
      && (!src.failed && !src.unlinked ==> s.cp.path in s.backup)
      && (!src.failed && s.captureOn ==> (s.cp.path in s.backup <==> !src.unlinked))
  {
    ReachableInv(s);
    CopierObject(s);
    ReachableArrived(s);
    ReachableBacked(s);
    assert CopierBacked(s);
    hide Inv, Backed, Reachable, Arriving;
    if s.captureOn && s.srcs[s.cp.sid].unlinked {
      MarkedHasNoFile(s, s.cp.sid);
    }
  }

  // ----- what stays -----

  /** No file is made or unlinked. */
  predicate SameHistory(s: State, s': State) {
    && s'.fs == s.fs && s'.everUnlinked == s.everUnlinked && s'.recreated == s.recreated
    && s'.goneSincePick <= s.goneSincePick
  }

  predicate Keeps(s: State, s': State) {
    s'.backup == s.backup && SameHistory(s, s')
  }

  predicate Adds(s: State, s': State, p: Path) {
    s.backup <= s'.backup <= s.backup + {p} && SameHistory(s, s')
  }

  lemma OpenKeepsBackup(s: State, t: Tid, fd: Fd, p: Path, creat: bool)
    ensures DoRealOpen(s, t, fd, p, creat).backup == s.backup
  {
  }

  lemma RealUnlinkKeepsBackup(s: State, t: Tid, p: Path, ok: bool)
    ensures DoRealUnlink(s, t, p, ok).backup == s.backup
  {
  }

  lemma RealpathKeeps(s: State, t: Tid, fd: Fd, p: Path)
    ensures Keeps(s, DoRealpath(s, t, fd, p))
  {
    assert Keeps(s, Goto(s, t, Resolved(fd, p))) && Keeps(s, Finish(s.(captureOn := false), t));
  }

  lemma CloseKeeps(s: State, t: Tid, fd: Fd)
    ensures Keeps(s, DoStartClose(s, t, fd)) && Keeps(s, DoRealClose(s, t, fd))
  {
  }

  lemma GetKeeps(s: State, t: Tid, fd: Fd, p: Path, newId: Sid)
    requires CanGet(s, p, newId)
    ensures Keeps(s, DoGetSource(s, t, fd, p, newId)) && Keeps(s, DoUnlinkGet(s, t, p, newId))
  {
    hide TableFree;
  }

  lemma MapKeeps(s: State, t: Tid, fd: Fd, sid: Sid)
    requires sid in s.srcs
    ensures Keeps(s, DoPut(s, t, fd, sid)) && Keeps(s, DoErase(s, t, fd, sid)) && Keeps(s, DoCloseDetach(s, t, fd, sid))
    ensures s.srcs[sid].count > 0 ==> Keeps(s, DoDrop(s, t, fd, sid))
  {
  }

  lemma EnterKeeps(s: State, t: Tid, fd: Fd, sid: Sid, io: bool)
    requires sid in s.srcs
    ensures Keeps(s, DoEnterOpen(s, t, fd, sid, io))
  {
  }

  lemma CreatedAdds(s: State, sid: Sid, io: bool, cp: BackupPc, captureOn: bool)
    requires sid in s.srcs
    ensures Adds(s, TryCreate(s, sid, io).(cp := cp, captureOn := captureOn), s.srcs[sid].name)
  {
    TryCreateFields(s, sid, io);
    assert s.backup <= TryCreate(s, sid, io).backup <= s.backup + {s.srcs[sid].name};
    hide TryCreate, CreateFails;
  }

  lemma FinishKeeps(s: State, t: Tid)
    ensures Keeps(s, Finish(s, t))
  {
  }

  lemma CreateAdds(s: State, t: Tid, sid: Sid, ok: bool, io: bool)
    requires sid in s.srcs
    ensures var s' := DoCreateOnOpen(s, t, sid, ok, io);
      Adds(s, s', s.srcs[sid].name) && (!ok ==> s'.backup == s.backup)
  {
    var captureOn := s.captureOn && !CreateFails(s, sid, io);
    CreatedAdds(s, sid, io, s.cp, captureOn);
    TryCreateFields(s, sid, io);
    hide TryCreate, CreateFails, Finish;
    FinishKeeps(s, t);
    FinishKeeps(TryCreate(s, sid, io).(cp := s.cp, captureOn := captureOn), t);
    assert TryCreate(s, sid, io).(cp := s.cp, captureOn := captureOn) == TryCreate(s, sid, io).(captureOn := captureOn);
  }

  /** Steps of a thread, other than the end of an unlink(): only a captured open() changes the backup, and adds its
      file. */
  lemma AppAdds(s: State, t: Tid, a: AppStep)
    requires AppEnabled(s, t, a) && !a.CaptureUnlink?
    ensures var s' := DoApp(s, t, a);
      && (a.RealOpen? || a.RealUnlink? || SameHistory(s, s'))
      && (a.CreateOnOpen? && s.threads[t].ok ==> Adds(s, s', s.srcs[s.threads[t].sid].name))
      && (!(a.CreateOnOpen? && s.threads[t].ok) ==> s'.backup == s.backup)
  {
    hide Settled, TableFree, CanGet, DoRealOpen, DoRealpath, DoGetSource, DoPut, DoEnterOpen, DoCreateOnOpen,
      DoStartClose,
      DoCloseDetach, DoErase, DoDrop, DoRealUnlink, DoUnlinkGet, DoRealClose;
    match a
    case RealOpen(fd, p, creat) => OpenKeepsBackup(s, t, fd, p, creat);
    case Realpath => RealpathKeeps(s, t, s.threads[t].fd, s.threads[t].path);
    case GetSource(newId) => GetKeeps(s, t, s.threads[t].fd, s.threads[t].path, newId);
    case Put => MapKeeps(s, t, s.threads[t].fd, s.threads[t].sid);
    case EnterOpen(io) => EnterKeeps(s, t, s.threads[t].fd, s.threads[t].sid, io);
    case CreateOnOpen(io) => CreateAdds(s, t, s.threads[t].sid, s.threads[t].ok, io);
    case StartClose(fd) => CloseKeeps(s, t, fd);
    case CloseDetach => MapKeeps(s, t, s.threads[t].fd, s.threads[t].sid);
    case Erase => MapKeeps(s, t, s.threads[t].fd, s.threads[t].sid);
    case Drop => MapKeeps(s, t, s.threads[t].fd, s.threads[t].sid);
    case RealClose => CloseKeeps(s, t, s.threads[t].fd);
    case StartUnlink(p) =>
    case RealUnlink(ok) => RealUnlinkKeepsBackup(s, t, s.threads[t].path, ok);
    case UnlinkGet(newId) => GetKeeps(s, t, 0, s.threads[t].path, newId);
  }

  lemma CopyGetKeeps(s: State, p: Path, newId: Sid)
    requires CanGet(s, p, newId)
    ensures Keeps(s, GetOrCreate(s, p, newId, ByCopier))
  {
    hide TableFree;
  }

  lemma ObjectsKeep(s: State, sid: Sid)
    requires sid in s.srcs
    ensures Keeps(s, TryRemoveDest(s, sid))
    ensures s.srcs[sid].count > 0 ==> Keeps(s, DropRef(s, sid, ByCopier))
  {
  }

  lemma PrepareAdds(s: State, next: Fd, io: bool)
    requires next in s.fmap ==> s.fmap[next] in s.srcs
    ensures if next in s.fmap then Adds(s, DoPrepare(s, next, io), s.srcs[s.fmap[next]].name)
            else Keeps(s, DoPrepare(s, next, io))
  {
    if next in s.fmap {
      var p := s.srcs[s.fmap[next]].name;
      CreatedAdds(s, s.fmap[next], true, Preparing(next + 1), s.captureOn);
      TryCreateFields(s, s.fmap[next], true);
      assert TryCreate(s, s.fmap[next], true).(cp := Preparing(next + 1), captureOn := s.captureOn)
        == TryCreate(s, s.fmap[next], true).(cp := Preparing(next + 1)) by {
        hide TryCreate;
      }
      assert Adds(s, s.(cp := Preparing(next + 1)), p);
      assert Adds(s, s.(cp := Copying, captureOn := true, aborted := true), p);
      assert Adds(s, s.(cp := Failed, ioFailed := true, prepareFailed := true, captureOn := false), p);
      hide TryCreate, DoPrepare, Adds;
      PrepareCases(s, next, io, x => Adds(s, x, p));
    }
  }

  lemma CopyCreateAdds(s: State, p: Path, sid: Sid, present: bool, io: bool)
    requires sid in s.srcs && s.srcs[sid].name == p
    ensures Adds(s, DoCopyCreate(s, p, sid, present, io), p)
    ensures !present ==> Keeps(s, DoCopyCreate(s, p, sid, present, io))
  {
    CreatedAdds(s, sid, io, CopyData(p, sid), s.captureOn);
    CreatedAdds(s, sid, io, CopyDetaching(p, sid), s.captureOn);
    assert Keeps(s, s.(cp := CopyDetaching(p, sid)));
    assert Adds(s, s.(ioFailed := true, cp := CopyDropping(p, sid, false)), p);
    assert !present ==> DoCopyCreate(s, p, sid, present, io) == s.(cp := CopyDetaching(p, sid));
    TryCreateFields(s, sid, io);
    hide TryCreate, CreateFails, DoCopyCreate;
    assert Adds(s, s.(cp := CopyDetaching(p, sid)), p);
    var s1 := TryCreate(s, sid, io);
    assert s1.(cp := CopyData(p, sid), captureOn := s.captureOn) == s1.(cp := CopyData(p, sid));
    assert s1.(cp := CopyDetaching(p, sid), captureOn := s.captureOn) == s1.(cp := CopyDetaching(p, sid));
    hide Adds, Keeps;
    CopyCreateCases(s, p, sid, present, io, x => Adds(s, x, p));
  }

  /** Steps of the backup thread: prepare adds the file of its descriptor, and the copier its own if it was there. */
  lemma BackupAdds(s: State, b: BackupStep)
    requires CopierOk(s) && BackupEnabled(s, b)
    ensures var s' := DoBackup(s, b);
      && s.backup <= s'.backup && SameHistory(s, s')
      && (b.PrepareOne? && s.cp.next in s.fmap ==> Adds(s, s', s.srcs[s.fmap[s.cp.next]].name))
      && (b.CopyCreate? && s.cp.present ==> Adds(s, s', s.cp.path))
      && (!(b.PrepareOne? && s.cp.next in s.fmap) && !(b.CopyCreate? && s.cp.present) ==> s'.backup == s.backup)
  {
    hide TableFree, PastEnd, NoReaders, DoPrepare, DoCopyCreate, TryRemoveDest, DropRef, GetOrCreate, CanGet;
    match b
    case PrepareOne(io) => PrepareAdds(s, s.cp.next, io);
    case CopyGet(newId) => CopyGetKeeps(s, s.cp.path, newId);
    case CopyCreate(io) => CopyCreateAdds(s, s.cp.path, s.cp.sid, s.cp.present, io);
    case CopyDetach => ObjectsKeep(s, s.cp.sid);
    case CopyDrop => ObjectsKeep(s, s.cp.sid);
    case DisableOne =>
      if s.cp.next in s.fmap {
        ObjectsKeep(s, s.fmap[s.cp.next]);
      }
    case _ =>
  }

  /** A captured unlink() of the file that neither fails nor follows a NULL destination. */
  predicate Takes(s: State, step: Step, p: Path) {
    && step.App? && step.a.CaptureUnlink? && step.t in s.threads && s.threads[step.t].UnlinkReferenced?
    && s.threads[step.t].path == p && ShouldCaptureUnlink(s, p) && step.a.ioUnlink
    && var sid := s.threads[step.t].sid;
       sid in s.srcs && !CreateFails(s, sid, step.a.io) && (s.srcs[sid].unlinked ==> s.srcs[sid].dest)
  }

  lemma UnlinkSourceSameBackup(s: State, t: Tid, sid: Sid)
    requires sid in s.srcs && s.srcs[sid].count > 0
    ensures UnlinkSource(s, t, sid).backup == s.backup && SameHistory(s, UnlinkSource(s, t, sid))
  {
  }

  lemma UnlinkTakesIff(s: State, t: Tid, p: Path, sid: Sid, io: bool, ioUnlink: bool, q: Path)
    requires sid in s.srcs && s.srcs[sid].count > 0 && q in s.backup
    ensures q !in DoCaptureUnlink(s, t, p, sid, io, ioUnlink).backup <==>
      p == q && ShouldCaptureUnlink(s, p) && ioUnlink && !CreateFails(s, sid, io)
      && (s.srcs[sid].unlinked ==> s.srcs[sid].dest)
  {
    UnlinkSourceSameBackup(s, t, sid);
    TryCreateFields(s, sid, io);
    var s1 := TryCreate(s, sid, io);
    assert s.backup <= s1.backup;
    UnlinkSourceSameBackup(s1.(ioFailed := true, captureOn := false), t, sid);
    UnlinkSourceSameBackup(s1.(backup := s1.backup - {p}, captured := s1.captured + {p}), t, sid);
    hide UnlinkSource, TryCreate, CreateFails, ShouldCaptureUnlink, LeakRef;
  }

  /** A file leaves the backup exactly by a captured unlink() of its name that succeeds. */
  lemma LeavesBackupIff(s: State, step: Step, p: Path)
    requires CopierOk(s) && Enabled(s, step) && p in s.backup
    ensures p !in Do(s, step).backup <==> Takes(s, step, p)
  {
    match step
    case App(t, a) =>
      if a.CaptureUnlink? {
        hide TableFree, DoCaptureUnlink, ShouldCaptureUnlink, CreateFails;
        UnlinkTakesIff(s, t, s.threads[t].path, s.threads[t].sid, a.io, a.ioUnlink, p);
      } else {
        AppAdds(s, t, a);
        hide DoApp, AppEnabled;
      }
    case Backup(b) =>
      BackupAdds(s, b);
      hide DoBackup, BackupEnabled;
  }

  lemma InvCopier(s: State)
    requires Inv(s)
    ensures CopierOk(s)
  {
  }

  /** No step of the run takes the file out of the backup. */
  ghost predicate Spared(s: State, steps: seq<Step>, p: Path)
    decreases |steps|
  {
    steps != [] && Enabled(s, steps[0]) ==> !Takes(s, steps[0], p) && Spared(Do(s, steps[0]), steps[1..], p)
  }

  /** Nothing else does: over any run without such an unlink() a file stays in the backup, up to the end of the session
      and after it. */
  lemma {:induction false} StaysInBackup(s: State, steps: seq<Step>, t: State, p: Path)
    requires Inv(s) && Reaches(s, steps, t) && p in s.backup && Spared(s, steps, p)
    ensures p in t.backup
    decreases |steps|
  {
    hide Inv, Enabled, Do, Takes;
    if steps != [] {
      assert CopierOk(s) by {
        InvCopier(s);
      }
      StepKeepsInv(s, steps[0]);
      LeavesBackupIff(s, steps[0], p);
      StaysInBackup(Do(s, steps[0]), steps[1..], t, p);
    }
  }

  // ----- names that are not used twice -----

  /** A name that was unlinked and is there again has been made again. */
  ghost predicate OneLife(s: State) {
    (forall p :: p in s.everUnlinked && p in s.fs ==> p in s.recreated) && s.goneSincePick <= s.everUnlinked
  }

  ghost predicate Ages(s: State, s': State) {
    s.everUnlinked <= s'.everUnlinked && s.recreated <= s'.recreated && (OneLife(s) ==> OneLife(s'))
  }

  lemma SameHistoryAges(s: State, s': State)
    requires SameHistory(s, s')
    ensures Ages(s, s')
  {
  }

  lemma OpenAges(s: State, t: Tid, fd: Fd, p: Path, creat: bool)
    ensures Ages(s, DoRealOpen(s, t, fd, p, creat))
  {
  }

  lemma RealUnlinkAges(s: State, t: Tid, p: Path, ok: bool)
    ensures Ages(s, DoRealUnlink(s, t, p, ok))
  {
  }

  lemma CaptureUnlinkSameHistory(s: State, t: Tid, p: Path, sid: Sid, io: bool, ioUnlink: bool)
    requires sid in s.srcs && s.srcs[sid].count > 0
    ensures SameHistory(s, DoCaptureUnlink(s, t, p, sid, io, ioUnlink))
  {
    assert SameHistory(s, LeakRef(s, t, sid)) && SameHistory(s, s.(crashed := true));
    UnlinkSourceSameBackup(s, t, sid);
    TryCreateFields(s, sid, io);
    var s1 := TryCreate(s, sid, io);
    UnlinkSourceSameBackup(s1.(ioFailed := true, captureOn := false), t, sid);
    UnlinkSourceSameBackup(s1.(backup := s1.backup - {p}, captured := s1.captured + {p}), t, sid);
    hide UnlinkSource, TryCreate, CreateFails, ShouldCaptureUnlink, LeakRef;
  }

  lemma StepAges(s: State, step: Step)
    requires Inv(s) && Enabled(s, step)
    ensures Ages(s, Do(s, step))
  {
    var s' := Do(s, step);
    InvCopier(s);
    hide Inv, Ages, SameHistory;
    match step
    case App(t, a) =>
      hide Settled, TableFree, DoRealOpen, DoRealUnlink, DoCaptureUnlink;
      match a {
        case RealOpen(fd, p, creat) => OpenAges(s, t, fd, p, creat);
        case RealUnlink(ok) => RealUnlinkAges(s, t, s.threads[t].path, ok);
        case CaptureUnlink(io, ioUnlink) =>
          CaptureUnlinkSameHistory(s, t, s.threads[t].path, s.threads[t].sid, io, ioUnlink);
          SameHistoryAges(s, s');
        case _ =>
          AppAdds(s, t, a);
          SameHistoryAges(s, s');
      }
    case Backup(b) =>
      BackupAges(s, b);
  }

  lemma {:induction false} RunAges(s: State, steps: seq<Step>, t: State)
    requires Inv(s) && Reaches(s, steps, t)
    ensures Ages(s, t)
    decreases |steps|
  {
    hide Inv, Enabled, Do;
    if steps != [] {
      StepAges(s, steps[0]);
      StepKeepsInv(s, steps[0]);
      RunAges(Do(s, steps[0]), steps[1..], t);
    }
  }

  lemma BackupAges(s: State, b: BackupStep)
    requires CopierOk(s) && BackupEnabled(s, b)
    ensures Ages(s, DoBackup(s, b))
  {
    BackupAdds(s, b);
    hide DoBackup, BackupEnabled;
    SameHistoryAges(s, DoBackup(s, b));
  }

  lemma TakesUnlinked(s: State, step: Step, p: Path)
    requires Inv(s) && Takes(s, step, p)
    ensures p in s.everUnlinked
  {
    OwnPc(s, step.t);
  }

  lemma {:induction false} StaysWhileLinked(s: State, steps: seq<Step>, t: State, p: Path)
    requires Inv(s) && Reaches(s, steps, t) && p in s.backup && p !in t.everUnlinked
    ensures p in t.backup
    decreases |steps|
  {
    hide Inv, CopierOk, Enabled, Do, Takes;
    if steps != [] {
      RunAges(s, steps, t);
      InvCopier(s);
      LeavesBackupIff(s, steps[0], p);
      if Takes(s, steps[0], p) {
        TakesUnlinked(s, steps[0], p);
      }
      StepKeepsInv(s, steps[0]);
      StaysWhileLinked(Do(s, steps[0]), steps[1..], t, p);
    }
  }

  /** The step with which the backup has the file: the copier lets go of it without an error, or an open() that was to
      be captured has its destination. */
  predicate Delivers(s: State, step: Step, p: Path) {
    match step
    case Backup(b) => b.CopyDrop? && s.cp.CopyDropping? && s.cp.ok && s.cp.path == p
    case App(t, a) =>
      && a.CreateOnOpen? && t in s.threads && s.threads[t].Creating? && s.threads[t].ok
      && var sid := s.threads[t].sid; sid in s.srcs && s.srcs[sid].name == p && !CreateFails(s, sid, a.io)
  }

  lemma OpenDelivers(s: State, t: Tid, p: Path, sid: Sid, io: bool)
    requires sid in s.srcs && s.srcs[sid].name == p && !CreateFails(s, sid, io) && !s.srcs[sid].unlinked
    requires s.srcs[sid].dest ==> p in s.backup
    ensures p in DoCreateOnOpen(s, t, sid, true, io).backup
  {
  }

  lemma NeverUnlinked(s: State, sid: Sid)
    requires Inv(s) && sid in s.srcs && s.srcs[sid].name !in s.everUnlinked
    ensures !s.srcs[sid].unlinked && s.srcs[sid].name in s.fs
  {
    assert SrcOk(s, sid);
  }

  lemma DeliveredNow(s: State, step: Step, p: Path)
    requires Reachable(s) && OneLife(s) && Enabled(s, step) && Delivers(s, step, p) && p !in s.everUnlinked
    ensures p in Do(s, step).backup
  {
    ReachableInv(s);
    ReachableBacked(s);
    match step
    case Backup(b) =>
      CopierObject(s);
      NeverUnlinked(s, s.cp.sid);
      CopierDeliversItsFile(s);
      BackupAdds(s, b);
      hide Inv, Backed, Reachable, BackupEnabled, DoBackup;
    case App(t, a) =>
      var sid := s.threads[t].sid;
      NeverUnlinked(s, sid);
      assert ObjectBacked(s, s.srcs[sid]);
      hide Inv, Backed, Reachable, CreateFails, DoCreateOnOpen;
      OpenDelivers(s, t, p, sid, a.io);
  }

  lemma ReachableOneLife(s: State)
    requires Reachable(s)
    ensures OneLife(s)
  {
    var s0, steps :| Init(s0) && Reaches(s0, steps, s);
    InitKeepsInv(s0);
    hide Inv;
    RunAges(s0, steps, s);
  }

  /** The files that are there at the end.  What the copier has finished without an error, or an open() has made a
      destination for, is in the backup at every later moment, up to the end of the session and after it, at which the
      file is in the source; unless its name was made again after an unlink(). */
  lemma DeliveredFilesAreThere(s: State, step: Step, after: seq<Step>, t: State, p: Path)
    requires Reachable(s) && Enabled(s, step) && Delivers(s, step, p) && Reaches(Do(s, step), after, t)
    requires p in t.fs && p !in t.recreated
    ensures p in t.backup
  {
    var s1 := Do(s, step);
    ReachableInv(s);
    StepKeepsInv(s, step);
    ReachableOneLife(s);
    StepAges(s, step);
    RunAges(s1, after, t);
    hide Reachable, Inv, Enabled, Do, Delivers;
    DeliveredNow(s, step, p);
    StaysWhileLinked(s1, after, t, p);
  }
}
