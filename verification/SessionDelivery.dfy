/** What the objects say about the backup, kept by every step, in the same style as SessionSafety: a destination of
    an object that is not marked is a file of the backup; a marked object has no file there, as long as nothing went
    wrong; what the copier finishes is there; and a reference that unlink() abandoned is never given back. */
module SessionDelivery {
  import opened Basics
  import opened Session
  import opened SessionSafety
  import opened SessionBackup

  /** No error has been reported: unlink() is captured whenever there is a session. */
  predicate Clean(s: State) {
    s.cp.NotStarted? || s.cp.Preparing? || (s.session && s.captureOn)
  }

  /** A name whose unlink() is captured. */
  predicate Followed(s: State, p: Path) {
    p in s.cfg.inSource && p !in s.cfg.sourceExcluded
  }

  predicate ObjectBacked(s: State, src: Src) {
    && (src.dest && !src.unlinked ==> src.name in s.backup)
    && (src.unlinked && Clean(s) && Followed(s, src.name) ==> src.name !in s.backup)
  }

  /** The step leaves the object and its backup file alone. */
  predicate Untouched(s: State, s': State, sid: Sid)
    requires sid in s'.srcs
  {
    && sid in s.srcs
    && s'.srcs[sid] == s.srcs[sid].(count := s'.srcs[sid].count, refs := s'.srcs[sid].refs,
                                    leaked := s'.srcs[sid].leaked, failed := s'.srcs[sid].failed,
                                    dest := s'.srcs[sid].dest)
    && (s'.srcs[sid].dest ==> s.srcs[sid].dest)
    && (s'.srcs[sid].name in s'.backup <==> s.srcs[sid].name in s.backup)
  }

  predicate SameTimes(s: State, s': State) {
    && s'.cfg == s.cfg && (Clean(s') ==> Clean(s))
    && (s'.cp.NotStarted? ==> s.cp.NotStarted? && s'.backup == s.backup)
  }

  predicate LeakKept(s: State, s': State, sid: Sid)
    requires sid in s.srcs
  {
    sid in s'.srcs && s'.srcs[sid].leaked >= s.srcs[sid].leaked
  }

  /** A file leaves the backup only when the object of its name is marked. */
  ghost predicate BackupKept(s: State, s': State) {
    forall p, sid :: p in s.backup && p !in s'.backup && sid in s'.srcs && s'.srcs[sid].name == p ==>
      s'.srcs[sid].unlinked
  }

  ghost predicate Gentle(s: State, s': State) {
    && SameTimes(s, s') && BackupKept(s, s')
    && (forall sid :: sid in s'.srcs ==> Untouched(s, s', sid) || ObjectBacked(s', s'.srcs[sid]))
    && (forall sid :: sid in s.srcs && sid in s'.srcs && s.srcs[sid].unlinked ==> s'.srcs[sid].unlinked)
    && (forall sid :: sid in s.srcs && s.srcs[sid].leaked > 0 ==> LeakKept(s, s', sid))
  }

  /** No two objects have one name. */
  lemma OwnName(s: State, sid: Sid)
    requires SrcsOk(s) && sid in s.srcs
    ensures forall x :: x in s.srcs && x != sid ==> s.srcs[x].name != s.srcs[sid].name
  {
    assert SrcOk(s, sid);
    forall x | x in s.srcs && x != sid
      ensures s.srcs[x].name != s.srcs[sid].name
    {
      assert SrcOk(s, x);
    }
  }

  predicate SameObjectFields(s: State, s': State) {
    s'.srcs == s.srcs && s'.backup == s.backup && SameTimes(s, s')
  }

  lemma QuietIsGentle(s: State, s': State)
    requires SameObjectFields(s, s')
    ensures Gentle(s, s')
  {
    hide SameTimes;
  }

  lemma GetIsGentle(s: State, s': State, p: Path, newId: Sid, r: Ref)
    requires CanGet(s, p, newId) && Got(s, s', p, newId, r) && s'.backup == s.backup && SameTimes(s, s')
    ensures Gentle(s, s')
  {
    hide TableFree, SameTimes;
  }

  lemma MoveIsGentle(s: State, s': State, sid: Sid, from: Ref, to: Ref)
    requires sid in s.srcs && Moved(s, s', sid, from, to) && s'.backup == s.backup && SameTimes(s, s')
    ensures Gentle(s, s')
  {
    hide SameTimes;
  }

  lemma CreateIsGentle(s: State, s': State, sid: Sid, io: bool)
    requires SrcsOk(s) && sid in s.srcs && s'.srcs == TryCreate(s, sid, io).srcs
    requires s'.backup == TryCreate(s, sid, io).backup && SameTimes(s, s')
    ensures Gentle(s, s')
  {
    OwnName(s, sid);
    hide SrcsOk, SameTimes, Clean;
  }

  lemma RemoveIsGentle(s: State, s': State, sid: Sid)
    requires sid in s.srcs && s'.srcs == TryRemoveDest(s, sid).srcs && s'.backup == s.backup && SameTimes(s, s')
    ensures Gentle(s, s')
  {
    hide SameTimes;
  }

  lemma EnterIsGentle(s: State, s': State, sid: Sid)
    requires sid in s.srcs && s'.backup == s.backup && SameTimes(s, s')
    requires sid in s'.srcs && s'.srcs == s.srcs[sid := s.srcs[sid].(failed := s'.srcs[sid].failed)]
    ensures Gentle(s, s')
  {
    hide SameTimes;
  }

  lemma ReleaseIsGentle(s: State, s': State, sid: Sid, r: Ref)
    requires SrcsOk(s) && Live(s, sid, r) && s'.backup == s.backup && SameTimes(s, s') && s.srcs[sid].count > 0
    requires s'.srcs == DropRef(s, sid, r).srcs
    ensures Gentle(s, s')
  {
    LeakedIsNotLast(s, sid, r);
    hide SrcsOk, SameTimes;
  }

  lemma LeakedIsNotLast(s: State, sid: Sid, r: Ref)
    requires SrcsOk(s) && Live(s, sid, r)
    ensures s.srcs[sid].leaked > 0 ==> s.srcs[sid].count > 1
  {
    assert SrcOk(s, sid);
    assert s.srcs[sid].refs != {};
  }

  /** The end of an unlink() that marks the object: what is left of it, if anything, is marked. */
  ghost predicate Marked(s: State, s': State, t: Tid, p: Path, sid: Sid) {
    && sid in s.srcs && s.srcs[sid].name == p
    && (forall x :: x != sid ==> (x in s'.srcs <==> x in s.srcs) && (x in s.srcs ==> s'.srcs[x] == s.srcs[x]))
    && (sid in s'.srcs ==> s'.srcs[sid].name == p && s'.srcs[sid].unlinked && s'.srcs[sid].leaked == s.srcs[sid].leaked)
    && (s.srcs[sid].leaked > 0 ==> sid in s'.srcs)
    && (forall q :: q != p ==> (q in s'.backup <==> q in s.backup))
  }

  lemma MarkIsGentle(s: State, s': State, t: Tid, p: Path, sid: Sid)
    requires SrcsOk(s) && Marked(s, s', t, p, sid) && SameTimes(s, s')
    requires Clean(s') && Followed(s', p) ==> p !in s'.backup
    ensures Gentle(s, s')
  {
    OwnName(s, sid);
    hide SrcsOk, SameTimes, Clean, Followed;
    forall x | x in s'.srcs
      ensures Untouched(s, s', x) || ObjectBacked(s', s'.srcs[x])
    {
      if x == sid {
        assert ObjectBacked(s', s'.srcs[x]);
      } else {
        assert Untouched(s, s', x);
      }
    }
  }

  lemma UnlinkSourceMarks(s: State, s0: State, t: Tid, p: Path, sid: Sid)
    requires SrcsOk(s) && MayHaveCreated(s, s0, t, p, sid) && s0.srcs[sid].count > 0
    ensures Marked(s, UnlinkSource(s0, t, sid), t, p, sid) && UnlinkSource(s0, t, sid).backup == s0.backup
    ensures UnlinkSource(s0, t, sid).cp == s.cp && UnlinkSource(s0, t, sid).cfg == s.cfg
    ensures UnlinkSource(s0, t, sid).session == s.session && UnlinkSource(s0, t, sid).captureOn == s0.captureOn
  {
    LeakedIsNotLast(s, sid, ByThread(t));
    hide SrcsOk, SrcOk, GoneFrom, TableFree;
  }

  /** Marking the object, with the backup file gone unless the call was not captured. */
  lemma UnlinkSourceIsGentle(s: State, s0: State, t: Tid, p: Path, sid: Sid)
    requires SrcsOk(s) && MayHaveCreated(s, s0, t, p, sid) && s0.srcs[sid].count > 0
    requires s.cp.NotStarted? ==> s0.backup == s.backup
    requires Clean(s0) && Followed(s, p) ==> p !in s0.backup
    ensures Gentle(s, UnlinkSource(s0, t, sid))
  {
    UnlinkSourceMarks(s, s0, t, p, sid);
    assert s0.cp == s.cp && s0.cfg == s.cfg && s0.session == s.session && (s0.captureOn ==> s.captureOn);
    hide SrcsOk, UnlinkSource, MayHaveCreated, Marked;
    MarkIsGentle(s, UnlinkSource(s0, t, sid), t, p, sid);
  }

  /** An unlink() that is not captured marks an object without a file in the backup: there is no backup yet, or an
      error has been reported, or nobody follows the name. */
  lemma NotCapturedIsClean(s: State, p: Path)
    requires GoneOk(s) && !ShouldCaptureUnlink(s, p) && !WriterIn(s.cp) && (s.cp.NotStarted? ==> s.backup == {})
    ensures Clean(s) && Followed(s, p) ==> p !in s.backup
  {
  }

  /** A captured unlink(): the backup file is gone, or an error is reported. */
  lemma RemovedIsGentle(s: State, t: Tid, p: Path, sid: Sid, io: bool)
    requires SrcsOk(s) && AtUnlink(s, t, p, sid) && s.srcs[sid].count > 0 && s.captureOn && !s.cp.NotStarted?
    requires !s.cp.Preparing?
    ensures var s1 := TryCreate(s, sid, io);
      && sid in s1.srcs && s1.srcs[sid].count > 0
      && Gentle(s, UnlinkSource(s1.(backup := s1.backup - {p}, captured := s1.captured + {p}), t, sid))
      && Gentle(s, UnlinkSource(s1.(ioFailed := true, captureOn := false), t, sid))
  {
    var s1 := TryCreate(s, sid, io);
    TryCreateFields(s, sid, io);
    CapturedUnlink(s, t, p, sid, io);
    FailedUnlink(s, t, p, sid, io);
    hide SrcsOk, AtUnlink, MayHaveCreated, UnlinkSource, Gentle, TryCreate;
    UnlinkSourceIsGentle(s, s1.(backup := s1.backup - {p}, captured := s1.captured + {p}), t, p, sid);
    UnlinkSourceIsGentle(s, s1.(ioFailed := true, captureOn := false), t, p, sid);
  }

  lemma CaptureUnlinkIsGentle(s: State, t: Tid, p: Path, sid: Sid, io: bool, ioUnlink: bool)
    requires Inv(s) && t in s.threads && s.threads[t] == UnlinkReferenced(p, sid) && TableFree(s) && !WriterIn(s.cp)
    requires sid in s.srcs && s.srcs[sid].count > 0 && (s.cp.NotStarted? ==> s.backup == {})
    ensures Gentle(s, DoCaptureUnlink(s, t, p, sid, io, ioUnlink))
  {
    CaptureUnlinkFacts(s, t, p, sid);
    assert SrcsOk(s) && GoneOk(s);
    assert ShouldCaptureUnlink(s, p) ==> s.captureOn && !s.cp.NotStarted? && !s.cp.Preparing?;
    hide Inv, SrcsOk, GoneOk, AtUnlink, MayHaveCreated, UnlinkSource, Gentle, LeakRef, TryCreate, CreateFails,
      TableFree;
    if !ShouldCaptureUnlink(s, p) {
      NotCapturedUnlink(s, t, p, sid);
      NotCapturedIsClean(s, p);
      UnlinkSourceIsGentle(s, s, t, p, sid);
    } else {
      LeakIsGentle(s, t, sid);
      QuietIsGentle(s, s.(crashed := true));
      RemovedIsGentle(s, t, p, sid, io);
    }
  }

  lemma LeakIsGentle(s: State, t: Tid, sid: Sid)
    requires sid in s.srcs
    ensures Gentle(s, LeakRef(s, t, sid))
  {
  }

  predicate TouchesNoObject(a: AppStep) {
    a.RealOpen? || a.Realpath? || a.StartClose? || a.RealClose? || a.StartUnlink? || a.RealUnlink?
  }

  lemma QuietFields(s: State, s': State)
    requires s'.srcs == s.srcs && s'.backup == s.backup && s'.cfg == s.cfg && s'.cp == s.cp && s'.session == s.session
    requires s'.captureOn ==> s.captureOn
    ensures SameObjectFields(s, s')
  {
  }

  lemma OpenFields(s: State, t: Tid, fd: Fd, p: Path, creat: bool)
    ensures SameObjectFields(s, DoRealOpen(s, t, fd, p, creat))
  {
    hide SameObjectFields;
    QuietFields(s, DoRealOpen(s, t, fd, p, creat));
  }

  lemma RealpathFields(s: State, t: Tid, fd: Fd, p: Path)
    ensures SameObjectFields(s, DoRealpath(s, t, fd, p))
  {
    hide SameObjectFields;
    if p in s.fs {
      QuietFields(s, Goto(s, t, Resolved(fd, p)));
    } else {
      QuietFields(s, Finish(s.(captureOn := false), t));
    }
  }

  lemma RealUnlinkFields(s: State, t: Tid, p: Path, ok: bool)
    ensures SameObjectFields(s, DoRealUnlink(s, t, p, ok))
  {
    hide SameObjectFields;
    QuietFields(s, DoRealUnlink(s, t, p, ok));
  }

  lemma QuietAppIsGentle(s: State, t: Tid, a: AppStep)
    requires AppEnabled(s, t, a) && TouchesNoObject(a)
    ensures Gentle(s, DoApp(s, t, a))
  {
    var s' := DoApp(s, t, a);
    assert SameObjectFields(s, s') by {
      hide DoRealOpen, DoRealpath, DoRealUnlink, DoRealClose, Settled, TableFree, SameObjectFields;
      match a
      case RealOpen(fd, p, creat) => OpenFields(s, t, fd, p, creat);
      case Realpath => RealpathFields(s, t, s.threads[t].fd, s.threads[t].path);
      case StartClose(fd) => QuietGoto(s, t, s'.threads[t]);
      case RealClose => RealCloseFields(s, t, s.threads[t].fd);
      case StartUnlink(p) => QuietGoto(s.(fileOp := Some(t)), t, Unlinking(p));
      case RealUnlink(ok) => RealUnlinkFields(s, t, s.threads[t].path, ok);
    }
    hide *;
    hide DoApp;
    QuietIsGentle(s, s');
  }

  lemma QuietGoto(s: State, t: Tid, pc: Pc)
    ensures SameObjectFields(s, Goto(s, t, pc))
  {
  }

  lemma RealCloseFields(s: State, t: Tid, fd: Fd)
    ensures SameObjectFields(s, DoRealClose(s, t, fd))
  {
  }

  predicate MovesReference(a: AppStep) {
    a.GetSource? || a.Put? || a.Erase? || a.UnlinkGet?
  }

  lemma ReferenceIsGentle(s: State, t: Tid, a: AppStep)
    requires AppEnabled(s, t, a) && MovesReference(a)
    ensures Gentle(s, DoApp(s, t, a))
  {
    var s' := DoApp(s, t, a);
    hide Gentle, Settled, TableFree;
    match a
    case GetSource(newId) => GetIsGentle(s, s', s.threads[t].path, newId, ByThread(t));
    case Put => MoveIsGentle(s, s', s.threads[t].sid, ByThread(t), ByFd(s.threads[t].fd));
    case Erase => MoveIsGentle(s, s', s.threads[t].sid, ByFd(s.threads[t].fd), ByThread(t));
    case UnlinkGet(newId) => GetIsGentle(s, s', s.threads[t].path, newId, ByThread(t));
  }

  lemma EnterOpenIsGentle(s: State, t: Tid, fd: Fd, sid: Sid, io: bool)
    requires sid in s.srcs
    ensures Gentle(s, DoEnterOpen(s, t, fd, sid, io))
  {
    var s' := DoEnterOpen(s, t, fd, sid, io);
    hide Gentle;
    if s.session {
      EnterIsGentle(s, s', sid);
    } else {
      QuietIsGentle(s, s');
    }
  }

  lemma CreateOnOpenIsGentle(s: State, t: Tid, sid: Sid, ok: bool, io: bool)
    requires SrcsOk(s) && sid in s.srcs && !s.cp.NotStarted?
    ensures Gentle(s, DoCreateOnOpen(s, t, sid, ok, io))
  {
    var s' := DoCreateOnOpen(s, t, sid, ok, io);
    hide Gentle, SrcsOk;
    if ok {
      CreateIsGentle(s, s', sid, io);
    } else {
      QuietIsGentle(s, s');
    }
  }

  lemma CloseDetachIsGentle(s: State, t: Tid, fd: Fd, sid: Sid)
    requires sid in s.srcs
    ensures Gentle(s, DoCloseDetach(s, t, fd, sid))
  {
    var s' := DoCloseDetach(s, t, fd, sid);
    hide Gentle;
    if s.session {
      RemoveIsGentle(s, s', sid);
    } else {
      QuietIsGentle(s, s');
    }
  }

  lemma DropIsGentle(s: State, t: Tid, fd: Fd, sid: Sid)
    requires SrcsOk(s) && Live(s, sid, ByThread(t)) && s.srcs[sid].count > 0
    ensures Gentle(s, DoDrop(s, t, fd, sid))
  {
    hide SrcsOk, Gentle;
    ReleaseIsGentle(s, DoDrop(s, t, fd, sid), sid, ByThread(t));
  }

  lemma OwnSource(s: State, t: Tid)
    requires Inv(s) && t in s.threads
    ensures ThreadOk(s, t, s.threads[t]) && SrcsOk(s) && (s.threads[t].Creating? ==> !s.cp.NotStarted?)
  {
  }

  lemma AppIsGentle(s: State, t: Tid, a: AppStep)
    requires Inv(s) && AppEnabled(s, t, a) && (s.cp.NotStarted? ==> s.backup == {})
    ensures Gentle(s, DoApp(s, t, a))
  {
    if TouchesNoObject(a) {
      hide *;
      QuietAppIsGentle(s, t, a);
    } else if MovesReference(a) {
      hide *;
      ReferenceIsGentle(s, t, a);
    } else {
      OwnSource(s, t);
      hide Inv, SrcsOk, Gentle, Settled, TableFree, DoCaptureUnlink, DoDrop, DoCreateOnOpen, DoCloseDetach, DoEnterOpen;
      match a
      case EnterOpen(io) => EnterOpenIsGentle(s, t, s.threads[t].fd, s.threads[t].sid, io);
      case CreateOnOpen(io) => CreateOnOpenIsGentle(s, t, s.threads[t].sid, s.threads[t].ok, io);
      case CloseDetach => CloseDetachIsGentle(s, t, s.threads[t].fd, s.threads[t].sid);
      case Drop => DropIsGentle(s, t, s.threads[t].fd, s.threads[t].sid);
      case CaptureUnlink(io, ioUnlink) =>
        CaptureUnlinkIsGentle(s, t, s.threads[t].path, s.threads[t].sid, io, ioUnlink);
    }
  }

  lemma DisableIsGentle(s: State)
    requires BackupEnabled(s, DisableOne)
    ensures Gentle(s, DoBackup(s, DisableOne))
  {
    var s' := DoBackup(s, DisableOne);
    hide Gentle;
    if s.cp.next in s.fmap {
      RemoveIsGentle(s, s', s.fmap[s.cp.next]);
    } else {
      QuietIsGentle(s, s');
    }
  }

  predicate ChangesObjects(b: BackupStep) {
    b.PrepareOne? || b.CopyGet? || b.CopyCreate? || b.CopyDetach? || b.CopyDrop? || b.DisableOne?
  }

  lemma ControlIsGentle(s: State, b: BackupStep)
    requires BackupEnabled(s, b) && !ChangesObjects(b)
    ensures Gentle(s, DoBackup(s, b))
  {
    hide Gentle, PastEnd, NoReaders, TableFree;
    QuietIsGentle(s, DoBackup(s, b));
  }

  lemma BackupIsGentle(s: State, b: BackupStep)
    requires Inv(s) && BackupEnabled(s, b)
    ensures Gentle(s, DoBackup(s, b))
  {
    var s' := DoBackup(s, b);
    assert SrcsOk(s) && CopierOk(s);
    hide Inv, SrcsOk, Gentle, TableFree, PastEnd, NoReaders, TryCreate, TryRemoveDest, DropRef, DoPrepare, DoCopyCreate;
    match b
    case PrepareOne(io) => PrepareIsGentle(s, s.cp.next, io);
    case CopyGet(newId) => GetIsGentle(s, s', s.cp.path, newId, ByCopier);
    case CopyCreate(io) => CopyCreateIsGentle(s, s.cp.path, s.cp.sid, s.cp.present, io);
    case CopyDetach => CopyDetachIsGentle(s, s.cp.path, s.cp.sid);
    case CopyDrop => CopyDropIsGentle(s, s.cp.path, s.cp.sid, s.cp.ok);
    case DisableOne => DisableIsGentle(s);
    case _ => ControlIsGentle(s, b);
  }

  lemma PrepareIsGentle(s: State, next: Fd, io: bool)
    requires SrcsOk(s) && s.cp == Preparing(next) && (next in s.fmap ==> s.fmap[next] in s.srcs)
    ensures Gentle(s, DoPrepare(s, next, io))
  {
    hide Gentle, SrcsOk;
    if next !in s.fmap || s.srcs[s.fmap[next]].name !in s.cfg.inSource {
      QuietIsGentle(s, s.(cp := Preparing(next + 1)));
    } else if s.srcs[s.fmap[next]].name in s.cfg.backupExcluded {
      QuietIsGentle(s, s.(cp := Copying, captureOn := true, aborted := true));
    } else if io {
      PrepareCreateIsGentle(s, next, s.fmap[next]);
    } else {
      QuietIsGentle(s, s.(cp := Failed, ioFailed := true, prepareFailed := true, captureOn := false));
    }
  }

  lemma PrepareCreateIsGentle(s: State, next: Fd, sid: Sid)
    requires SrcsOk(s) && s.cp == Preparing(next) && sid in s.srcs
    ensures Gentle(s, TryCreate(s, sid, true).(cp := Preparing(next + 1)))
  {
    hide Gentle, SrcsOk;
    CreateIsGentle(s, TryCreate(s, sid, true).(cp := Preparing(next + 1)), sid, true);
  }

  lemma CopyCreatesIsGentle(s: State, sid: Sid, io: bool, cp: BackupPc)
    requires SrcsOk(s) && sid in s.srcs && s.cp.CopyCreating? && (cp.CopyData? || cp.CopyDetaching?)
    ensures Gentle(s, TryCreate(s, sid, io).(cp := cp))
  {
    hide Gentle, SrcsOk;
    CreateIsGentle(s, TryCreate(s, sid, io).(cp := cp), sid, io);
  }

  lemma CopyCreateIsGentle(s: State, p: Path, sid: Sid, present: bool, io: bool)
    requires SrcsOk(s) && sid in s.srcs && s.cp == CopyCreating(p, sid, present)
    ensures Gentle(s, DoCopyCreate(s, p, sid, present, io))
  {
    hide Gentle, SrcsOk, TryCreate, CreateFails, DoCopyCreate;
    QuietIsGentle(s, s.(cp := CopyDetaching(p, sid)));
    QuietIsGentle(s, s.(ioFailed := true, cp := CopyDropping(p, sid, false)));
    CopyCreatesIsGentle(s, sid, io, CopyData(p, sid));
    CopyCreatesIsGentle(s, sid, io, CopyDetaching(p, sid));
    CopyCreateCases(s, p, sid, present, io, x => Gentle(s, x));
  }

  lemma CopyDetachIsGentle(s: State, p: Path, sid: Sid)
    requires sid in s.srcs && s.cp == CopyDetaching(p, sid)
    ensures Gentle(s, TryRemoveDest(s, sid).(cp := CopyDropping(p, sid, true)))
  {
    hide Gentle;
    RemoveIsGentle(s, TryRemoveDest(s, sid).(cp := CopyDropping(p, sid, true)), sid);
  }

  lemma CopyReleaseIsGentle(s: State, sid: Sid, cp: BackupPc, captureOn: bool)
    requires SrcsOk(s) && s.cp.CopyDropping? && Live(s, sid, ByCopier) && s.srcs[sid].count > 0
    requires (cp.Copying? || cp.Failed?) && (captureOn ==> s.captureOn)
    ensures Gentle(s, DropRef(s, sid, ByCopier).(cp := cp, captureOn := captureOn))
  {
    hide SrcsOk, Gentle;
    ReleaseIsGentle(s, DropRef(s, sid, ByCopier).(cp := cp, captureOn := captureOn), sid, ByCopier);
  }

  lemma CopyDropIsGentle(s: State, p: Path, sid: Sid, ok: bool)
    requires SrcsOk(s) && BackupEnabled(s, CopyDrop) && s.cp == CopyDropping(p, sid, ok) && Live(s, sid, ByCopier)
    ensures Gentle(s, DoBackup(s, CopyDrop))
  {
    assert DropRef(s, sid, ByCopier).captureOn == s.captureOn;
    hide SrcsOk, Gentle, TableFree, DropRef;
    CopyReleaseIsGentle(s, sid, if ok then Copying else Failed, s.captureOn && ok);
    if ok {
      assert DoBackup(s, CopyDrop) == DropRef(s, sid, ByCopier).(cp := Copying, captureOn := s.captureOn);
    }
  }

  // ----- the invariant about the backup -----

  /** The copier is finished with the file of its todo entry. */
  predicate CopierDelivered(cp: BackupPc) {
    cp.CopyData? || cp.CopyDetaching? || (cp.CopyDropping? && cp.ok) || (cp.CopyCreating? && !cp.present)
  }

  predicate HasPath(cp: BackupPc) {
    cp.CopyStatted? || CopierHolds(cp)
  }

  predicate CopierBacked(s: State) {
    && (HasPath(s.cp) && s.cp.path !in s.goneSincePick ==> s.cp.path in s.fs)
    && (HasPath(s.cp) ==> Followed(s, s.cp.path))
    && (CopierDelivered(s.cp) && s.cp.path !in s.goneSincePick && s.cp.sid in s.srcs && !s.srcs[s.cp.sid].unlinked ==>
          s.cp.path in s.backup)
  }

  ghost predicate ObjectsBacked(s: State) {
    forall sid :: sid in s.srcs ==> ObjectBacked(s, s.srcs[sid])
  }

  ghost predicate Backed(s: State) {
    ObjectsBacked(s) && CopierBacked(s) && (s.cp.NotStarted? ==> s.backup == {})
  }

  lemma GentleKeepsObjects(s: State, s': State)
    requires ObjectsBacked(s) && Gentle(s, s') && (s.cp.NotStarted? ==> s.backup == {})
    ensures ObjectsBacked(s') && (s'.cp.NotStarted? ==> s'.backup == {})
  {
    forall sid | sid in s'.srcs && Untouched(s, s', sid)
      ensures ObjectBacked(s', s'.srcs[sid])
    {
      assert ObjectBacked(s, s.srcs[sid]);
    }
  }

  /** Files disappear only by unlink(), and what the copier has delivered stays until its object is marked. */
  lemma AppKeepsCopier(s: State, s': State)
    requires CopierBacked(s) && Gentle(s, s') && CopierOk(s) && CopierOk(s') && s'.cp == s.cp
    requires s.goneSincePick <= s'.goneSincePick
    requires forall p :: p in s.fs && p !in s'.fs ==> p in s'.goneSincePick
    ensures CopierBacked(s')
  {
    assert s'.cfg == s.cfg;
  }

  lemma CopyCreateDelivers(s: State, p: Path, sid: Sid, present: bool, io: bool)
    requires s.cp == CopyCreating(p, sid, present) && sid in s.srcs && s.srcs[sid].name == p && CopierBacked(s)
    requires ObjectsBacked(DoCopyCreate(s, p, sid, present, io))
    ensures CopierBacked(DoCopyCreate(s, p, sid, present, io))
  {
    var s' := DoCopyCreate(s, p, sid, present, io);
    if present && !CreateFails(s, sid, io) {
      assert sid in s'.srcs && ObjectBacked(s', s'.srcs[sid]);
      assert s'.srcs[sid].name == p && s'.srcs[sid].unlinked == s.srcs[sid].unlinked;
      assert s'.srcs[sid].dest || s'.srcs[sid].unlinked;
      hide ObjectsBacked, Clean;
    }
  }

  lemma PrepareDelivers(s: State, next: Fd, io: bool)
    requires s.cp.Preparing? && (next in s.fmap ==> s.fmap[next] in s.srcs)
    ensures CopierBacked(DoPrepare(s, next, io))
  {
    NotDelivered(s, next, io);
    hide DoPrepare;
  }

  predicate BetweenFiles(s: State) {
    !HasPath(s.cp) && !CopierDelivered(s.cp)
  }

  lemma NotDelivered(s: State, next: Fd, io: bool)
    requires next in s.fmap ==> s.fmap[next] in s.srcs
    ensures BetweenFiles(DoPrepare(s, next, io))
  {
    hide TryCreate, DoPrepare;
    PrepareCases(s, next, io, BetweenFiles);
  }

  lemma CopyGetDelivers(s: State, p: Path, newId: Sid)
    requires CopierBacked(s) && s.cp == CopyStatted(p) && CanGet(s, p, newId)
    ensures CopierBacked(GetOrCreate(s, p, newId, ByCopier).(cp := CopyReferenced(p, SidFor(s, p, newId))))
  {
    hide TableFree;
  }

  lemma CopyDetachDelivers(s: State, p: Path, sid: Sid)
    requires CopierBacked(s) && s.cp == CopyDetaching(p, sid) && sid in s.srcs
    ensures CopierBacked(TryRemoveDest(s, sid).(cp := CopyDropping(p, sid, true)))
  {
  }

  lemma CopyDropDelivers(s: State, sid: Sid, ok: bool)
    requires sid in s.srcs && s.srcs[sid].count > 0
    ensures var s1 := DropRef(s, sid, ByCopier);
      CopierBacked(if ok then s1.(cp := Copying) else s1.(cp := Failed, captureOn := false))
  {
  }

  lemma DisableDelivers(s: State)
    requires BackupEnabled(s, DisableOne)
    ensures CopierBacked(DoBackup(s, DisableOne))
  {
    hide TryRemoveDest;
  }

  lemma BackupKeepsCopier(s: State, b: BackupStep)
    requires CopierOk(s) && CopierBacked(s) && BackupEnabled(s, b) && ObjectsBacked(DoBackup(s, b))
    ensures CopierBacked(DoBackup(s, b))
  {
    hide TableFree, PastEnd, NoReaders, DoPrepare, DoCopyCreate, TryRemoveDest, DropRef, GetOrCreate, ObjectsBacked,
      Clean, CanGet;
    match b
    case PrepareOne(io) => PrepareDelivers(s, s.cp.next, io);
    case CopyGet(newId) => CopyGetDelivers(s, s.cp.path, newId);
    case CopyCreate(io) => CopyCreateDelivers(s, s.cp.path, s.cp.sid, s.cp.present, io);
    case CopyDetach => CopyDetachDelivers(s, s.cp.path, s.cp.sid);
    case CopyDrop => CopyDropDelivers(s, s.cp.sid, s.cp.ok);
    case DisableOne => DisableDelivers(s);
    case _ =>
  }
}
