/** Who changes what: the files, the descriptors, the descriptions, the flags and the marks change by the steps that are
    meant to change them and by no other; and what follows for whole runs. */
module SessionEffects {
  import opened Basics
  import opened Session
  import opened SessionSafety
  import opened SessionBackup
  import opened SessionDelivery
  import opened SessionTheorems
  import opened SessionArrival
  import opened SessionProgress

  // ----- the program's files and descriptors, and the descriptions -----

  predicate SameBooks(s: State, s': State) {
    s'.fs == s.fs && s'.kernelFds == s.kernelFds && s'.fmap == s.fmap && s'.linked == s.linked
  }

  lemma ObjectsKeepBooks(s: State, sid: Sid, p: Path, newId: Sid, r: Ref, io: bool)
    ensures sid in s.srcs ==> SameBooks(s, TryRemoveDest(s, sid)) && SameBooks(s, TryCreate(s, sid, io))
    ensures sid in s.srcs && s.srcs[sid].count > 0 ==> SameBooks(s, DropRef(s, sid, r))
    ensures (p in s.table ==> s.table[p] in s.srcs) ==> SameBooks(s, GetOrCreate(s, p, newId, r))
  {
    hide CreateFails;
    if sid in s.srcs {
      DropKeepsMap(s, sid, r);
    }
    hide DropRef;
  }

  lemma DropKeepsMap(s: State, sid: Sid, r: Ref)
    requires sid in s.srcs
    ensures s.srcs[sid].count > 0 ==> SameBooks(s, DropRef(s, sid, r))
  {
  }

  lemma EnterKeepsBooks(s: State, t: Tid, fd: Fd, sid: Sid, io: bool)
    requires sid in s.srcs
    ensures SameBooks(s, DoEnterOpen(s, t, fd, sid, io))
  {
  }

  lemma CreateKeepsBooks(s: State, t: Tid, sid: Sid, ok: bool, io: bool)
    requires sid in s.srcs
    ensures SameBooks(s, DoCreateOnOpen(s, t, sid, ok, io))
  {
  }

  lemma UnlinkSourceKeepsBooks(s: State, t: Tid, sid: Sid)
    requires sid in s.srcs && s.srcs[sid].count > 0
    ensures SameBooks(s, UnlinkSource(s, t, sid))
  {
  }

  lemma LeakKeepsBooks(s: State, t: Tid, sid: Sid)
    requires sid in s.srcs
    ensures SameBooks(s, LeakRef(s, t, sid)) && SameBooks(s, s.(crashed := true))
  {
  }

  lemma CaptureKeepsBooks(s: State, t: Tid, p: Path, sid: Sid, io: bool, ioUnlink: bool)
    requires sid in s.srcs && s.srcs[sid].count > 0
    ensures SameBooks(s, DoCaptureUnlink(s, t, p, sid, io, ioUnlink))
  {
    CreateKeepsCalls(s, sid, io);
    ObjectsKeepBooks(s, sid, p, 0, ByThread(t), io);
    hide ShouldCaptureUnlink, CreateFails, UnlinkSource, LeakRef, TryCreate, TryRemoveDest, DropRef, GetOrCreate;
    if !ShouldCaptureUnlink(s, p) {
      UnlinkSourceKeepsBooks(s, t, sid);
    } else if CreateFails(s, sid, io) || (s.srcs[sid].unlinked && !s.srcs[sid].dest) {
      LeakKeepsBooks(s, t, sid);
    } else {
      var s1 := TryCreate(s, sid, io);
      UnlinkSourceKeepsBooks(s1.(ioFailed := true, captureOn := false), t, sid);
      UnlinkSourceKeepsBooks(s1.(backup := s1.backup - {p}, captured := s1.captured + {p}), t, sid);
    }
  }

  /** The steps that change the books. */
  predicate Books(a: AppStep) {
    a.RealOpen? || a.RealUnlink? || a.RealClose? || a.Put? || a.Erase?
  }

  lemma RealpathKeepsBooks(s: State, t: Tid, fd: Fd, p: Path)
    ensures SameBooks(s, DoRealpath(s, t, fd, p))
  {
    assert SameBooks(s, Goto(s, t, Resolved(fd, p)));
    assert SameBooks(s, Finish(s.(captureOn := false), t));
  }

  lemma GetKeepsBooks(s: State, t: Tid, fd: Fd, p: Path, newId: Sid)
    requires CanGet(s, p, newId)
    ensures SameBooks(s, DoGetSource(s, t, fd, p, newId)) && SameBooks(s, DoUnlinkGet(s, t, p, newId))
  {
    hide TableFree;
  }

  lemma CloseKeepsBooks(s: State, t: Tid, fd: Fd, sid: Sid)
    ensures SameBooks(s, DoStartClose(s, t, fd))
    ensures sid in s.srcs ==> SameBooks(s, DoCloseDetach(s, t, fd, sid))
    ensures sid in s.srcs && s.srcs[sid].count > 0 ==> SameBooks(s, DoDrop(s, t, fd, sid))
  {
  }

  lemma AppKeepsBooks(s: State, t: Tid, a: AppStep)
    requires AppEnabled(s, t, a) && !Books(a)
    ensures SameBooks(s, DoApp(s, t, a))
  {
    hide Settled, TableFree, CanGet, DoRealpath, DoGetSource, DoEnterOpen, DoCreateOnOpen, DoStartClose, DoCloseDetach,
      DoDrop, DoUnlinkGet, DoCaptureUnlink;
    match a
    case Realpath => RealpathKeepsBooks(s, t, s.threads[t].fd, s.threads[t].path);
    case GetSource(newId) => GetKeepsBooks(s, t, s.threads[t].fd, s.threads[t].path, newId);
    case EnterOpen(io) => EnterKeepsBooks(s, t, s.threads[t].fd, s.threads[t].sid, io);
    case CreateOnOpen(io) => CreateKeepsBooks(s, t, s.threads[t].sid, s.threads[t].ok, io);
    case StartClose(fd) => CloseKeepsBooks(s, t, fd, 0);
    case CloseDetach => CloseKeepsBooks(s, t, s.threads[t].fd, s.threads[t].sid);
    case Drop => CloseKeepsBooks(s, t, s.threads[t].fd, s.threads[t].sid);
    case StartUnlink(_) =>
    case UnlinkGet(newId) => GetKeepsBooks(s, t, 0, s.threads[t].path, newId);
    case CaptureUnlink(io, ioUnlink) => CaptureKeepsBooks(s, t, s.threads[t].path, s.threads[t].sid, io, ioUnlink);
  }

  lemma CreatedKeepsBooks(s: State, sid: Sid, io: bool, cp: BackupPc)
    requires sid in s.srcs
    ensures SameBooks(s, TryCreate(s, sid, io).(cp := cp))
  {
  }

  lemma PrepareKeepsBooks(s: State, next: Fd, io: bool)
    requires next in s.fmap ==> s.fmap[next] in s.srcs
    ensures SameBooks(s, DoPrepare(s, next, io))
  {
    if next in s.fmap {
      CreatedKeepsBooks(s, s.fmap[next], true, Preparing(next + 1));
    }
    assert SameBooks(s, s.(cp := Preparing(next + 1)));
    assert SameBooks(s, s.(cp := Copying, captureOn := true, aborted := true));
    assert SameBooks(s, s.(cp := Failed, ioFailed := true, prepareFailed := true, captureOn := false));
    hide TryCreate, DoPrepare, SameBooks;
    PrepareCases(s, next, io, x => SameBooks(s, x));
  }

  lemma CopyCreateKeepsBooks(s: State, p: Path, sid: Sid, present: bool, io: bool)
    requires sid in s.srcs
    ensures SameBooks(s, DoCopyCreate(s, p, sid, present, io))
  {
    CreatedKeepsBooks(s, sid, io, CopyData(p, sid));
    CreatedKeepsBooks(s, sid, io, CopyDetaching(p, sid));
    assert SameBooks(s, s.(cp := CopyDetaching(p, sid)));
    assert SameBooks(s, s.(ioFailed := true, cp := CopyDropping(p, sid, false)));
    hide TryCreate, CreateFails, DoCopyCreate, SameBooks;
    CopyCreateCases(s, p, sid, present, io, x => SameBooks(s, x));
  }

  lemma BackupKeepsBooks(s: State, b: BackupStep)
    requires BackupEnabled(s, b)
    ensures SameBooks(s, DoBackup(s, b))
  {
    hide TableFree, NoReaders, PastEnd, DoPrepare, DoCopyCreate, TryRemoveDest, TryCreate, DropRef, GetOrCreate;
    match b
    case PrepareOne(io) => PrepareKeepsBooks(s, s.cp.next, io);
    case CopyGet(newId) => ObjectsKeepBooks(s, 0, s.cp.path, newId, ByCopier, true);
    case CopyCreate(io) => CopyCreateKeepsBooks(s, s.cp.path, s.cp.sid, s.cp.present, io);
    case CopyDetach => ObjectsKeepBooks(s, s.cp.sid, "", 0, ByCopier, true);
    case CopyDrop => ObjectsKeepBooks(s, s.cp.sid, "", 0, ByCopier, true);
    case DisableOne =>
      if s.cp.next in s.fmap {
        ObjectsKeepBooks(s, s.fmap[s.cp.next], "", 0, ByCopier, true);
      }
    case _ =>
  }

  /** Thread `t` is at this point of its call. */
  predicate Stands(s: State, t: Tid, pc: Pc) {
    t in s.threads && s.threads[t] == pc
  }

  lemma StepKeepsBooks(s: State, step: Step)
    requires Enabled(s, step) && (step.App? ==> !Books(step.a))
    ensures SameBooks(s, Do(s, step))
  {
    match step
    case App(t, a) => AppKeepsBooks(s, t, a);
    case Backup(b) => BackupKeepsBooks(s, b);
  }

  lemma OpenBooks(s: State, t: Tid, fd: Fd, p: Path, creat: bool)
    ensures var s' := DoRealOpen(s, t, fd, p, creat);
      && s'.fs == (if creat then s.fs + {p} else s.fs) && s'.kernelFds == s.kernelFds + {fd} && s'.fmap == s.fmap
      && s'.linked == s.linked[fd := p]
  {
  }

  lemma UnlinkBooks(s: State, t: Tid, p: Path, ok: bool)
    ensures var s' := DoRealUnlink(s, t, p, ok);
      && s'.fs == (if ok then s.fs - {p} else s.fs) && s'.kernelFds == s.kernelFds && s'.fmap == s.fmap
      && (forall fd :: fd in s'.linked ==> fd in s.linked && s'.linked[fd] == s.linked[fd])
  {
  }

  lemma CloseBooks(s: State, t: Tid, fd: Fd)
    ensures var s' := DoRealClose(s, t, fd);
      s'.fs == s.fs && s'.kernelFds == s.kernelFds - {fd} && s'.fmap == s.fmap && s'.linked == s.linked - {fd}
  {
  }

  lemma MapBooks(s: State, t: Tid, fd: Fd, sid: Sid)
    requires sid in s.srcs
    ensures DoPut(s, t, fd, sid).fmap == s.fmap[fd := sid] && DoErase(s, t, fd, sid).fmap == s.fmap - {fd}
    ensures SameBooks(s, DoPut(s, t, fd, sid).(fmap := s.fmap)) && SameBooks(s, DoErase(s, t, fd, sid).(fmap := s.fmap))
  {
  }

  /** What the steps do that change the books. */
  lemma BookSteps(s: State, t: Tid, a: AppStep)
    requires AppEnabled(s, t, a) && Books(a)
    ensures var s' := DoApp(s, t, a);
      && s'.fs == (if a.RealOpen? && a.creat then s.fs + {a.path}
                   else if a == RealUnlink(true) then s.fs - {s.threads[t].path} else s.fs)
      && s'.kernelFds == (if a.RealOpen? then s.kernelFds + {a.fd}
                          else if a.RealClose? then s.kernelFds - {s.threads[t].fd} else s.kernelFds)
      && s'.fmap == (if a.Put? then s.fmap[s.threads[t].fd := s.threads[t].sid]
                     else if a.Erase? then s.fmap - {s.threads[t].fd} else s.fmap)
      && (if a.RealOpen? then s'.linked == s.linked[a.fd := a.path]
          else (forall fd :: fd in s'.linked ==> fd in s.linked && s'.linked[fd] == s.linked[fd])
               && (a.RealClose? ==> s.threads[t].fd !in s'.linked))
  {
    hide Settled, DoRealOpen, DoRealUnlink, DoRealClose, DoPut, DoErase;
    match a
    case RealOpen(fd, p, creat) => OpenBooks(s, t, fd, p, creat);
    case RealUnlink(ok) => UnlinkBooks(s, t, s.threads[t].path, ok);
    case RealClose => CloseBooks(s, t, s.threads[t].fd);
    case Put => MapBooks(s, t, s.threads[t].fd, s.threads[t].sid);
    case Erase => MapBooks(s, t, s.threads[t].fd, s.threads[t].sid);
  }

  lemma AllSteps(s: State, step: Step)
    requires Enabled(s, step)
    ensures step.App? && Books(step.a) ==> AppEnabled(s, step.t, step.a)
    ensures !(step.App? && Books(step.a)) ==> SameBooks(s, Do(s, step))
  {
    hide AppEnabled, BackupEnabled, DoApp, DoBackup;
    if !(step.App? && Books(step.a)) {
      StepKeepsBooks(s, step);
    }
  }

  /** A file comes by a creating open, and goes by an unlink that works. */
  lemma FilesChangeBy(s: State, step: Step, p: Path)
    requires Enabled(s, step)
    ensures p in Do(s, step).fs <==>
      || (step.App? && step.a.RealOpen? && step.a.creat && step.a.path == p)
      || (p in s.fs && !(step.App? && step.a == RealUnlink(true) && Stands(s, step.t, Unlinking(p))))
  {
    AllSteps(s, step);
    hide DoApp, DoBackup, Settled, WriterIn;
    if step.App? && Books(step.a) {
      BookSteps(s, step.t, step.a);
    }
  }

  /** A descriptor is open from the real open to the real close. */
  lemma DescriptorsChangeBy(s: State, step: Step, fd: Fd)
    requires Enabled(s, step)
    ensures fd in Do(s, step).kernelFds <==>
      || (step.App? && step.a.RealOpen? && step.a.fd == fd)
      || (fd in s.kernelFds && !(step.App? && step.a == RealClose && Stands(s, step.t, RealClosing(fd))))
  {
    AllSteps(s, step);
    hide DoApp, DoBackup, Settled, WriterIn;
    if step.App? && Books(step.a) {
      BookSteps(s, step.t, step.a);
    }
  }

  /** A description points at an object from the put of an open() to the erase of a close(). */
  lemma DescriptionsChangeBy(s: State, step: Step, fd: Fd, sid: Sid)
    requires Enabled(s, step)
    ensures MappedTo(Do(s, step), fd, sid) <==>
      || (step.App? && step.a == Put && Stands(s, step.t, Referenced(fd, sid)))
      || (MappedTo(s, fd, sid)
          && !(step.App? && (step.a.Put? || step.a.Erase?) && s.threads[step.t].fd == fd))
  {
    AllSteps(s, step);
    hide DoApp, DoBackup, Settled, WriterIn;
    if step.App? && Books(step.a) {
      BookSteps(s, step.t, step.a);
    }
  }

  // ----- every descriptor is tracked -----

  ghost predicate Tracked(s: State, fd: Fd) {
    fd in s.fmap || exists t :: t in s.threads && OwnsFd(s.threads[t], fd)
  }

  /** A descriptor of a file that still has its name has a description, or a call is about to make or take it. */
  ghost predicate AllTracked(s: State) {
    forall fd :: fd in s.linked ==> Tracked(s, fd)
  }

  /** A linked file is there for realpath. */
  lemma RealpathFinds(s: State, t: Tid)
    requires Inv(s) && t in s.threads && s.threads[t].Opening? && s.threads[t].fd in s.linked
    ensures s.threads[t].path in s.fs
  {
    OwnPc(s, t);
    assert GoneOk(s);
  }

  lemma OpenOwns(s: State, t: Tid, a: AppStep, fd: Fd)
    requires Inv(s) && AppEnabled(s, t, a) && t in s.threads && OwnsFd(s.threads[t], fd) && fd in s.linked
    requires a.Realpath? || a.GetSource?
    ensures t in DoApp(s, t, a).threads && OwnsFd(DoApp(s, t, a).threads[t], fd)
  {
    if a.Realpath? {
      RealpathFinds(s, t);
    }
    hide Inv, Settled, TableFree, CanGet, GetOrCreate;
  }

  lemma CloseOwns(s: State, t: Tid, a: AppStep, fd: Fd)
    requires AppEnabled(s, t, a) && t in s.threads && OwnsFd(s.threads[t], fd) && (a.Erase? || a.Drop?)
    ensures t in DoApp(s, t, a).threads && OwnsFd(DoApp(s, t, a).threads[t], fd)
  {
    hide Settled, TableFree, MoveRef, DropRef;
  }

  lemma MappedAlready(s: State, t: Tid)
    requires Inv(s) && t in s.threads
    requires var pc := s.threads[t]; pc.Mapped? || pc.Creating? || pc.Closing?
    ensures s.threads[t].fd in s.fmap
  {
    OwnPc(s, t);
  }

  /** The call itself keeps its descriptor tracked. */
  lemma OwnStaysTracked(s: State, t: Tid, a: AppStep, fd: Fd)
    requires Inv(s) && AppEnabled(s, t, a) && t in s.threads && OwnsFd(s.threads[t], fd) && fd in s.linked
    ensures fd in DoApp(s, t, a).linked ==> Tracked(DoApp(s, t, a), fd)
  {
    if a.Realpath? || a.GetSource? {
      OpenOwns(s, t, a, fd);
    } else if a.Erase? || a.Drop? {
      CloseOwns(s, t, a, fd);
    } else if Books(a) {
      BookSteps(s, t, a);
      hide Inv, DoApp, Settled;
    } else {
      assert a.EnterOpen? || a.CreateOnOpen? || a.CloseDetach? by {
        hide Inv, Settled, TableFree;
      }
      MappedAlready(s, t) by {
        hide Inv, Settled, TableFree;
      }
      AppKeepsBooks(s, t, a);
      hide Inv, DoApp, Settled, TableFree;
    }
  }

  /** What a call does to the others' descriptors and threads. */
  lemma OthersStayTracked(s: State, t: Tid, a: AppStep, fd: Fd)
    requires Inv(s) && AppEnabled(s, t, a) && Tracked(s, fd)
    requires t in s.threads ==> !OwnsFd(s.threads[t], fd)
    ensures Tracked(DoApp(s, t, a), fd)
  {
    hide Inv, Settled, TableFree, DoApp;
    var s' := DoApp(s, t, a);
    OtherThreads(s, t, a);
    forall u: Tid | u != t
      ensures (u in s'.threads <==> u in s.threads) && (u in s.threads ==> s'.threads[u] == s.threads[u])
    {
      OtherThread(s, s', t, u);
    }
    hide SameOtherThreads;
    if fd in s.fmap {
      if Books(a) {
        BookSteps(s, t, a);
      } else {
        AppKeepsBooks(s, t, a);
      }
    }
  }

  lemma BeginThreads(s: State, t: Tid, fd: Fd, p: Path, creat: bool)
    ensures DoRealOpen(s, t, fd, p, creat).threads == s.threads[t := Opening(fd, p)]
    ensures DoStartClose(s, t, fd).threads
         == s.threads[t := if fd in s.fmap then Closing(fd, s.fmap[fd]) else RealClosing(fd)]
  {
  }

  predicate SameOtherThreads(s: State, s': State, t: Tid) {
    s'.threads - {t} == s.threads - {t}
  }

  lemma BeginKeepsOthers(s: State, t: Tid, a: AppStep)
    requires AppEnabled(s, t, a) && Begins(App(t, a))
    ensures SameOtherThreads(s, DoApp(s, t, a), t)
  {
    hide Settled, WriterIn, DoRealOpen, DoStartClose;
    match a
    case RealOpen(fd, p, creat) => BeginThreads(s, t, fd, p, creat);
    case StartClose(fd) => BeginThreads(s, t, fd, "", false);
    case StartUnlink(_) =>
  }

  lemma OtherThreads(s: State, t: Tid, a: AppStep)
    requires AppEnabled(s, t, a)
    ensures SameOtherThreads(s, DoApp(s, t, a), t)
  {
    hide AppEnabled, DoApp, Begins;
    if Begins(App(t, a)) {
      BeginKeepsOthers(s, t, a);
    } else {
      CallAdvances(s, t, a);
    }
  }

  lemma OtherThread(s: State, s': State, t: Tid, u: Tid)
    requires SameOtherThreads(s, s', t) && u != t
    ensures u in s'.threads <==> u in s.threads
    ensures u in s.threads ==> s'.threads[u] == s.threads[u]
  {
    assert u in s'.threads - {t} <==> u in s.threads - {t};
    assert u in s.threads ==> (s'.threads - {t})[u] == (s.threads - {t})[u];
  }

  lemma OpenIsTracked(s: State, t: Tid, fd: Fd, p: Path, creat: bool)
    ensures Tracked(DoRealOpen(s, t, fd, p, creat), fd)
  {
    BeginThreads(s, t, fd, p, creat);
    hide DoRealOpen;
    assert OwnsFd(s.threads[t := Opening(fd, p)][t], fd);
  }

  lemma LinkedBefore(s: State, t: Tid, a: AppStep, fd: Fd)
    requires AppEnabled(s, t, a) && fd in DoApp(s, t, a).linked && !(a.RealOpen? && a.fd == fd)
    ensures fd in s.linked
  {
    if Books(a) {
      BookSteps(s, t, a);
    } else {
      AppKeepsBooks(s, t, a);
    }
    hide AppEnabled, DoApp;
  }

  lemma StepKeepsTracked(s: State, step: Step)
    requires Inv(s) && AllTracked(s) && Enabled(s, step)
    ensures AllTracked(Do(s, step))
  {
    match step
    case App(t, a) =>
      hide Inv, AppEnabled, Tracked;
      forall fd | fd in DoApp(s, t, a).linked
        ensures Tracked(DoApp(s, t, a), fd)
      {
        if a.RealOpen? && a.fd == fd {
          OpenIsTracked(s, t, a.fd, a.path, a.creat);
        } else {
          LinkedBefore(s, t, a, fd);
          hide DoApp;
          if t in s.threads && OwnsFd(s.threads[t], fd) {
            OwnStaysTracked(s, t, a, fd);
          } else {
            OthersStayTracked(s, t, a, fd);
          }
        }
      }
    case Backup(b) =>
      BackupKeepsBooks(s, b);
      BackupKeepsThreads(s, b);
      hide Inv, BackupEnabled, DoBackup;
      assert forall fd :: Tracked(s, fd) ==> Tracked(DoBackup(s, b), fd);
  }

  lemma BackupKeepsThreads(s: State, b: BackupStep)
    requires BackupEnabled(s, b)
    ensures DoBackup(s, b).threads == s.threads
  {
    if !b.CopyPick? {
      var m := Bounded(s.fmap.Keys);
      BackupAdvances(s, b, m);
    }
    hide PastEnd, TableFree, NoReaders, DoPrepare, DoCopyCreate, TryRemoveDest, TryCreate, DropRef, GetOrCreate;
  }

  lemma {:induction false} RunKeepsTracked(s: State, steps: seq<Step>, t: State)
    requires Inv(s) && AllTracked(s) && Reaches(s, steps, t)
    ensures AllTracked(t)
    decreases |steps|
  {
    hide Inv, AllTracked, Enabled, Do;
    if steps != [] {
      StepKeepsInv(s, steps[0]);
      StepKeepsTracked(s, steps[0]);
      RunKeepsTracked(Do(s, steps[0]), steps[1..], t);
    }
  }

  lemma ReachableTracked(s: State)
    requires Reachable(s)
    ensures AllTracked(s)
  {
    var s0, steps :| Init(s0) && Reaches(s0, steps, s);
    InitKeepsInv(s0);
    assert AllTracked(s0);
    hide Inv, AllTracked, Init;
    RunKeepsTracked(s0, steps, s);
  }

  /** No open() is missed: once no call works on a descriptor any more, and its file still has its name, there is a
      description that leads to the object of that name; and only open descriptors have one. */
  lemma EveryOpenIsTracked(s: State, fd: Fd)
    requires Reachable(s)
    ensures fd in s.linked && Settled(s, fd) ==>
      fd in s.fmap && s.fmap[fd] in s.srcs && s.srcs[s.fmap[fd]].name == s.linked[fd] && s.linked[fd] in s.table
        && s.table[s.linked[fd]] == s.fmap[fd]
    ensures fd in s.fmap ==> fd in s.kernelFds
  {
    ReachableInv(s);
    ReachableTracked(s);
    if fd in s.linked && Settled(s, fd) {
      assert Tracked(s, fd);
    }
    if fd in s.fmap {
      assert FdOk(s, fd, s.fmap[fd]);
      assert SrcOk(s, s.fmap[fd]);
    }
    hide Settled;
  }

  /** Coverage from the program's side: while files are copied, every file that it has open, no call working on the
      descriptor, and that still has its name, in the source and not excluded, is in the backup, with a destination to
      mirror to; unless its object is marked, or creating this very destination failed. */
  lemma OpenFilesAreCovered(s: State, fd: Fd)
    requires Reachable(s) && Copied(s.cp) && !s.aborted && fd in s.linked && Settled(s, fd)
    requires s.linked[fd] in s.cfg.inSource && s.linked[fd] !in s.cfg.backupExcluded
    ensures s.linked[fd] in s.table && s.table[s.linked[fd]] in s.srcs
    ensures var src := s.srcs[s.table[s.linked[fd]]];
      !src.unlinked && !src.failed ==> src.dest && s.linked[fd] in s.backup && s.linked[fd] in s.fs
  {
    hide Reachable, Settled;
    EveryOpenIsTracked(s, fd);
    CaptureCoverage(s, fd);
  }

  // ----- capture, and the session -----

  predicate SameFlags(s: State, s': State) {
    s'.captureOn == s.captureOn && s'.session == s.session && s'.backup == s.backup && s'.cfg == s.cfg
  }

  lemma ObjectsKeepFlags(s: State, sid: Sid, p: Path, newId: Sid)
    ensures sid in s.srcs ==> SameFlags(s, TryRemoveDest(s, sid))
    ensures sid in s.srcs && s.srcs[sid].count > 0 ==> SameFlags(s, DropRef(s, sid, ByCopier))
    ensures (p in s.table ==> s.table[p] in s.srcs) ==> SameFlags(s, GetOrCreate(s, p, newId, ByCopier))
  {
    if sid in s.srcs {
      DropKeepsBackup(s, sid);
    }
    hide DropRef;
  }

  lemma DropKeepsBackup(s: State, sid: Sid)
    requires sid in s.srcs
    ensures s.srcs[sid].count > 0 ==> SameFlags(s, DropRef(s, sid, ByCopier))
  {
  }

  lemma OpenKeepsFlags(s: State, t: Tid, fd: Fd, p: Path, flag: bool)
    ensures SameFlags(s, DoRealOpen(s, t, fd, p, flag)) && SameFlags(s, DoRealUnlink(s, t, p, flag))
    ensures SameFlags(s, DoRealClose(s, t, fd)) && SameFlags(s, DoStartClose(s, t, fd))
  {
  }

  lemma GetKeepsFlags(s: State, t: Tid, fd: Fd, p: Path, newId: Sid)
    requires CanGet(s, p, newId)
    ensures SameFlags(s, DoGetSource(s, t, fd, p, newId)) && SameFlags(s, DoUnlinkGet(s, t, p, newId))
  {
    hide TableFree;
  }

  lemma MapKeepsFlags(s: State, t: Tid, fd: Fd, sid: Sid)
    requires sid in s.srcs
    ensures SameFlags(s, DoPut(s, t, fd, sid)) && SameFlags(s, DoErase(s, t, fd, sid))
    ensures SameFlags(s, DoCloseDetach(s, t, fd, sid))
  {
  }

  lemma DropKeepsFlags(s: State, t: Tid, fd: Fd, sid: Sid)
    requires sid in s.srcs && s.srcs[sid].count > 0
    ensures SameFlags(s, DoDrop(s, t, fd, sid))
  {
  }

  lemma UnlinkSourceKeepsFlags(s: State, t: Tid, sid: Sid)
    requires sid in s.srcs && s.srcs[sid].count > 0
    ensures SameFlags(s, UnlinkSource(s, t, sid))
  {
  }

  lemma LeakKeepsFlags(s: State, t: Tid, sid: Sid)
    requires sid in s.srcs
    ensures SameFlags(s, LeakRef(s, t, sid)) && SameFlags(s, s.(crashed := true))
  {
  }

  lemma EnterKeepsFlags(s: State, t: Tid, fd: Fd, sid: Sid, io: bool)
    requires sid in s.srcs
    ensures SameFlags(s, DoEnterOpen(s, t, fd, sid, io))
  {
  }

  /** The steps of calls that can change the flags or the backup. */
  predicate Flags(a: AppStep) {
    a.Realpath? || a.CreateOnOpen? || a.CaptureUnlink?
  }

  lemma AppKeepsFlags(s: State, t: Tid, a: AppStep)
    requires AppEnabled(s, t, a) && !Flags(a)
    ensures SameFlags(s, DoApp(s, t, a))
  {
    hide Settled, TableFree, CanGet, DoRealOpen, DoRealUnlink, DoRealClose, DoGetSource, DoEnterOpen, DoPut, DoErase,
      DoStartClose, DoCloseDetach, DoDrop, DoUnlinkGet;
    match a
    case RealOpen(fd, p, creat) => OpenKeepsFlags(s, t, fd, p, creat);
    case GetSource(newId) => GetKeepsFlags(s, t, s.threads[t].fd, s.threads[t].path, newId);
    case Put => MapKeepsFlags(s, t, s.threads[t].fd, s.threads[t].sid);
    case EnterOpen(io) => EnterKeepsFlags(s, t, s.threads[t].fd, s.threads[t].sid, io);
    case StartClose(fd) => OpenKeepsFlags(s, t, fd, "", true);
    case CloseDetach => MapKeepsFlags(s, t, s.threads[t].fd, s.threads[t].sid);
    case Erase => MapKeepsFlags(s, t, s.threads[t].fd, s.threads[t].sid);
    case Drop => DropKeepsFlags(s, t, s.threads[t].fd, s.threads[t].sid);
    case RealClose => OpenKeepsFlags(s, t, s.threads[t].fd, "", true);
    case StartUnlink(_) =>
    case RealUnlink(ok) => OpenKeepsFlags(s, t, 0, s.threads[t].path, ok);
    case UnlinkGet(newId) => GetKeepsFlags(s, t, 0, s.threads[t].path, newId);
  }

  /** The destination of the object would have to be made. */
  predicate Needs(s: State, sid: Sid)
    requires sid in s.srcs
  {
    !s.srcs[sid].unlinked && !s.srcs[sid].dest
  }

  /** realpath does not find the file that was opened. */
  predicate Missing(s: State, step: Step) {
    step.App? && step.a.Realpath? && step.t in s.threads && s.threads[step.t].Opening?
    && s.threads[step.t].path !in s.fs
  }

  /** The backup file cannot be opened for a captured open. */
  predicate OpenFails(s: State, step: Step) {
    step.App? && step.a == CreateOnOpen(false) && step.t in s.threads && s.threads[step.t].Creating?
    && s.threads[step.t].ok && s.threads[step.t].sid in s.srcs && Needs(s, s.threads[step.t].sid)
  }

  /** A captured unlink has the backup file, and cannot unlink it. */
  predicate UnlinkFails(s: State, step: Step) {
    step.App? && step.a.CaptureUnlink? && !step.a.ioUnlink && step.t in s.threads
    && s.threads[step.t].UnlinkReferenced? && ShouldCaptureUnlink(s, s.threads[step.t].path)
    && s.threads[step.t].sid in s.srcs
    && (s.srcs[s.threads[step.t].sid].dest || (Needs(s, s.threads[step.t].sid) && step.a.io))
  }

  /** Prepare meets an open file that it has to make a destination for, or an excluded one. */
  predicate Meets(s: State, step: Step, excluded: bool) {
    step.Backup? && step.b.PrepareOne? && s.cp.Preparing? && s.cp.next in s.fmap && s.fmap[s.cp.next] in s.srcs
    && var p := s.srcs[s.fmap[s.cp.next]].name;
       p in s.cfg.inSource && (excluded <==> p in s.cfg.backupExcluded)
  }

  lemma RealpathFlags(s: State, t: Tid, fd: Fd, p: Path)
    ensures DoRealpath(s, t, fd, p).captureOn == (s.captureOn && p in s.fs)
    ensures SameFlags(s, DoRealpath(s, t, fd, p).(captureOn := s.captureOn))
  {
    assert p in s.fs ==> DoRealpath(s, t, fd, p) == Goto(s, t, Resolved(fd, p));
    assert p !in s.fs ==> DoRealpath(s, t, fd, p) == Finish(s.(captureOn := false), t);
  }

  lemma CreateFlags(s: State, t: Tid, sid: Sid, ok: bool, io: bool)
    requires sid in s.srcs
    ensures var s' := DoCreateOnOpen(s, t, sid, ok, io);
      && s'.captureOn == (s.captureOn && !(ok && Needs(s, sid) && !io)) && s'.session == s.session && s'.cfg == s.cfg
      && s'.backup == if ok && Needs(s, sid) && io then s.backup + {s.srcs[sid].name} else s.backup
  {
    if !ok {
      assert DoCreateOnOpen(s, t, sid, ok, io) == Finish(s, t);
    }
  }

  lemma TryCreateFlags(s: State, sid: Sid, io: bool)
    requires sid in s.srcs
    ensures var s1 := TryCreate(s, sid, io);
      && SameFlags(s, s1.(backup := s.backup)) && sid in s1.srcs && s1.srcs[sid].count == s.srcs[sid].count
      && s1.backup == (if Needs(s, sid) && io then s.backup + {s.srcs[sid].name} else s.backup)
      && CreateFails(s, sid, io) == (Needs(s, sid) && !io)
  {
  }

  lemma CaptureFlags(s: State, t: Tid, p: Path, sid: Sid, io: bool, ioUnlink: bool)
    requires sid in s.srcs && s.srcs[sid].count > 0
    ensures var s' := DoCaptureUnlink(s, t, p, sid, io, ioUnlink);
      var has := s.srcs[sid].dest || (Needs(s, sid) && io);
      var made := if Needs(s, sid) && io then s.backup + {s.srcs[sid].name} else s.backup;
      && s'.session == s.session && s'.cfg == s.cfg
      && s'.captureOn == (s.captureOn && !(ShouldCaptureUnlink(s, p) && has && !ioUnlink))
      && s'.backup == if ShouldCaptureUnlink(s, p) && has then if ioUnlink then made - {p} else made else s.backup
  {
    TryCreateFlags(s, sid, io);
    hide UnlinkSource, LeakRef, TryCreate, CreateFails, ShouldCaptureUnlink;
    var s', s1 := DoCaptureUnlink(s, t, p, sid, io, ioUnlink), TryCreate(s, sid, io);
    if !ShouldCaptureUnlink(s, p) {
      UnlinkSourceKeepsFlags(s, t, sid);
    } else if CreateFails(s, sid, io) || (s.srcs[sid].unlinked && !s.srcs[sid].dest) {
      LeakKeepsFlags(s, t, sid);
    } else if !ioUnlink {
      UnlinkSourceKeepsFlags(s1.(ioFailed := true, captureOn := false), t, sid);
    } else {
      UnlinkSourceKeepsFlags(s1.(backup := s1.backup - {p}, captured := s1.captured + {p}), t, sid);
    }
  }

  // ----- the backup thread -----

  lemma CpKeepsFlags(s: State, cp: BackupPc)
    ensures SameFlags(s, s.(cp := cp))
  {
  }

  lemma CreatedFlags(s: State, sid: Sid, io: bool, cp: BackupPc)
    requires sid in s.srcs
    ensures var s' := TryCreate(s, sid, io).(cp := cp);
      && s'.captureOn == s.captureOn && s'.session == s.session && s'.cfg == s.cfg
      && s'.backup == if Needs(s, sid) && io then s.backup + {s.srcs[sid].name} else s.backup
  {
    TryCreateFlags(s, sid, io);
    hide TryCreate, Needs;
  }

  /** What prepare does to the flags and the backup, and how it goes on. */
  predicate PreparesTo(s: State, s': State, next: Fd, io: bool)
    requires next in s.fmap ==> s.fmap[next] in s.srcs
  {
    if next !in s.fmap || s.srcs[s.fmap[next]].name !in s.cfg.inSource then
      SameFlags(s, s') && s'.cp == Preparing(next + 1)
    else if s.srcs[s.fmap[next]].name in s.cfg.backupExcluded then
      s'.captureOn && s'.session == s.session && s'.backup == s.backup && s'.cfg == s.cfg && s'.cp == Copying
    else
      && s'.session == s.session && s'.cfg == s.cfg && s'.captureOn == (s.captureOn && io)
      && s'.cp == (if io then Preparing(next + 1) else Failed)
      && s'.backup == if Needs(s, s.fmap[next]) && io then s.backup + {s.srcs[s.fmap[next]].name} else s.backup
  }

  lemma StopFlags(s: State)
    ensures var s' := s.(cp := Copying, captureOn := true, aborted := true);
      s'.captureOn && s'.session == s.session && s'.backup == s.backup && s'.cfg == s.cfg
    ensures var s' := s.(cp := Failed, ioFailed := true, prepareFailed := true, captureOn := false);
      !s'.captureOn && s'.session == s.session && s'.backup == s.backup && s'.cfg == s.cfg
  {
  }

  lemma PrepareSkips(s: State, next: Fd, io: bool)
    requires next in s.fmap ==> s.fmap[next] in s.srcs && s.srcs[s.fmap[next]].name !in s.cfg.inSource
    ensures PreparesTo(s, DoPrepare(s, next, io), next, io)
  {
    assert DoPrepare(s, next, io) == s.(cp := Preparing(next + 1));
    CpKeepsFlags(s, Preparing(next + 1));
    hide DoPrepare, SameFlags;
  }

  lemma PrepareStops(s: State, next: Fd, io: bool)
    requires next in s.fmap && s.fmap[next] in s.srcs && s.srcs[s.fmap[next]].name in s.cfg.inSource
    requires s.srcs[s.fmap[next]].name in s.cfg.backupExcluded || !io
    ensures PreparesTo(s, DoPrepare(s, next, io), next, io)
  {
    StopFlags(s);
  }

  lemma PrepareCreates(s: State, next: Fd)
    requires next in s.fmap && s.fmap[next] in s.srcs && s.srcs[s.fmap[next]].name in s.cfg.inSource
    requires s.srcs[s.fmap[next]].name !in s.cfg.backupExcluded
    ensures PreparesTo(s, DoPrepare(s, next, true), next, true)
  {
    CreatedFlags(s, s.fmap[next], true, Preparing(next + 1));
    hide TryCreate, Needs;
    assert DoPrepare(s, next, true) == TryCreate(s, s.fmap[next], true).(cp := Preparing(next + 1));
    hide DoPrepare;
  }

  lemma PrepareFlags(s: State, next: Fd, io: bool)
    requires next in s.fmap ==> s.fmap[next] in s.srcs
    ensures PreparesTo(s, DoPrepare(s, next, io), next, io)
  {
    hide DoPrepare, PreparesTo;
    if next !in s.fmap || s.srcs[s.fmap[next]].name !in s.cfg.inSource {
      PrepareSkips(s, next, io);
    } else if s.srcs[s.fmap[next]].name in s.cfg.backupExcluded || !io {
      PrepareStops(s, next, io);
    } else {
      PrepareCreates(s, next);
    }
  }

  lemma CopyCreatePaths(s: State, p: Path, sid: Sid, present: bool, io: bool)
    requires sid in s.srcs
    ensures var s' := DoCopyCreate(s, p, sid, present, io);
      if !present then s' == s.(cp := CopyDetaching(p, sid))
      else if CreateFails(s, sid, io) then s' == s.(ioFailed := true, cp := CopyDropping(p, sid, false))
      else s' == TryCreate(s, sid, io).(cp := s'.cp)
  {
    hide TryCreate, CreateFails;
  }

  lemma CreationFlags(s: State, p: Path, sid: Sid, io: bool)
    requires sid in s.srcs && !CreateFails(s, sid, io)
    ensures var s' := DoCopyCreate(s, p, sid, true, io);
      && s'.captureOn == s.captureOn && s'.session == s.session && s'.cfg == s.cfg
      && s'.backup == if Needs(s, sid) && io then s.backup + {s.srcs[sid].name} else s.backup
  {
    CopyCreatePaths(s, p, sid, true, io);
    CreatedFlags(s, sid, io, DoCopyCreate(s, p, sid, true, io).cp);
    hide DoCopyCreate, TryCreate, Needs, CreateFails;
  }

  lemma NoCreationFlags(s: State, p: Path, sid: Sid, present: bool, io: bool)
    requires sid in s.srcs && (!present || CreateFails(s, sid, io))
    ensures var s' := DoCopyCreate(s, p, sid, present, io);
      s'.captureOn == s.captureOn && s'.session == s.session && s'.cfg == s.cfg && s'.backup == s.backup
  {
    CopyCreatePaths(s, p, sid, present, io);
    hide DoCopyCreate, TryCreate, CreateFails;
  }

  lemma CopyCreateFlags(s: State, p: Path, sid: Sid, present: bool, io: bool)
    requires sid in s.srcs
    ensures var s' := DoCopyCreate(s, p, sid, present, io);
      && s'.captureOn == s.captureOn && s'.session == s.session && s'.cfg == s.cfg
      && s'.backup == if present && Needs(s, sid) && io then s.backup + {s.srcs[sid].name} else s.backup
  {
    hide DoCopyCreate, TryCreate, Needs, CreateFails;
    TryCreateFlags(s, sid, io);
    if present && !CreateFails(s, sid, io) {
      CreationFlags(s, p, sid, io);
    } else {
      NoCreationFlags(s, p, sid, present, io);
    }
  }

  // ----- all steps together -----

  /** The step makes the backup file of the object: prepare, a captured open, the copier, and a captured unlink, which
      removes it at once if it can. */
  predicate Makes(s: State, step: Step, sid: Sid) {
    && sid in s.srcs && Needs(s, sid)
    && match step
       case App(t, a) =>
         t in s.threads &&
         (if a.CreateOnOpen? then a.io && s.threads[t].Creating? && s.threads[t].ok && s.threads[t].sid == sid
          else a.CaptureUnlink? && a.io && !a.ioUnlink && s.threads[t].UnlinkReferenced? && s.threads[t].sid == sid
               && ShouldCaptureUnlink(s, s.threads[t].path))
       case Backup(b) =>
         if b.PrepareOne? then b.io && Meets(s, step, false) && s.fmap[s.cp.next] == sid
         else b.CopyCreate? && b.io && s.cp.CopyCreating? && s.cp.present && s.cp.sid == sid
  }

  lemma CpAfter(s: State, s1: State, cp: BackupPc)
    requires SameFlags(s, s1)
    ensures SameFlags(s, s1.(cp := cp))
  {
  }

  lemma ObjectStepFlags(s: State, sid: Sid, p: Path, newId: Sid, cp: BackupPc)
    ensures sid in s.srcs ==> SameFlags(s, TryRemoveDest(s, sid).(cp := cp))
    ensures (p in s.table ==> s.table[p] in s.srcs) ==> SameFlags(s, GetOrCreate(s, p, newId, ByCopier).(cp := cp))
  {
    hide SameFlags, TryRemoveDest, GetOrCreate;
    ObjectsKeepFlags(s, sid, p, newId);
    if sid in s.srcs {
      CpAfter(s, TryRemoveDest(s, sid), cp);
    }
    if p in s.table ==> s.table[p] in s.srcs {
      CpAfter(s, GetOrCreate(s, p, newId, ByCopier), cp);
    }
  }

  /** The other steps of the backup thread. */
  lemma BackupStepFlags(s: State, b: BackupStep)
    requires BackupEnabled(s, b) && !b.PrepareOne? && !b.CopyCreate?
    ensures var s' := DoBackup(s, b);
      && s'.backup == s.backup && s'.cfg == s.cfg
      && s'.session == (if b.StartBackup? then true else if b.DisableEnd? then false else s.session)
      && s'.captureOn == (if b.PrepareEnd? then true
                          else if b.DisableEnd? || (b.CopyDrop? && s.cp == CopyDropping(s.cp.path, s.cp.sid, false))
                          then false else s.captureOn)
  {
    hide TableFree, NoReaders, PastEnd, DoPrepare, DoCopyCreate, TryRemoveDest, TryCreate, DropRef, GetOrCreate;
    var cp := DoBackup(s, b).cp;
    match b
    case CopyGet(newId) => ObjectStepFlags(s, 0, s.cp.path, newId, cp);
    case CopyDetach => ObjectStepFlags(s, s.cp.sid, "", 0, cp);
    case CopyDrop => DropStepFlags(s);
    case DisableOne =>
      if s.cp.next in s.fmap {
        ObjectStepFlags(s, s.fmap[s.cp.next], "", 0, cp);
      }
    case _ =>
  }

  lemma DropStepFlags(s: State)
    requires BackupEnabled(s, CopyDrop)
    ensures var s' := DoBackup(s, CopyDrop);
      && s'.backup == s.backup && s'.cfg == s.cfg && s'.session == s.session
      && s'.captureOn == (s.captureOn && s.cp.ok)
  {
    hide TableFree, DropRef;
    ObjectsKeepFlags(s, s.cp.sid, "", 0);
  }

  /** What a step of a call does to the flags and the backup. */
  lemma AppFlags(s: State, t: Tid, a: AppStep)
    requires AppEnabled(s, t, a)
    ensures var s', step := DoApp(s, t, a), App(t, a);
      && s'.session == s.session && s'.cfg == s.cfg
      && s'.captureOn == (s.captureOn && !Missing(s, step) && !OpenFails(s, step) && !UnlinkFails(s, step))
      && s'.backup == if a.CreateOnOpen? && Makes(s, step, s.threads[t].sid)
                      then s.backup + {s.srcs[s.threads[t].sid].name}
                      else if a.CaptureUnlink?
                      then DoCaptureUnlink(s, t, s.threads[t].path, s.threads[t].sid, a.io, a.ioUnlink).backup
                      else s.backup
  {
    if Flags(a) {
      hide Settled, TableFree, Needs, DoRealpath, DoCreateOnOpen, DoCaptureUnlink, ShouldCaptureUnlink;
      match a
      case Realpath => RealpathFlags(s, t, s.threads[t].fd, s.threads[t].path);
      case CreateOnOpen(io) => CreateFlags(s, t, s.threads[t].sid, s.threads[t].ok, io);
      case CaptureUnlink(io, ioUnlink) =>
        CaptureFlags(s, t, s.threads[t].path, s.threads[t].sid, io, ioUnlink);
    } else {
      AppKeepsFlags(s, t, a);
      hide AppEnabled, DoApp, DoCaptureUnlink, Needs;
    }
  }

  /** What a step of the backup thread does to them. */
  lemma BackupFlags(s: State, b: BackupStep)
    requires BackupEnabled(s, b)
    ensures var s', step := DoBackup(s, b), Backup(b);
      && s'.session == (if b.StartBackup? then true else if b.DisableEnd? then false else s.session) && s'.cfg == s.cfg
      && (s'.captureOn <==> b.PrepareEnd? || Meets(s, step, true)
                            || (s.captureOn && !Reported(s, step) && !b.DisableEnd?))
      && s'.backup == if b.PrepareOne? && s.cp.next in s.fmap && Makes(s, step, s.fmap[s.cp.next])
                      then s.backup + {s.srcs[s.fmap[s.cp.next]].name}
                      else if b.CopyCreate? && Makes(s, step, s.cp.sid) then s.backup + {s.srcs[s.cp.sid].name}
                      else s.backup
  {
    hide TableFree, NoReaders, PastEnd, Needs, DoPrepare, DoCopyCreate;
    if b.PrepareOne? {
      PrepareFlags(s, s.cp.next, b.io);
    } else if b.CopyCreate? {
      CopyCreateFlags(s, s.cp.path, s.cp.sid, s.cp.present, b.io);
    } else {
      BackupStepFlags(s, b);
      hide DoBackup;
    }
  }

  /** The session is there from the start of a backup to the end of disabling. */
  lemma SessionChangesBy(s: State, step: Step)
    requires Enabled(s, step)
    ensures Do(s, step).session <==> step == Backup(StartBackup) || (s.session && step != Backup(DisableEnd))
  {
    match step
    case App(t, a) => AppFlags(s, t, a);
    case Backup(b) => BackupFlags(s, b);
  }

  /** Something that is reported. */
  predicate Reported(s: State, step: Step) {
    || Missing(s, step) || OpenFails(s, step) || UnlinkFails(s, step)
    || (Meets(s, step, false) && !step.b.io)
    || (step == Backup(CopyDrop) && s.cp.CopyDropping? && !s.cp.ok)
  }

  /** Calls are captured from the end of prepare, or from where it stops at an excluded file, until something is
      reported or the session ends. */
  lemma CaptureChangesBy(s: State, step: Step)
    requires Enabled(s, step)
    ensures Do(s, step).captureOn <==>
      || step == Backup(PrepareEnd) || Meets(s, step, true)
      || (s.captureOn && !Reported(s, step) && step != Backup(DisableEnd))
  {
    match step
    case App(t, a) => AppFlags(s, t, a);
    case Backup(b) => BackupFlags(s, b);
  }

  /** The object whose backup file a step may make. */
  function Target(s: State, step: Step): Option<Sid> {
    match step
    case App(t, a) =>
      if t in s.threads && ((a.CreateOnOpen? && s.threads[t].Creating?)
                            || (a.CaptureUnlink? && s.threads[t].UnlinkReferenced?))
      then Some(s.threads[t].sid) else None
    case Backup(b) =>
      if b.PrepareOne? && s.cp.Preparing? && s.cp.next in s.fmap then Some(s.fmap[s.cp.next])
      else if b.CopyCreate? && s.cp.CopyCreating? then Some(s.cp.sid) else None
  }

  lemma MakesTarget(s: State, step: Step, sid: Sid)
    ensures Makes(s, step, sid) ==> Target(s, step) == Some(sid)
  {
    hide Needs, ShouldCaptureUnlink;
  }

  lemma UnlinkEnters(s: State, t: Tid, io: bool, ioUnlink: bool, p: Path)
    requires Inv(s) && AppEnabled(s, t, CaptureUnlink(io, ioUnlink)) && p !in s.backup
    ensures var a := CaptureUnlink(io, ioUnlink);
      p in DoApp(s, t, a).backup <==>
        Makes(s, App(t, a), s.threads[t].sid) && s.srcs[s.threads[t].sid].name == p
  {
    assert s.srcs[s.threads[t].sid].name == s.threads[t].path by {
      hide TableFree;
      OwnPc(s, t);
    }
    hide Inv, TableFree;
    CaptureFlags(s, t, s.threads[t].path, s.threads[t].sid, io, ioUnlink);
    hide DoCaptureUnlink, ShouldCaptureUnlink;
  }

  lemma TargetEnters(s: State, step: Step, p: Path)
    requires Inv(s) && Enabled(s, step) && p !in s.backup
    ensures p in Do(s, step).backup <==>
      Target(s, step).Some? && Makes(s, step, Target(s, step).value) && s.srcs[Target(s, step).value].name == p
  {
    match step
    case App(t, a) =>
      if a.CaptureUnlink? {
        UnlinkEnters(s, t, a.io, a.ioUnlink, p);
        hide Inv, Makes, DoApp, TableFree;
      } else {
        AppFlags(s, t, a);
        hide Inv, DoApp, TableFree, Settled, Needs, ShouldCaptureUnlink;
      }
    case Backup(b) =>
      BackupFlags(s, b);
      hide Inv, DoBackup, TableFree, NoReaders, PastEnd, Needs;
  }

  /** A file comes into the backup exactly when prepare, a captured open, the copier, or a captured unlink that then
      fails to remove it, makes the destination of an object of that name, which has none and is not marked. */
  lemma EntersBackupIff(s: State, step: Step, p: Path)
    requires Inv(s) && Enabled(s, step) && p !in s.backup
    ensures p in Do(s, step).backup <==> exists sid :: Makes(s, step, sid) && s.srcs[sid].name == p
  {
    TargetEnters(s, step, p);
    hide Inv, Do, Enabled, Needs, ShouldCaptureUnlink;
    if Target(s, step).Some? && Makes(s, step, Target(s, step).value) && s.srcs[Target(s, step).value].name == p {
      assert Makes(s, step, Target(s, step).value);
    }
    forall sid: Sid | Makes(s, step, sid)
      ensures Target(s, step) == Some(sid)
    {
      MakesTarget(s, step, sid);
    }
  }

  /** A captured open asks for a backup file exactly when the file is there, in the source, not excluded, and its
      directory can be made. */
  lemma OpenAsksIff(s: State, t: Tid, io: bool)
    requires Enabled(s, App(t, EnterOpen(io))) && s.session
    ensures var s', sid := Do(s, App(t, EnterOpen(io))), s.threads[t].sid;
      var p := s.srcs[sid].name;
      && Stands(s', t, Creating(s.threads[t].fd, sid, s'.threads[t].ok))
      && (s'.threads[t].ok <==> io && p in s.fs && p in s.cfg.inSource && p !in s.cfg.backupExcluded)
  {
    hide TableFree;
  }

  // ----- names and marks -----

  /** Objects keep their names, and all but one their marks. */
  ghost predicate SameNames(s: State, s': State, but: Option<Sid>) {
    forall sid :: sid in s.srcs && sid in s'.srcs ==>
      s'.srcs[sid].name == s.srcs[sid].name
      && (but != Some(sid) ==> s'.srcs[sid].unlinked == s.srcs[sid].unlinked)
  }

  lemma DestinationsKeepNames(s: State, sid: Sid, io: bool)
    requires sid in s.srcs
    ensures SameNames(s, TryRemoveDest(s, sid), None) && SameNames(s, TryCreate(s, sid, io), None)
  {
    hide CreateFails;
  }

  lemma RefsKeepNames(s: State, sid: Sid, r: Ref, r': Ref)
    requires sid in s.srcs
    ensures SameNames(s, MoveRef(s, sid, r, r'), None)
    ensures s.srcs[sid].count > 0 ==> SameNames(s, DropRef(s, sid, r), None)
  {
  }

  lemma GetKeepsNames(s: State, p: Path, newId: Sid, r: Ref)
    requires (p in s.table ==> s.table[p] in s.srcs) && (p !in s.table ==> newId !in s.srcs)
    ensures SameNames(s, GetOrCreate(s, p, newId, r), None)
  {
  }

  lemma SameObjectsSameNames(s: State, s1: State, s': State, but: Option<Sid>)
    requires SameNames(s, s1, but) && s'.srcs == s1.srcs
    ensures SameNames(s, s', but)
  {
  }

  lemma UnlinkSourceNames(s: State, t: Tid, sid: Sid)
    requires sid in s.srcs && s.srcs[sid].count > 0
    ensures SameNames(s, UnlinkSource(s, t, sid), Some(sid))
    ensures sid in UnlinkSource(s, t, sid).srcs ==> UnlinkSource(s, t, sid).srcs[sid].unlinked
  {
  }

  lemma LeakNames(s: State, t: Tid, sid: Sid)
    requires sid in s.srcs
    ensures SameNames(s, LeakRef(s, t, sid), None) && SameNames(s, s.(crashed := true), None)
  {
  }

  lemma EnterNames(s: State, t: Tid, fd: Fd, sid: Sid, io: bool)
    requires sid in s.srcs
    ensures SameNames(s, DoEnterOpen(s, t, fd, sid, io), None)
  {
  }

  lemma CreateNames(s: State, t: Tid, sid: Sid, ok: bool, io: bool)
    requires sid in s.srcs
    ensures SameNames(s, DoCreateOnOpen(s, t, sid, ok, io), None)
  {
  }

  /** The unlink goes through, captured or not: it does not abandon its reference, nor follow a NULL pointer. */
  predicate GoesThrough(s: State, p: Path, sid: Sid, io: bool)
    requires sid in s.srcs
  {
    ShouldCaptureUnlink(s, p) ==> s.srcs[sid].dest || (!s.srcs[sid].unlinked && io)
  }

  lemma NamesJoin(s: State, s1: State, s': State, sid: Sid)
    requires SameNames(s, s1, None) && s1.srcs.Keys == s.srcs.Keys && SameNames(s1, s', Some(sid))
    ensures SameNames(s, s', Some(sid))
  {
  }

  lemma CreatedNames(s: State, t: Tid, sid: Sid, io: bool, s1: State)
    requires sid in s.srcs && s.srcs[sid].count > 0 && s1.srcs == TryCreate(s, sid, io).srcs
    ensures sid in s1.srcs && s1.srcs[sid].count > 0
    ensures var s' := UnlinkSource(s1, t, sid);
      SameNames(s, s', Some(sid)) && (sid in s'.srcs ==> s'.srcs[sid].unlinked)
  {
    DestinationsKeepNames(s, sid, io);
    assert s1.srcs.Keys == s.srcs.Keys && s1.srcs[sid].count == s.srcs[sid].count;
    SameObjectsSameNames(s, TryCreate(s, sid, io), s1, None);
    hide TryCreate, UnlinkSource, SameNames;
    UnlinkSourceNames(s1, t, sid);
    NamesJoin(s, s1, UnlinkSource(s1, t, sid), sid);
  }

  lemma AllButOne(s: State, s': State, sid: Sid)
    requires SameNames(s, s', None) && sid in s.srcs
    ensures SameNames(s, s', Some(sid)) && (sid in s'.srcs ==> s'.srcs[sid].unlinked == s.srcs[sid].unlinked)
  {
  }

  /** What unlink() does to names and marks. */
  ghost predicate NamesAfterUnlink(s: State, s': State, p: Path, sid: Sid, io: bool)
    requires sid in s.srcs
  {
    && SameNames(s, s', Some(sid))
    && (sid in s'.srcs ==> s'.srcs[sid].unlinked == (s.srcs[sid].unlinked || GoesThrough(s, p, sid, io)))
  }

  lemma ReturnsNames(s: State, t: Tid, p: Path, sid: Sid, io: bool, ioUnlink: bool)
    requires sid in s.srcs && s.srcs[sid].count > 0 && !GoesThrough(s, p, sid, io)
    ensures NamesAfterUnlink(s, DoCaptureUnlink(s, t, p, sid, io, ioUnlink), p, sid, io)
  {
    hide UnlinkSource, LeakRef, TryCreate, ShouldCaptureUnlink, SameNames;
    LeakNames(s, t, sid);
    AllButOne(s, LeakRef(s, t, sid), sid);
    AllButOne(s, s.(crashed := true), sid);
  }

  lemma EndsNames(s: State, t: Tid, p: Path, sid: Sid, io: bool, ioUnlink: bool)
    requires sid in s.srcs && s.srcs[sid].count > 0 && GoesThrough(s, p, sid, io)
    ensures NamesAfterUnlink(s, DoCaptureUnlink(s, t, p, sid, io, ioUnlink), p, sid, io)
  {
    hide UnlinkSource, LeakRef, TryCreate, ShouldCaptureUnlink, SameNames;
    if !ShouldCaptureUnlink(s, p) {
      UnlinkSourceNames(s, t, sid);
    } else if !ioUnlink {
      CreatedNames(s, t, sid, io, TryCreate(s, sid, io).(ioFailed := true, captureOn := false));
    } else {
      var s1 := TryCreate(s, sid, io);
      CreatedNames(s, t, sid, io, s1.(backup := s1.backup - {p}, captured := s1.captured + {p}));
    }
  }

  lemma CaptureNames(s: State, t: Tid, p: Path, sid: Sid, io: bool, ioUnlink: bool)
    requires sid in s.srcs && s.srcs[sid].count > 0
    ensures NamesAfterUnlink(s, DoCaptureUnlink(s, t, p, sid, io, ioUnlink), p, sid, io)
  {
    hide DoCaptureUnlink, NamesAfterUnlink, GoesThrough;
    if GoesThrough(s, p, sid, io) {
      EndsNames(s, t, p, sid, io, ioUnlink);
    } else {
      ReturnsNames(s, t, p, sid, io, ioUnlink);
    }
  }

  lemma OpenNames(s: State, t: Tid, fd: Fd, p: Path, flag: bool)
    ensures SameNames(s, DoRealOpen(s, t, fd, p, flag), None) && SameNames(s, DoRealUnlink(s, t, p, flag), None)
    ensures SameNames(s, DoRealClose(s, t, fd), None) && SameNames(s, DoStartClose(s, t, fd), None)
    ensures SameNames(s, DoRealpath(s, t, fd, p), None)
  {
    OpenObjects(s, t, fd, p, flag);
    hide DoRealOpen, DoRealUnlink, DoRealClose, DoStartClose, DoRealpath;
  }

  lemma OpenObjects(s: State, t: Tid, fd: Fd, p: Path, flag: bool)
    ensures DoRealOpen(s, t, fd, p, flag).srcs == s.srcs && DoRealUnlink(s, t, p, flag).srcs == s.srcs
    ensures DoRealClose(s, t, fd).srcs == s.srcs && DoStartClose(s, t, fd).srcs == s.srcs
    ensures DoRealpath(s, t, fd, p).srcs == s.srcs
  {
    RealpathObjects(s, t, fd, p);
    hide DoRealpath;
  }

  lemma RealpathObjects(s: State, t: Tid, fd: Fd, p: Path)
    ensures DoRealpath(s, t, fd, p).srcs == s.srcs
  {
    assert Goto(s, t, Resolved(fd, p)).srcs == s.srcs && Finish(s.(captureOn := false), t).srcs == s.srcs;
    hide Goto, Finish;
  }

  lemma GetNames(s: State, t: Tid, fd: Fd, p: Path, newId: Sid)
    requires CanGet(s, p, newId)
    ensures SameNames(s, DoGetSource(s, t, fd, p, newId), None) && SameNames(s, DoUnlinkGet(s, t, p, newId), None)
  {
    hide TableFree;
  }

  lemma MapNames(s: State, t: Tid, fd: Fd, sid: Sid)
    requires sid in s.srcs
    ensures SameNames(s, DoPut(s, t, fd, sid), None) && SameNames(s, DoErase(s, t, fd, sid), None)
  {
  }

  lemma CloseNames(s: State, t: Tid, fd: Fd, sid: Sid)
    requires sid in s.srcs
    ensures SameNames(s, DoCloseDetach(s, t, fd, sid), None)
    ensures s.srcs[sid].count > 0 ==> SameNames(s, DoDrop(s, t, fd, sid), None)
  {
  }

  lemma AppNames(s: State, t: Tid, a: AppStep)
    requires AppEnabled(s, t, a) && !a.CaptureUnlink?
    ensures SameNames(s, DoApp(s, t, a), None)
  {
    hide Settled, TableFree, CanGet, DoRealOpen, DoRealpath, DoRealUnlink, DoRealClose, DoGetSource, DoEnterOpen,
      DoCreateOnOpen, DoPut, DoErase, DoStartClose, DoCloseDetach, DoDrop, DoUnlinkGet;
    match a
    case RealOpen(fd, p, creat) => OpenNames(s, t, fd, p, creat);
    case Realpath => OpenNames(s, t, s.threads[t].fd, s.threads[t].path, true);
    case GetSource(newId) => GetNames(s, t, s.threads[t].fd, s.threads[t].path, newId);
    case Put => MapNames(s, t, s.threads[t].fd, s.threads[t].sid);
    case EnterOpen(io) => EnterNames(s, t, s.threads[t].fd, s.threads[t].sid, io);
    case CreateOnOpen(io) => CreateNames(s, t, s.threads[t].sid, s.threads[t].ok, io);
    case StartClose(fd) => OpenNames(s, t, fd, "", true);
    case CloseDetach => CloseNames(s, t, s.threads[t].fd, s.threads[t].sid);
    case Erase => MapNames(s, t, s.threads[t].fd, s.threads[t].sid);
    case Drop => CloseNames(s, t, s.threads[t].fd, s.threads[t].sid);
    case RealClose => OpenNames(s, t, s.threads[t].fd, "", true);
    case StartUnlink(_) =>
    case RealUnlink(ok) => OpenNames(s, t, 0, s.threads[t].path, ok);
    case UnlinkGet(newId) => GetNames(s, t, 0, s.threads[t].path, newId);
  }

  lemma CpNames(s: State, s1: State, cp: BackupPc)
    requires SameNames(s, s1, None)
    ensures SameNames(s, s1.(cp := cp), None)
  {
  }

  lemma CreatedCpNames(s: State, sid: Sid, io: bool, cp: BackupPc)
    requires sid in s.srcs
    ensures SameNames(s, TryCreate(s, sid, io).(cp := cp), None)
  {
    DestinationsKeepNames(s, sid, io);
    CpNames(s, TryCreate(s, sid, io), cp);
  }

  lemma PrepareNames(s: State, next: Fd, io: bool)
    requires next in s.fmap ==> s.fmap[next] in s.srcs
    ensures SameNames(s, DoPrepare(s, next, io), None)
  {
    if next in s.fmap {
      CreatedCpNames(s, s.fmap[next], true, Preparing(next + 1));
    }
    assert SameNames(s, s.(cp := Preparing(next + 1)), None);
    assert SameNames(s, s.(cp := Copying, captureOn := true, aborted := true), None);
    assert SameNames(s, s.(cp := Failed, ioFailed := true, prepareFailed := true, captureOn := false), None);
    hide TryCreate, DoPrepare, SameNames;
    PrepareCases(s, next, io, x => SameNames(s, x, None));
  }

  lemma CopyCreateNames(s: State, p: Path, sid: Sid, present: bool, io: bool)
    requires sid in s.srcs
    ensures SameNames(s, DoCopyCreate(s, p, sid, present, io), None)
  {
    CreatedCpNames(s, sid, io, CopyData(p, sid));
    CreatedCpNames(s, sid, io, CopyDetaching(p, sid));
    assert SameNames(s, s.(cp := CopyDetaching(p, sid)), None);
    assert SameNames(s, s.(ioFailed := true, cp := CopyDropping(p, sid, false)), None);
    hide TryCreate, CreateFails, DoCopyCreate, SameNames;
    CopyCreateCases(s, p, sid, present, io, x => SameNames(s, x, None));
  }

  lemma BackupNames(s: State, b: BackupStep)
    requires BackupEnabled(s, b)
    ensures SameNames(s, DoBackup(s, b), None)
  {
    hide TableFree, NoReaders, PastEnd, DoPrepare, DoCopyCreate, TryRemoveDest, TryCreate, DropRef, GetOrCreate;
    match b
    case PrepareOne(io) => PrepareNames(s, s.cp.next, io);
    case CopyGet(newId) => GetKeepsNames(s, s.cp.path, newId, ByCopier);
    case CopyCreate(io) => CopyCreateNames(s, s.cp.path, s.cp.sid, s.cp.present, io);
    case CopyDetach => DestinationsKeepNames(s, s.cp.sid, true);
    case CopyDrop => RefsKeepNames(s, s.cp.sid, ByCopier, ByCopier);
    case DisableOne =>
      if s.cp.next in s.fmap {
        DestinationsKeepNames(s, s.fmap[s.cp.next], true);
      }
    case _ =>
  }

  /** An unlink() of the object's file has come to its end. */
  predicate Marks(s: State, step: Step, sid: Sid) {
    step.App? && step.a.CaptureUnlink? && step.t in s.threads && s.threads[step.t].UnlinkReferenced?
    && s.threads[step.t].sid == sid && sid in s.srcs && GoesThrough(s, s.threads[step.t].path, sid, step.a.io)
  }

  /** Objects keep their names; and they are marked by an unlink() that goes through, and by nothing else, for good. */
  lemma MarksChangeBy(s: State, step: Step, sid: Sid)
    requires Enabled(s, step) && sid in s.srcs && sid in Do(s, step).srcs
    ensures Do(s, step).srcs[sid].name == s.srcs[sid].name
    ensures Do(s, step).srcs[sid].unlinked <==> s.srcs[sid].unlinked || Marks(s, step, sid)
  {
    match step
    case App(t, a) =>
      if a.CaptureUnlink? {
        CaptureNames(s, t, s.threads[t].path, s.threads[t].sid, a.io, a.ioUnlink);
        hide TableFree, DoCaptureUnlink, GoesThrough;
      } else {
        AppNames(s, t, a);
        hide AppEnabled, DoApp;
      }
    case Backup(b) =>
      BackupNames(s, b);
      hide BackupEnabled, DoBackup;
  }

  // ----- what is excluded stays out -----

  /** Open and prepare ask about the translated name, the copier and unlink about the source name. */
  predicate Included(cfg: Config, p: Path) {
    p in cfg.inSource && (p !in cfg.sourceExcluded || p !in cfg.backupExcluded)
  }

  predicate Wanted(s: State, t: Tid) {
    t in s.threads && s.threads[t].Creating? && s.threads[t].ok && s.threads[t].sid in s.srcs ==>
      var p := s.srcs[s.threads[t].sid].name; p in s.cfg.inSource && p !in s.cfg.backupExcluded
  }

  ghost predicate OnlyIncluded(s: State) {
    && (forall p :: p in s.backup ==> Included(s.cfg, p))
    && (forall t :: t in s.threads ==> Wanted(s, t))
    && (HasPath(s.cp) ==> s.cp.path in s.cfg.inSource && s.cp.path !in s.cfg.sourceExcluded)
  }

  lemma MadeIsIncluded(s: State, step: Step, sid: Sid)
    requires Inv(s) && OnlyIncluded(s) && Makes(s, step, sid)
    ensures Included(s.cfg, s.srcs[sid].name)
  {
    match step
    case App(t, a) =>
      if a.CreateOnOpen? {
        assert Wanted(s, t);
      } else {
        OwnPc(s, t);
      }
    case Backup(b) =>
      assert CopierOk(s);
  }

  lemma SameConfig(s: State, step: Step)
    requires Enabled(s, step)
    ensures Do(s, step).cfg == s.cfg
  {
    hide AppEnabled, BackupEnabled, DoApp, DoBackup, DoCaptureUnlink, Makes;
    match step
    case App(t, a) => AppFlags(s, t, a);
    case Backup(b) => BackupFlags(s, b);
  }

  lemma BackupStaysIncluded(s: State, step: Step, p: Path)
    requires Inv(s) && OnlyIncluded(s) && Enabled(s, step) && p in Do(s, step).backup
    ensures Included(s.cfg, p)
  {
    if p !in s.backup {
      EntersBackupIff(s, step, p);
      hide Enabled, Do, Makes;
      var sid :| Makes(s, step, sid) && s.srcs[sid].name == p;
      MadeIsIncluded(s, step, sid);
    }
  }

  lemma CopyCreateCp(s: State, p: Path, sid: Sid, present: bool, io: bool)
    requires sid in s.srcs
    ensures var cp := DoCopyCreate(s, p, sid, present, io).cp; HasPath(cp) ==> cp.path == p
  {
    hide TryCreate, CreateFails;
  }

  predicate NoPath(s: State) {
    !HasPath(s.cp)
  }

  lemma PrepareCp(s: State, next: Fd, io: bool)
    requires next in s.fmap ==> s.fmap[next] in s.srcs
    ensures NoPath(DoPrepare(s, next, io))
  {
    assert NoPath(s.(cp := Preparing(next + 1)));
    assert NoPath(s.(cp := Copying, captureOn := true, aborted := true));
    assert NoPath(s.(cp := Failed, ioFailed := true, prepareFailed := true, captureOn := false));
    hide TryCreate, DoPrepare;
    assert next in s.fmap ==> NoPath(TryCreate(s, s.fmap[next], true).(cp := Preparing(next + 1)));
    hide NoPath;
    PrepareCases(s, next, io, x => NoPath(x));
  }

  /** The copier, if it has taken up a file, has taken up this one. */
  predicate With(cp: BackupPc, p: Path) {
    HasPath(cp) ==> cp.path == p
  }

  lemma EarlySteps(s: State, b: BackupStep)
    requires BackupEnabled(s, b) && (b.CopyPick? || b.CopyGet? || b.CopyOpen? || b.CopyLock?)
    ensures DoBackup(s, b).cp.path == if b.CopyPick? then b.path else s.cp.path
    ensures HasPath(s.cp) || b.CopyPick?
  {
    hide TableFree, GetOrCreate;
  }

  lemma LateSteps(s: State, b: BackupStep)
    requires BackupEnabled(s, b) && (b.CopyDataEnd? || b.CopyDetach? || b.CopyDrop?)
    ensures HasPath(s.cp) && With(DoBackup(s, b).cp, s.cp.path)
  {
    hide TableFree, TryRemoveDest, DropRef;
  }

  lemma OtherSteps(s: State, b: BackupStep)
    requires BackupEnabled(s, b)
    requires b.StartBackup? || b.PrepareEnd? || b.StartDisable? || b.DisableOne? || b.DisableEnd?
    ensures !HasPath(DoBackup(s, b).cp)
  {
    hide NoReaders, PastEnd, TryRemoveDest;
  }

  lemma CreationSteps(s: State, b: BackupStep)
    requires BackupEnabled(s, b) && (b.CopyCreate? || b.PrepareOne?)
    ensures HasPath(DoBackup(s, b).cp) ==> HasPath(s.cp) && DoBackup(s, b).cp.path == s.cp.path
  {
    hide TableFree, PastEnd, DoCopyCreate, DoPrepare;
    if b.CopyCreate? {
      CopyCreateCp(s, s.cp.path, s.cp.sid, s.cp.present, b.io);
    } else {
      PrepareCp(s, s.cp.next, b.io);
    }
  }

  /** The copier stays with the file that it has taken up. */
  lemma CopierStays(s: State, b: BackupStep)
    requires BackupEnabled(s, b)
    ensures HasPath(DoBackup(s, b).cp) ==>
      (b.CopyPick? || HasPath(s.cp)) && DoBackup(s, b).cp.path == if b.CopyPick? then b.path else s.cp.path
  {
    hide BackupEnabled, DoBackup;
    if b.CopyPick? || b.CopyGet? || b.CopyOpen? || b.CopyLock? {
      EarlySteps(s, b);
    } else if b.CopyDataEnd? || b.CopyDetach? || b.CopyDrop? {
      LateSteps(s, b);
    } else if b.CopyCreate? || b.PrepareOne? {
      CreationSteps(s, b);
    } else {
      OtherSteps(s, b);
    }
  }

  lemma CreateReturns(s: State, t: Tid, sid: Sid, ok: bool, io: bool)
    requires sid in s.srcs
    ensures t !in DoCreateOnOpen(s, t, sid, ok, io).threads
  {
    hide TryCreate, CreateFails;
  }

  lemma UnlinkSourceReturns(s: State, t: Tid, sid: Sid)
    requires sid in s.srcs && s.srcs[sid].count > 0
    ensures t !in UnlinkSource(s, t, sid).threads
  {
    hide DropRef, TryRemoveDest;
  }

  lemma LeakReturns(s: State, t: Tid, sid: Sid)
    requires sid in s.srcs
    ensures t !in LeakRef(s, t, sid).threads
  {
  }

  lemma UnlinkReturns(s: State, t: Tid, p: Path, sid: Sid, io: bool, ioUnlink: bool)
    requires sid in s.srcs && s.srcs[sid].count > 0
    ensures var s' := DoCaptureUnlink(s, t, p, sid, io, ioUnlink);
      t !in s'.threads || s' == s.(crashed := true)
  {
    CreateKeepsCalls(s, sid, io);
    hide TryCreate, CreateFails, ShouldCaptureUnlink, UnlinkSource, LeakRef;
    if !ShouldCaptureUnlink(s, p) {
      UnlinkSourceReturns(s, t, sid);
    } else if CreateFails(s, sid, io) {
      LeakReturns(s, t, sid);
    } else if !(s.srcs[sid].unlinked && !s.srcs[sid].dest) {
      var s1 := TryCreate(s, sid, io);
      UnlinkSourceReturns(s1.(ioFailed := true, captureOn := false), t, sid);
      UnlinkSourceReturns(s1.(backup := s1.backup - {p}, captured := s1.captured + {p}), t, sid);
    }
  }

  predicate NoCreation(s: State, t: Tid) {
    t in s.threads ==> !s.threads[t].Creating?
  }

  lemma OpenNoCreation(s: State, t: Tid, fd: Fd, p: Path, flag: bool)
    ensures NoCreation(DoRealOpen(s, t, fd, p, flag), t) && NoCreation(DoRealUnlink(s, t, p, flag), t)
    ensures NoCreation(DoRealClose(s, t, fd), t) && NoCreation(DoStartClose(s, t, fd), t)
  {
  }

  lemma RealpathNoCreation(s: State, t: Tid, fd: Fd, p: Path)
    ensures NoCreation(DoRealpath(s, t, fd, p), t)
  {
    assert NoCreation(Goto(s, t, Resolved(fd, p)), t);
    assert NoCreation(Finish(s.(captureOn := false), t), t);
  }

  lemma GetNoCreation(s: State, t: Tid, fd: Fd, p: Path, newId: Sid)
    requires CanGet(s, p, newId)
    ensures NoCreation(DoGetSource(s, t, fd, p, newId), t) && NoCreation(DoUnlinkGet(s, t, p, newId), t)
  {
    hide TableFree;
  }

  lemma MapNoCreation(s: State, t: Tid, fd: Fd, sid: Sid)
    requires sid in s.srcs
    ensures NoCreation(DoPut(s, t, fd, sid), t) && NoCreation(DoErase(s, t, fd, sid), t)
    ensures NoCreation(DoCloseDetach(s, t, fd, sid), t)
    ensures s.srcs[sid].count > 0 ==> NoCreation(DoDrop(s, t, fd, sid), t)
  {
    hide TryRemoveDest, DropRef, MoveRef;
  }

  /** Only a captured open comes to the point where the backup file is made. */
  lemma NotCreating(s: State, t: Tid, a: AppStep)
    requires AppEnabled(s, t, a) && !a.EnterOpen?
    ensures NoCreation(DoApp(s, t, a), t)
  {
    hide Settled, TableFree, CanGet, DoRealOpen, DoRealpath, DoRealUnlink, DoRealClose, DoGetSource,
      DoCreateOnOpen, DoPut, DoErase, DoStartClose, DoCloseDetach, DoDrop, DoUnlinkGet, DoCaptureUnlink;
    match a
    case RealOpen(fd, p, creat) => OpenNoCreation(s, t, fd, p, creat);
    case Realpath => RealpathNoCreation(s, t, s.threads[t].fd, s.threads[t].path);
    case GetSource(newId) => GetNoCreation(s, t, s.threads[t].fd, s.threads[t].path, newId);
    case Put => MapNoCreation(s, t, s.threads[t].fd, s.threads[t].sid);
    case CreateOnOpen(io) => CreateReturns(s, t, s.threads[t].sid, s.threads[t].ok, io);
    case StartClose(fd) => OpenNoCreation(s, t, fd, "", true);
    case CloseDetach => MapNoCreation(s, t, s.threads[t].fd, s.threads[t].sid);
    case Erase => MapNoCreation(s, t, s.threads[t].fd, s.threads[t].sid);
    case Drop => MapNoCreation(s, t, s.threads[t].fd, s.threads[t].sid);
    case RealClose => OpenNoCreation(s, t, s.threads[t].fd, "", true);
    case StartUnlink(_) =>
    case RealUnlink(ok) => OpenNoCreation(s, t, 0, s.threads[t].path, ok);
    case UnlinkGet(newId) => GetNoCreation(s, t, 0, s.threads[t].path, newId);
    case CaptureUnlink(io, ioUnlink) => UnlinkReturns(s, t, s.threads[t].path, s.threads[t].sid, io, ioUnlink);
  }

  lemma SourceLives(s: State, t: Tid)
    requires Inv(s) && t in s.threads && s.threads[t].Creating?
    ensures s.threads[t].sid in s.srcs
  {
    OwnPc(s, t);
  }

  lemma OtherStaysWanted(s: State, step: Step, u: Tid)
    requires Inv(s) && Enabled(s, step) && u in s.threads && Wanted(s, u)
    requires u in Do(s, step).threads && Do(s, step).threads[u] == s.threads[u] && Do(s, step).cfg == s.cfg
    ensures Wanted(Do(s, step), u)
  {
    if s.threads[u].Creating? && s.threads[u].sid in Do(s, step).srcs {
      SourceLives(s, u);
      MarksChangeBy(s, step, s.threads[u].sid);
    }
    hide Inv, Enabled, Do;
  }

  lemma OwnStaysWanted(s: State, t: Tid, a: AppStep)
    requires Inv(s) && Enabled(s, App(t, a)) && DoApp(s, t, a).cfg == s.cfg
    ensures Wanted(DoApp(s, t, a), t)
  {
    if a.EnterOpen? {
      if s.session {
        OpenAsksIff(s, t, a.io);
        var sid := s.threads[t].sid;
        if sid in DoApp(s, t, a).srcs {
          MarksChangeBy(s, App(t, a), sid);
        }
      }
      hide Inv, TableFree;
    } else {
      NotCreating(s, t, a);
      hide Inv, AppEnabled, DoApp;
    }
  }

  lemma StepKeepsIncluded(s: State, step: Step)
    requires Inv(s) && OnlyIncluded(s) && Enabled(s, step)
    ensures OnlyIncluded(Do(s, step))
  {
    SameConfig(s, step);
    var s' := Do(s, step);
    forall p | p in s'.backup
      ensures Included(s'.cfg, p)
    {
      BackupStaysIncluded(s, step, p);
    }
    hide Included;
    match step
    case App(t, a) =>
      OwnStaysWanted(s, t, a);
      OtherThreads(s, t, a);
      AppSteady(s, t, a, "");
      hide Inv, AppEnabled, DoApp, Wanted;
      forall u | u in s'.threads && u != t
        ensures Wanted(s', u)
      {
        OtherThread(s, s', t, u);
        OtherStaysWanted(s, step, u);
      }
    case Backup(b) =>
      BackupKeepsThreads(s, b);
      if HasPath(s'.cp) {
        CopierStays(s, b);
      }
      forall u | u in s'.threads
        ensures Wanted(s', u)
      {
        OtherStaysWanted(s, step, u);
      }
      hide Inv, DoBackup, Wanted, TableFree, NoReaders, PastEnd;
  }

  lemma {:induction false} RunKeepsIncluded(s: State, steps: seq<Step>, t: State)
    requires Inv(s) && OnlyIncluded(s) && Reaches(s, steps, t)
    ensures OnlyIncluded(t)
    decreases |steps|
  {
    hide Inv, OnlyIncluded, Enabled, Do;
    if steps != [] {
      StepKeepsInv(s, steps[0]);
      StepKeepsIncluded(s, steps[0]);
      RunKeepsIncluded(Do(s, steps[0]), steps[1..], t);
    }
  }

  /** Nothing outside the source comes into the backup, and nothing that is excluded under both its names. */
  lemma OnlyIncludedIsBackedUp(s: State, p: Path)
    requires Reachable(s) && p in s.backup
    ensures p in s.cfg.inSource && (p !in s.cfg.sourceExcluded || p !in s.cfg.backupExcluded)
  {
    var s0, steps :| Init(s0) && Reaches(s0, steps, s);
    InitKeepsInv(s0);
    assert OnlyIncluded(s0);
    hide Inv, Init, Wanted;
    RunKeepsIncluded(s0, steps, s);
  }

  /** A file leaves the backup exactly when an unlink() of it is captured, which it is in a session, while nothing has
      been reported, if it is in the source and not excluded there; and its backup file is there or can be opened, and
      goes. */
  lemma LeavesBackupBy(s: State, step: Step, p: Path)
    requires Inv(s) && Enabled(s, step) && p in s.backup
    ensures p !in Do(s, step).backup <==>
      && step.App? && step.a.CaptureUnlink? && step.a.ioUnlink
      && step.t in s.threads && s.threads[step.t].UnlinkReferenced? && s.threads[step.t].path == p
      && s.session && s.captureOn && p in s.cfg.inSource && p !in s.cfg.sourceExcluded
      && s.threads[step.t].sid in s.srcs
      && var src := s.srcs[s.threads[step.t].sid]; src.dest || (!src.unlinked && step.a.io)
  {
    InvCopier(s);
    hide Inv;
    LeavesBackupIff(s, step, p);
    hide Enabled, Do;
  }

  // ----- failures, and files that are not there -----

  lemma CreationFails(s: State, p: Path, sid: Sid, present: bool, io: bool)
    requires sid in s.srcs
    ensures var cp := DoCopyCreate(s, p, sid, present, io).cp;
      (cp.CopyDropping? && !cp.ok <==> present && Needs(s, sid) && !io) && !cp.Failed?
  {
    hide TryCreate;
  }

  /** The copy of a file fails when its backup file cannot be opened, and when reading or writing it does. */
  lemma CopyFailsIff(s: State, b: BackupStep)
    requires BackupEnabled(s, b)
    ensures DoBackup(s, b).cp.CopyDropping? && !DoBackup(s, b).cp.ok <==>
      || (b.CopyDataEnd? && !b.ok)
      || (b.CopyCreate? && !b.io && s.cp.CopyCreating? && s.cp.present && s.cp.sid in s.srcs && Needs(s, s.cp.sid))
  {
    hide TableFree, NoReaders, PastEnd, DoPrepare, DoCopyCreate, TryRemoveDest, TryCreate, DropRef, GetOrCreate;
    match b
    case CopyCreate(io) => CreationFails(s, s.cp.path, s.cp.sid, s.cp.present, io);
    case PrepareOne(io) => PrepareCp(s, s.cp.next, io);
    case _ =>
  }

  /** And with it, or with a destination that prepare cannot make, the session fails. */
  lemma SessionFailsIff(s: State, b: BackupStep)
    requires BackupEnabled(s, b)
    ensures DoBackup(s, b).cp.Failed? <==>
      (b.CopyDrop? && s.cp.CopyDropping? && !s.cp.ok) || (Meets(s, Backup(b), false) && !b.io)
  {
    hide TableFree, NoReaders, PastEnd, DoPrepare, DoCopyCreate, TryRemoveDest, TryCreate, DropRef, GetOrCreate,
      SameFlags, Needs;
    match b
    case CopyCreate(io) => CreationFails(s, s.cp.path, s.cp.sid, s.cp.present, io);
    case PrepareOne(io) => PrepareFlags(s, s.cp.next, io);
    case _ =>
  }

  /** The copier looks twice whether its file is there: before it opens it, and, with the table locked, before it makes
      the backup file. */
  lemma CopierLooksTwice(s: State, b: BackupStep)
    requires BackupEnabled(s, b)
    ensures b.CopyOpen? ==>
      DoBackup(s, b).cp == if s.cp.path in s.fs then CopyOpened(s.cp.path, s.cp.sid)
                           else CopyDropping(s.cp.path, s.cp.sid, true)
    ensures b.CopyLock? ==> DoBackup(s, b).cp == CopyCreating(s.cp.path, s.cp.sid, s.cp.path in s.fs)
  {
    hide TableFree, NoReaders, PastEnd, DoPrepare, DoCopyCreate, TryRemoveDest, TryCreate, DropRef, GetOrCreate;
    match b
    case CopyOpen =>
    case _ =>
  }

  // ----- the file operation mutex -----

  /** A call that needs the mutex begins. */
  predicate TakesFileOp(step: Step) {
    step.App? && ((step.a.RealOpen? && step.a.creat) || step.a.StartUnlink?)
  }

  lemma BackupKeepsFileOp(s: State, b: BackupStep)
    requires BackupEnabled(s, b)
    ensures DoBackup(s, b).fileOp == s.fileOp
  {
    hide TableFree, NoReaders, PastEnd, DoPrepare, DoCopyCreate, TryRemoveDest, TryCreate, DropRef, GetOrCreate;
    match b
    case PrepareOne(io) => PrepareKeepsFileOp(s, s.cp.next, io);
    case CopyGet(newId) => ObjectsKeepFileOp(s, 0, s.cp.path, newId);
    case CopyCreate(io) => CopyCreateKeepsFileOp(s, s.cp.path, s.cp.sid, s.cp.present, io);
    case CopyDetach => ObjectsKeepFileOp(s, s.cp.sid, "", 0);
    case CopyDrop => ObjectsKeepFileOp(s, s.cp.sid, "", 0);
    case DisableOne =>
      if s.cp.next in s.fmap {
        ObjectsKeepFileOp(s, s.fmap[s.cp.next], "", 0);
      }
    case _ =>
  }

  predicate SameFileOp(s: State, s': State) {
    s'.fileOp == s.fileOp
  }

  lemma ObjectsKeepFileOp(s: State, sid: Sid, p: Path, newId: Sid)
    ensures sid in s.srcs ==> TryRemoveDest(s, sid).fileOp == s.fileOp
    ensures sid in s.srcs && s.srcs[sid].count > 0 ==> DropRef(s, sid, ByCopier).fileOp == s.fileOp
    ensures (p in s.table ==> s.table[p] in s.srcs) ==> GetOrCreate(s, p, newId, ByCopier).fileOp == s.fileOp
  {
  }

  lemma CreatedFileOp(s: State, sid: Sid, io: bool, cp: BackupPc)
    requires sid in s.srcs
    ensures SameFileOp(s, TryCreate(s, sid, io).(cp := cp))
  {
    hide CreateFails;
  }

  lemma PrepareKeepsFileOp(s: State, next: Fd, io: bool)
    requires next in s.fmap ==> s.fmap[next] in s.srcs
    ensures SameFileOp(s, DoPrepare(s, next, io))
  {
    if next in s.fmap {
      CreatedFileOp(s, s.fmap[next], true, Preparing(next + 1));
    }
    assert SameFileOp(s, s.(cp := Preparing(next + 1)));
    assert SameFileOp(s, s.(cp := Copying, captureOn := true, aborted := true));
    assert SameFileOp(s, s.(cp := Failed, ioFailed := true, prepareFailed := true, captureOn := false));
    hide TryCreate, DoPrepare, SameFileOp;
    PrepareCases(s, next, io, x => SameFileOp(s, x));
  }

  lemma CopyCreateKeepsFileOp(s: State, p: Path, sid: Sid, present: bool, io: bool)
    requires sid in s.srcs
    ensures SameFileOp(s, DoCopyCreate(s, p, sid, present, io))
  {
    CreatedFileOp(s, sid, io, CopyData(p, sid));
    CreatedFileOp(s, sid, io, CopyDetaching(p, sid));
    assert SameFileOp(s, s.(cp := CopyDetaching(p, sid)));
    assert SameFileOp(s, s.(ioFailed := true, cp := CopyDropping(p, sid, false)));
    hide TryCreate, CreateFails, DoCopyCreate, SameFileOp;
    CopyCreateCases(s, p, sid, present, io, x => SameFileOp(s, x));
  }

  lemma BeginFileOp(s: State, t: Tid, fd: Fd, p: Path, creat: bool)
    ensures DoRealOpen(s, t, fd, p, creat).fileOp == if creat then Some(t) else s.fileOp
    ensures DoStartClose(s, t, fd).fileOp == s.fileOp
  {
  }

  lemma AppFileOp(s: State, t: Tid, a: AppStep)
    requires AppEnabled(s, t, a)
    ensures var s' := DoApp(s, t, a);
      s'.fileOp == if TakesFileOp(App(t, a)) then Some(t)
                   else if t in s.threads && t !in s'.threads && s.fileOp == Some(t) then None else s.fileOp
  {
    if Begins(App(t, a)) {
      hide Settled, WriterIn, DoRealOpen, DoStartClose;
      match a
      case RealOpen(fd, p, creat) => BeginFileOp(s, t, fd, p, creat);
      case StartClose(fd) => BeginFileOp(s, t, fd, "", false);
      case StartUnlink(_) =>
    } else {
      CallAdvances(s, t, a);
      hide AppEnabled, DoApp;
    }
  }

  /** Creating opens and unlinks take the mutex as they begin, which they can only while it is free, and give it back as
      they return. */
  lemma FileOpChangesBy(s: State, step: Step)
    requires Enabled(s, step)
    ensures TakesFileOp(step) ==> s.fileOp.None?
    ensures var s' := Do(s, step);
      s'.fileOp == if TakesFileOp(step) then Some(step.t)
                   else if step.App? && step.t in s.threads && step.t !in s'.threads && s.fileOp == Some(step.t)
                   then None else s.fileOp
  {
    match step
    case App(t, a) =>
      AppFileOp(s, t, a);
      hide DoApp, Settled, WriterIn;
    case Backup(b) =>
      BackupKeepsFileOp(s, b);
      hide BackupEnabled, DoBackup;
  }

  ghost predicate HolderIsInCall(s: State) {
    s.fileOp.Some? ==> s.fileOp.value in s.threads
  }

  lemma StepKeepsHolder(s: State, step: Step)
    requires HolderIsInCall(s) && Enabled(s, step)
    ensures HolderIsInCall(Do(s, step))
  {
    FileOpChangesBy(s, step);
    match step
    case App(t, a) =>
      OtherThreads(s, t, a);
      if TakesFileOp(step) {
        TakerIsInCall(s, t, a);
      } else if s.fileOp.Some? && s.fileOp.value != t {
        OtherThread(s, DoApp(s, t, a), t, s.fileOp.value);
      }
      hide AppEnabled, DoApp, SameOtherThreads, TakesFileOp;
    case Backup(b) =>
      BackupKeepsThreads(s, b);
      hide BackupEnabled, DoBackup;
  }

  lemma TakerIsInCall(s: State, t: Tid, a: AppStep)
    requires AppEnabled(s, t, a) && TakesFileOp(App(t, a))
    ensures t in DoApp(s, t, a).threads
  {
    hide Settled, WriterIn, DoRealOpen;
    match a
    case RealOpen(fd, p, creat) => BeginThreads(s, t, fd, p, creat);
    case StartUnlink(_) =>
  }

  lemma {:induction false} RunKeepsHolder(s: State, steps: seq<Step>, t: State)
    requires HolderIsInCall(s) && Reaches(s, steps, t)
    ensures HolderIsInCall(t)
    decreases |steps|
  {
    hide HolderIsInCall, Enabled, Do;
    if steps != [] {
      StepKeepsHolder(s, steps[0]);
      RunKeepsHolder(Do(s, steps[0]), steps[1..], t);
    }
  }

  /** The mutex is never left locked: who has it is inside a call; so when no call is in flight, creating opens and
      unlinks can begin. */
  lemma MutexIsNeverLost(s: State)
    requires Reachable(s)
    ensures s.fileOp.Some? ==> s.fileOp.value in s.threads
    ensures s.threads == map[] && !s.crashed ==>
      && (forall t, p :: p in s.fs ==> Enabled(s, App(t, StartUnlink(p))))
      && (forall t, fd, p :: fd !in s.kernelFds ==> Enabled(s, App(t, RealOpen(fd, p, true))))
  {
    var s0, steps :| Init(s0) && Reaches(s0, steps, s);
    RunKeepsHolder(s0, steps, s);
    hide Init, Reaches;
  }
}
