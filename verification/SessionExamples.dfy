/** Runs that show where the protocol falls short of what one might expect of it. */
module SessionExamples {
  import opened Basics
  import opened Session
  import opened SessionSafety
  import opened SessionTheorems

  lemma {:induction false} ReachesConcat(s: State, xs: seq<Step>, t: State, ys: seq<Step>, u: State)
    requires Reaches(s, xs, t) && Reaches(t, ys, u)
    ensures Reaches(s, xs + ys, u)
    decreases |xs|
  {
    hide Enabled, Do;
    if xs == [] {
      assert xs + ys == ys;
    } else {
      ReachesConcat(Do(s, xs[0]), xs[1..], t, ys, u);
      assert (xs + ys)[1..] == xs[1..] + ys;
    }
  }

  /** One more step at the end of a run. */
  lemma ReachableStep(s: State, step: Step)
    requires Reachable(s) && Enabled(s, step)
    ensures Reachable(Do(s, step))
  {
    var s0, steps :| Init(s0) && Reaches(s0, steps, s);
    assert Reaches(s, [step], Do(s, step)) by {
      assert [step][1..] == [];
    }
    ReachesConcat(s0, steps, s, [step], Do(s, step));
  }

  /** Nothing is in progress. */
  predicate Calm(s: State) {
    s.threads == map[] && s.fileOp.None? && !s.crashed
  }

  /** What a creating open() outside a session leaves behind. */
  function Opened(s: State, fd: Fd, p: Path, sid: Sid): State {
    s.(fs := s.fs + {p}, kernelFds := s.kernelFds + {fd}, linked := s.linked[fd := p],
       fmap := s.fmap[fd := sid], table := s.table[p := sid],
       captured := s.captured - {p},
       recreated := if p in s.everUnlinked && p !in s.fs then s.recreated + {p} else s.recreated,
       srcs := s.srcs[sid := if sid in s.srcs
                             then s.srcs[sid].(count := s.srcs[sid].count + 1, refs := s.srcs[sid].refs + {ByFd(fd)})
                             else Src(p, 1, false, false, {ByFd(fd)}, 0, false)])
  }

  function OpenedKernel(s: State, fd: Fd, p: Path): State {
    s.(fs := s.fs + {p}, kernelFds := s.kernelFds + {fd}, linked := s.linked[fd := p], captured := s.captured - {p},
       recreated := if p in s.everUnlinked && p !in s.fs then s.recreated + {p} else s.recreated)
  }

  lemma RealOpenRuns(s: State, t: Tid, fd: Fd, p: Path)
    requires Reachable(s) && Calm(s) && fd !in s.kernelFds
    ensures Reachable(OpenedKernel(s, fd, p).(threads := map[t := Opening(fd, p)], fileOp := Some(t)))
  {
    hide Reachable;
    ReachableStep(s, App(t, RealOpen(fd, p, true)));
  }

  lemma RealpathRuns(s: State, t: Tid, fd: Fd, p: Path)
    requires Reachable(s) && s.threads == map[t := Opening(fd, p)] && p in s.fs && !s.crashed
    ensures Reachable(s.(threads := map[t := Resolved(fd, p)]))
  {
    hide Reachable;
    assert s.threads[t := Resolved(fd, p)] == map[t := Resolved(fd, p)];
    ReachableStep(s, App(t, Realpath));
  }

  lemma GetRuns(s: State, t: Tid, fd: Fd, p: Path, sid: Sid)
    requires Reachable(s) && s.threads == map[t := Resolved(fd, p)] && !s.crashed && !s.cp.CopyCreating?
    requires CanGet(s, p, sid) && sid == SidFor(s, p, sid)
    ensures Reachable(GetOrCreate(s, p, sid, ByThread(t)).(threads := map[t := Referenced(fd, sid)]))
  {
    hide Reachable;
    assert s.threads[t := Referenced(fd, sid)] == map[t := Referenced(fd, sid)];
    ReachableStep(s, App(t, GetSource(sid)));
    assert GetOrCreate(s, p, sid, ByThread(t)).threads == s.threads;
  }

  lemma PutRuns(s: State, t: Tid, fd: Fd, sid: Sid)
    requires Reachable(s) && s.threads == map[t := Referenced(fd, sid)] && !s.crashed && !WriterIn(s.cp)
    requires sid in s.srcs
    ensures Reachable(MoveRef(s, sid, ByThread(t), ByFd(fd)).(
      fmap := s.fmap[fd := sid], threads := map[t := Mapped(fd, sid)]))
  {
    hide Reachable;
    assert s.threads[t := Mapped(fd, sid)] == map[t := Mapped(fd, sid)];
    ReachableStep(s, App(t, Put));
  }

  lemma EnterOpenRuns(s: State, t: Tid, fd: Fd, sid: Sid)
    requires Reachable(s) && s.threads == map[t := Mapped(fd, sid)] && !s.crashed && !s.session && s.cp.NotStarted?
    requires sid in s.srcs && s.fileOp == Some(t)
    ensures Reachable(s.(threads := map[], fileOp := None))
  {
    hide Reachable;
    assert s.threads - {t} == map[];
    ReachableStep(s, App(t, EnterOpen(true)));
  }

  lemma OpenedRefs(s: State, t: Tid, fd: Fd, p: Path, sid: Sid)
    requires if p in s.table then s.table[p] == sid && sid in s.srcs && ByThread(t) !in s.srcs[sid].refs
             else sid !in s.srcs
    ensures MoveRef(GetOrCreate(s, p, sid, ByThread(t)), sid, ByThread(t), ByFd(fd)).srcs == Opened(s, fd, p, sid).srcs
    ensures GetOrCreate(s, p, sid, ByThread(t)).table == Opened(s, fd, p, sid).table
  {
    if p in s.table {
      var refs := s.srcs[sid].refs;
      assert refs + {ByThread(t)} - {ByThread(t)} + {ByFd(fd)} == refs + {ByFd(fd)};
    } else {
      assert {ByThread(t)} - {ByThread(t)} + {ByFd(fd)} == {ByFd(fd)};
    }
  }

  lemma OpenRuns(s: State, t: Tid, fd: Fd, p: Path, sid: Sid)
    requires Reachable(s) && Calm(s) && s.cp.NotStarted? && !s.session && fd !in s.kernelFds
    requires if p in s.table then s.table[p] == sid && sid in s.srcs && ByThread(t) !in s.srcs[sid].refs
             else sid !in s.srcs
    ensures Reachable(Opened(s, fd, p, sid))
  {
    hide Reachable;
    RealOpenRuns(s, t, fd, p);
    var s1 := OpenedKernel(s, fd, p).(threads := map[t := Opening(fd, p)], fileOp := Some(t));
    RealpathRuns(s1, t, fd, p);
    var s2 := s1.(threads := map[t := Resolved(fd, p)]);
    GetRuns(s2, t, fd, p, sid);
    var s3 := GetOrCreate(s2, p, sid, ByThread(t)).(threads := map[t := Referenced(fd, sid)]);
    PutRuns(s3, t, fd, sid);
    var s4 := MoveRef(s3, sid, ByThread(t), ByFd(fd)).(
      fmap := s3.fmap[fd := sid], threads := map[t := Mapped(fd, sid)]);
    EnterOpenRuns(s4, t, fd, sid);
    OpenedRefs(s, t, fd, p, sid);
    assert s4.(threads := map[], fileOp := None) == Opened(s, fd, p, sid);
  }

  function StillLinked(s: State, p: Path): map<Fd, Path> {
    map fd | fd in s.linked && s.linked[fd] != p :: s.linked[fd]
  }

  /** unlink() up to the point where it waits for the session and the table. */
  function UnlinkWaiting(s: State, t: Tid, p: Path, sid: Sid): State
    requires CanGet(s, p, sid)
  {
    GetOrCreate(s, p, sid, ByThread(t)).(
      fs := s.fs - {p}, everUnlinked := s.everUnlinked + {p}, goneSincePick := s.goneSincePick + {p},
      linked := StillLinked(s, p), fileOp := Some(t), threads := map[t := UnlinkReferenced(p, sid)])
  }

  lemma StartUnlinkRuns(s: State, t: Tid, p: Path)
    requires Reachable(s) && Calm(s) && p in s.fs
    ensures Reachable(s.(threads := map[t := Unlinking(p)], fileOp := Some(t)))
  {
    hide Reachable;
    ReachableStep(s, App(t, StartUnlink(p)));
  }

  lemma RealUnlinkRuns(s: State, t: Tid, p: Path)
    requires Reachable(s) && !s.crashed && s.threads == map[t := Unlinking(p)]
    ensures Reachable(s.(threads := map[t := Unlinked(p)], fs := s.fs - {p}, everUnlinked := s.everUnlinked + {p},
                         goneSincePick := s.goneSincePick + {p}, linked := StillLinked(s, p)))
  {
    hide Reachable;
    assert s.threads[t := Unlinked(p)] == map[t := Unlinked(p)];
    ReachableStep(s, App(t, RealUnlink(true)));
  }

  lemma UnlinkGetRuns(s: State, t: Tid, p: Path, sid: Sid)
    requires Reachable(s) && s.threads == map[t := Unlinked(p)] && !s.crashed && CanGet(s, p, sid)
    requires sid == SidFor(s, p, sid)
    ensures Reachable(GetOrCreate(s, p, sid, ByThread(t)).(threads := map[t := UnlinkReferenced(p, sid)]))
  {
    hide Reachable;
    assert s.threads[t := UnlinkReferenced(p, sid)] == map[t := UnlinkReferenced(p, sid)];
    ReachableStep(s, App(t, UnlinkGet(sid)));
  }

  lemma UnlinkRuns(s: State, t: Tid, p: Path, sid: Sid)
    requires Reachable(s) && Calm(s) && p in s.fs && CanGet(s, p, sid) && sid == SidFor(s, p, sid)
    ensures Reachable(UnlinkWaiting(s, t, p, sid))
  {
    hide Reachable;
    StartUnlinkRuns(s, t, p);
    var s1 := s.(threads := map[t := Unlinking(p)], fileOp := Some(t));
    RealUnlinkRuns(s1, t, p);
    var s2 := s1.(threads := map[t := Unlinked(p)], fs := s.fs - {p}, everUnlinked := s.everUnlinked + {p},
                  goneSincePick := s.goneSincePick + {p}, linked := StillLinked(s, p));
    hide Calm, GetOrCreate, StillLinked, UnlinkWaiting;
    UnlinkGetRuns(s2, t, p, sid);
    UnlinkWaits(s, t, p, sid);
  }

  lemma UnlinkWaits(s: State, t: Tid, p: Path, sid: Sid)
    requires CanGet(s, p, sid)
    ensures var s2 := s.(threads := map[t := Unlinked(p)], fileOp := Some(t), fs := s.fs - {p},
                         linked := StillLinked(s, p), everUnlinked := s.everUnlinked + {p},
                         goneSincePick := s.goneSincePick + {p});
      CanGet(s2, p, sid) && SidFor(s2, p, sid) == SidFor(s, p, sid) &&
      GetOrCreate(s2, p, sid, ByThread(t)).(threads := map[t := UnlinkReferenced(p, sid)])
        == UnlinkWaiting(s, t, p, sid)
  {
    hide StillLinked;
  }

  function Start(cfg: Config, fs: set<Path>): State {
    State(cfg, fs, {}, {}, map[], map[], map[], map[], None, false, false, NotStarted, {}, {}, {}, map[], {},
          false, false, false, false)
  }

  lemma StartIsReachable(cfg: Config, fs: set<Path>)
    ensures Reachable(Start(cfg, fs))
  {
    assert Init(Start(cfg, fs)) && Reaches(Start(cfg, fs), [], Start(cfg, fs));
  }

  lemma BackupStarts(s: State)
    requires Reachable(s) && Calm(s) && s.cp.NotStarted?
    ensures Reachable(s.(session := true, cp := Preparing(0)))
  {
    hide Reachable;
    ReachableStep(s, Backup(StartBackup));
  }

  predicate MissesDestination(s: State, fd: Fd) {
    && fd in s.fmap && fd in s.linked && Settled(s, fd) && s.fmap[fd] in s.srcs && !s.srcs[s.fmap[fd]].dest
    && !Exempt(s, s.fmap[fd])
  }

  /** With an excluded file on descriptor 0, the file on descriptor 1 gets no destination, although it is in the
      source, not excluded, still linked, and nothing failed: leaving the loop at the excluded file ends prepare. */
  lemma ExcludedFileEndsPrepare()
    ensures exists s :: Reachable(s) && Copied(s.cp) && !s.ioFailed && MissesDestination(s, 1)
  {
    hide Reachable;
    var s0 := Start(Config(iset{"x", "y"}, iset{"x"}, iset{"x"}), {});
    StartIsReachable(s0.cfg, {});
    OpenRuns(s0, 0, 0, "x", 0);
    var s1 := Opened(s0, 0, "x", 0);
    OpenRuns(s1, 0, 1, "y", 1);
    var s2 := Opened(s1, 1, "y", 1);
    BackupStarts(s2);
    var s3 := s2.(session := true, cp := Preparing(0));
    assert 0 in s3.fmap;
    ReachableStep(s3, Backup(PrepareOne(true)));
    var s := Do(s3, Backup(PrepareOne(true)));
    assert 1 in s.fmap && s.fmap[1] == 1 && Settled(s, 1);
  }

  /** An unlink() that cannot create its destination leaves a count that nobody holds; and nobody is told, so that the
      session goes on. */
  lemma FailedUnlinkLeaks()
    ensures exists s :: Reachable(s) && Calm(s) && s.cp.Copying? && s.captureOn
                        && 0 in s.srcs && s.srcs[0].count == 1 && s.srcs[0].refs == {}
  {
    hide Reachable;
    var s0 := Start(Config(iset{"x"}, iset{}, iset{}), {"x"});
    StartIsReachable(s0.cfg, {"x"});
    BackupStarts(s0);
    var s1 := s0.(session := true, cp := Preparing(0));
    ReachableStep(s1, Backup(PrepareEnd));
    var s2 := Do(s1, Backup(PrepareEnd));
    UnlinkRuns(s2, 0, "x", 0);
    var s3 := UnlinkWaiting(s2, 0, "x", 0);
    ReachableStep(s3, App(0, CaptureUnlink(false, true)));
    var s := Do(s3, App(0, CaptureUnlink(false, true)));
    assert s.threads == map[] && s.srcs[0].refs == {};
  }

  /** "x" was opened, unlinked outside a session, and opened again: two descriptors, one marked object. */
  function Reused(): State {
    Start(Config(iset{"x"}, iset{}, iset{}), {"x"}).(
      kernelFds := {0, 1}, fmap := map[0 := 0, 1 := 0], table := map["x" := 0],
      srcs := map[0 := Src("x", 2, true, false, {ByFd(0), ByFd(1)}, 0, false)],
      everUnlinked := {"x"}, recreated := {"x"},
      linked := map[1 := "x"], goneSincePick := {"x"})
  }

  function UnlinkedOnce(): State {
    Start(Reused().cfg, {}).(
      kernelFds := {0}, fmap := map[0 := 0], table := map["x" := 0], everUnlinked := {"x"}, goneSincePick := {"x"},
      srcs := map[0 := Src("x", 1, true, false, {ByFd(0)}, 0, false)])
  }

  /** An unlink() outside a session marks the object and drops its own reference. */
  lemma UncapturedUnlink(s: State)
    requires s.threads == map[0 := UnlinkReferenced("x", 0)] && s.fileOp == Some(0) && !s.session
    requires s.srcs == map[0 := Src("x", 2, false, false, {ByFd(0), ByThread(0)}, 0, false)]
    ensures DoCaptureUnlink(s, 0, "x", 0, true, true) ==
      s.(threads := map[], fileOp := None, srcs := map[0 := Src("x", 1, true, false, {ByFd(0)}, 0, false)])
  {
    assert {ByFd(0), ByThread(0)} - {ByThread(0)} == {ByFd(0)};
  }

  /** "x" is open, on descriptor 0. */
  function OnceOpen(): State {
    Opened(Start(Reused().cfg, {}), 0, "x", 0)
  }

  lemma UnlinkedOnceIs()
    ensures var s := UnlinkWaiting(OnceOpen(), 0, "x", 0);
      && s.srcs == map[0 := Src("x", 2, false, false, {ByFd(0), ByThread(0)}, 0, false)]
      && UnlinkedOnce() == s.(threads := map[], fileOp := None, srcs := UnlinkedOnce().srcs)
  {
    assert {ByFd(0)} + {ByThread(0)} == {ByFd(0), ByThread(0)};
    assert {} + {"x"} - {"x"} == {} && {} + {"x"} == {"x"};
  }

  lemma UnlinkedOnceIsReachable()
    ensures Reachable(UnlinkedOnce())
  {
    hide Reachable, DoCaptureUnlink;
    OnceOpenIsReachable();
    UnlinkRuns(OnceOpen(), 0, "x", 0);
    var s := UnlinkWaiting(OnceOpen(), 0, "x", 0);
    UnlinkedOnceIs();
    ReachableStep(s, App(0, CaptureUnlink(true, true)));
    UncapturedUnlink(s);
  }

  lemma OnceOpenIsReachable()
    ensures Reachable(OnceOpen())
  {
    hide Reachable;
    var s0 := Start(Reused().cfg, {});
    StartIsReachable(s0.cfg, {});
    OpenRuns(s0, 0, 0, "x", 0);
  }

  lemma ReusedIsReachable()
    ensures Reachable(Reused())
  {
    hide Reachable;
    UnlinkedOnceIsReachable();
    OpenRuns(UnlinkedOnce(), 0, 1, "x", 0);
    assert {ByFd(0)} + {ByFd(1)} == {ByFd(0), ByFd(1)};
    assert {0} + {1} == {0, 1} && {} + {"x"} == {"x"};
    assert Opened(UnlinkedOnce(), 1, "x", 0) == Reused();
  }

  /** prepare makes no destination for the marked object. */
  lemma PrepareMarkedRuns(s: State, fd: Fd, sid: Sid)
    requires Reachable(s) && s.cp == Preparing(fd) && !s.crashed && s.threads == map[] && MappedTo(s, fd, sid)
    requires sid in s.srcs && s.srcs[sid].unlinked && s.srcs[sid].name in s.cfg.inSource
    requires s.srcs[sid].name !in s.cfg.backupExcluded
    ensures Reachable(s.(cp := Preparing(fd + 1)))
  {
    hide Reachable;
    assert s.srcs[sid := s.srcs[sid]] == s.srcs;
    assert TryCreate(s, sid, true).(cp := Preparing(fd + 1)) == s.(cp := Preparing(fd + 1));
    hide TryCreate;
    ReachableStep(s, Backup(PrepareOne(true)));
  }

  lemma ReusedCopying()
    ensures Reachable(Reused().(session := true, captureOn := true, cp := Copying))
  {
    hide Reachable;
    ReusedIsReachable();
    BackupStarts(Reused());
    var s0 := Reused().(session := true, cp := Preparing(0));
    PrepareMarkedRuns(s0, 0, 0);
    PrepareMarkedRuns(s0.(cp := Preparing(1)), 1, 0);
    ReachableStep(s0.(cp := Preparing(2)), Backup(PrepareEnd));
  }

  /** unlink() of the second "x" then follows the destination that is not there. */
  lemma ReusedNameCrashes()
    ensures exists s :: Reachable(s) && s.crashed && !s.ioFailed
  {
    hide Reachable;
    ReusedCopying();
    var s0 := Reused().(session := true, captureOn := true, cp := Copying);
    UnlinkRuns(s0, 0, "x", 0);
    var s1 := UnlinkWaiting(s0, 0, "x", 0);
    ReachableStep(s1, App(0, CaptureUnlink(true, true)));
    assert Do(s1, App(0, CaptureUnlink(true, true))).crashed;
  }

  // ----- a file made again while the object of its old name lives -----

  /** open() during a session, of a name whose object is marked: no destination is made. */
  lemma OpenMarkedRuns(s: State, t: Tid, fd: Fd, p: Path, sid: Sid)
    requires Reachable(s) && Calm(s) && s.session && s.cp.CopyReferenced? && fd !in s.kernelFds
    requires p in s.cfg.inSource && p !in s.cfg.backupExcluded
    requires p in s.table && s.table[p] == sid && sid in s.srcs && s.srcs[sid].unlinked && s.srcs[sid].name == p
    requires ByThread(t) !in s.srcs[sid].refs
    ensures Reachable(Opened(s, fd, p, sid))
  {
    hide Reachable;
    RealOpenRuns(s, t, fd, p);
    var s1 := OpenedKernel(s, fd, p).(threads := map[t := Opening(fd, p)], fileOp := Some(t));
    RealpathRuns(s1, t, fd, p);
    var s2 := s1.(threads := map[t := Resolved(fd, p)]);
    GetRuns(s2, t, fd, p, sid);
    var s3 := GetOrCreate(s2, p, sid, ByThread(t)).(threads := map[t := Referenced(fd, sid)]);
    PutRuns(s3, t, fd, sid);
    var s4 := MoveRef(s3, sid, ByThread(t), ByFd(fd)).(
      fmap := s3.fmap[fd := sid], threads := map[t := Mapped(fd, sid)]);
    OpenedRefs(s, t, fd, p, sid);
    assert s4 == Opened(s, fd, p, sid).(threads := map[t := Mapped(fd, sid)], fileOp := Some(t));
    hide GetOrCreate, MoveRef, OpenedKernel;
    EnterMarkedRuns(Opened(s, fd, p, sid), t, fd, p, sid);
  }

  lemma EnterMarked(s: State, t: Tid, fd: Fd, p: Path, sid: Sid)
    requires s.session && p in s.fs && p in s.cfg.inSource && p !in s.cfg.backupExcluded
    requires sid in s.srcs && s.srcs[sid].unlinked && s.srcs[sid].name == p && s.threads == map[] && s.fileOp.None?
    ensures DoEnterOpen(s.(threads := map[t := Mapped(fd, sid)], fileOp := Some(t)), t, fd, sid, true)
      == s.(threads := map[t := Creating(fd, sid, true)], fileOp := Some(t))
    ensures DoCreateOnOpen(s.(threads := map[t := Creating(fd, sid, true)], fileOp := Some(t)), t, sid, true, true) == s
  {
    assert map[t := Mapped(fd, sid)][t := Creating(fd, sid, true)] == map[t := Creating(fd, sid, true)];
    assert map[t := Creating(fd, sid, true)] - {t} == map[];
    assert s.srcs[sid := s.srcs[sid]] == s.srcs;
  }

  lemma EnterMarkedRuns(s: State, t: Tid, fd: Fd, p: Path, sid: Sid)
    requires Reachable(s.(threads := map[t := Mapped(fd, sid)], fileOp := Some(t)))
    requires Calm(s) && s.session && s.cp.CopyReferenced? && p in s.fs && p in s.cfg.inSource
    requires p !in s.cfg.backupExcluded
    requires sid in s.srcs && s.srcs[sid].unlinked && s.srcs[sid].name == p
    ensures Reachable(s)
  {
    EnterMarked(s, t, fd, p, sid);
    hide Reachable, DoEnterOpen, DoCreateOnOpen;
    ReachableStep(s.(threads := map[t := Mapped(fd, sid)], fileOp := Some(t)), App(t, EnterOpen(true)));
    ReachableStep(s.(threads := map[t := Creating(fd, sid, true)], fileOp := Some(t)), App(t, CreateOnOpen(true)));
  }

  lemma MarkedStays(s: State, sid: Sid, cp: BackupPc)
    requires sid in s.srcs && s.srcs[sid].unlinked && s.srcs[sid].count > 1
    ensures TryCreate(s, sid, true).(cp := cp) == s.(cp := cp)
    ensures TryRemoveDest(s, sid).(cp := cp) == s.(cp := cp)
  {
    assert s.srcs[sid := s.srcs[sid]] == s.srcs;
  }

  /** The copier goes on with the marked object: it finds a destination, that of the file that is gone, and copies. */
  lemma CopyMarkedRuns(s: State, p: Path, sid: Sid)
    requires Reachable(s) && Calm(s) && s.cp == CopyReferenced(p, sid) && p in s.fs
    requires sid in s.srcs && s.srcs[sid].unlinked && s.srcs[sid].dest && s.srcs[sid].count > 1
    ensures Reachable(s.(cp := CopyDropping(p, sid, true)))
  {
    hide Reachable;
    ReachableStep(s, Backup(CopyOpen));
    var s1 := s.(cp := CopyOpened(p, sid));
    ReachableStep(s1, Backup(CopyLock));
    var s2 := s.(cp := CopyCreating(p, sid, true));
    ReachableStep(s2, Backup(CopyCreate(true)));
    MarkedStays(s2, sid, CopyData(p, sid));
    CopiedMarked(s, p, sid);
  }

  lemma CopiedMarked(s: State, p: Path, sid: Sid)
    requires sid in s.srcs && Reachable(DoCopyCreate(s.(cp := CopyCreating(p, sid, true)), p, sid, true, true))
    requires Calm(s)
    requires s.srcs[sid].unlinked && s.srcs[sid].dest && s.srcs[sid].count > 1
    ensures Reachable(s.(cp := CopyDropping(p, sid, true)))
  {
    hide Reachable;
    var s2, s3, s4 := s.(cp := CopyCreating(p, sid, true)), s.(cp := CopyData(p, sid)), s.(cp := CopyDetaching(p, sid));
    MarkedStays(s2, sid, CopyData(p, sid));
    MarkedStays(s4, sid, CopyDropping(p, sid, true));
    assert DoCopyCreate(s2, p, sid, true, true) == s3 by {
      TryCreateFields(s2, sid, true);
      assert TryCreate(s2, sid, true).srcs[sid].dest;
      hide TryCreate;
    }
    hide TryRemoveDest, TryCreate, DoCopyCreate;
    ReachableStep(s3, Backup(CopyDataEnd(true)));
    ReachableStep(s4, Backup(CopyDetach));
  }

  /** A session over the single file "x", with the copier about to look at it. */
  function Picked(): State {
    Start(Config(iset{"x"}, iset{}, iset{}), {"x"}).(session := true, captureOn := true, cp := CopyStatted("x"))
  }

  lemma PickedIsReachable()
    ensures Reachable(Picked())
  {
    hide Reachable;
    var s0 := Start(Config(iset{"x"}, iset{}, iset{}), {"x"});
    StartIsReachable(s0.cfg, {"x"});
    BackupStarts(s0);
    var s1 := s0.(session := true, cp := Preparing(0));
    ReachableStep(s1, Backup(PrepareEnd));
    var s2 := s0.(session := true, captureOn := true, cp := Copying);
    assert Do(s1, Backup(PrepareEnd)) == s2;
    ReachableStep(s2, Backup(CopyPick("x")));
    assert Do(s2, Backup(CopyPick("x"))) == Picked();
  }

  /** "x" was unlinked while the copier held its object. */
  function UnlinkedInHand(): State {
    Picked().(cp := CopyReferenced("x", 0), fs := {}, table := map["x" := 0],
              srcs := map[0 := Src("x", 1, true, true, {ByCopier}, 0, false)],
              everUnlinked := {"x"}, goneSincePick := {"x"}, captured := {"x"})
  }

  lemma CapturedInHand(s: State)
    requires s.threads == map[0 := UnlinkReferenced("x", 0)] && s.fileOp == Some(0) && ShouldCaptureUnlink(s, "x")
    requires s.srcs == map[0 := Src("x", 2, false, false, {ByCopier, ByThread(0)}, 0, false)] && s.backup == {}
    ensures DoCaptureUnlink(s, 0, "x", 0, true, true) ==
      s.(threads := map[], fileOp := None, captured := s.captured + {"x"},
         srcs := map[0 := Src("x", 1, true, true, {ByCopier}, 0, false)])
  {
    assert {ByCopier, ByThread(0)} - {ByThread(0)} == {ByCopier};
    assert {} + {"x"} - {"x"} == {};
  }

  /** The copier has its reference, and nothing else has happened. */
  function InHand(): State {
    Picked().(cp := CopyReferenced("x", 0), table := map["x" := 0],
              srcs := map[0 := Src("x", 1, false, false, {ByCopier}, 0, false)])
  }

  lemma InHandIsReachable()
    ensures Reachable(InHand())
  {
    hide Reachable;
    PickedIsReachable();
    ReachableStep(Picked(), Backup(CopyGet(0)));
    assert Do(Picked(), Backup(CopyGet(0))) == InHand();
  }

  lemma UnlinkedInHandIs()
    ensures var s := UnlinkWaiting(InHand(), 0, "x", 0);
      && s.srcs == map[0 := Src("x", 2, false, false, {ByCopier, ByThread(0)}, 0, false)]
      && UnlinkedInHand()
           == s.(threads := map[], fileOp := None, captured := s.captured + {"x"}, srcs := UnlinkedInHand().srcs)
  {
    assert {ByCopier} + {ByThread(0)} == {ByCopier, ByThread(0)};
    assert {"x"} - {"x"} == {} && {} + {"x"} == {"x"};
  }

  lemma UnlinkedInHandIsReachable()
    ensures Reachable(UnlinkedInHand())
  {
    hide Reachable;
    InHandIsReachable();
    UnlinkRuns(InHand(), 0, "x", 0);
    var s := UnlinkWaiting(InHand(), 0, "x", 0);
    UnlinkedInHandIs();
    hide DoCaptureUnlink;
    ReachableStep(s, App(0, CaptureUnlink(true, true)));
    CapturedInHand(s);
  }

  /** The copier is finished with "x", which exists, without error; and "x" is not in the backup. */
  predicate NotDelivered(s: State) {
    && s.cp.CopyDropping? && s.cp.ok && s.cp.path == "x" && !s.ioFailed && !s.aborted && s.captureOn
    && "x" in s.fs && "x" in s.cfg.inSource && "x" !in s.cfg.backupExcluded && "x" !in s.backup
  }

  /** The file is made again while the copier still holds the old object: its open() has returned, it keeps its name,
      nothing failed, the copier finishes it, and it is not in the backup. */
  lemma RecreatedDuringCopyIsLost()
    ensures exists s :: Reachable(s) && NotDelivered(s)
                        && 0 in s.fmap && 0 in s.linked && s.linked[0] == "x" && Settled(s, 0)
  {
    hide Reachable;
    UnlinkedInHandIsReachable();
    OpenMarkedRuns(UnlinkedInHand(), 0, 0, "x", 0);
    var s := Opened(UnlinkedInHand(), 0, "x", 0);
    CopyMarkedRuns(s, "x", 0);
    var s' := s.(cp := CopyDropping("x", 0, true));
    assert Settled(s', 0);
  }

  function Missed(): State {
    Picked().(fs := {}, everUnlinked := {"x"}, goneSincePick := {"x"}, captured := {"x"})
  }

  function MissedInHand(): State {
    Missed().(cp := CopyDropping("x", 0, true), table := map["x" := 0],
              srcs := map[0 := Src("x", 1, false, false, {ByCopier}, 0, false)])
  }

  /** The captured unlink() of a file that nobody else holds leaves nothing behind. */
  lemma FreedUnlink()
    ensures DoCaptureUnlink(UnlinkWaiting(Picked(), 0, "x", 0), 0, "x", 0, true, true) == Missed()
  {
    var s' := DoCaptureUnlink(UnlinkWaiting(Picked(), 0, "x", 0), 0, "x", 0, true, true);
    assert {"x"} - {"x"} == {} && {} + {"x"} == {"x"};
    assert s'.srcs == map[] && s'.table == map[] && s'.threads == map[] && s'.backup == {};
    assert s'.linked == map[];
  }

  lemma MissedIsReachable()
    ensures Reachable(Missed())
  {
    hide Reachable;
    PickedIsReachable();
    UnlinkRuns(Picked(), 0, "x", 0);
    var s1 := UnlinkWaiting(Picked(), 0, "x", 0);
    FreedUnlink();
    hide DoCaptureUnlink;
    ReachableStep(s1, App(0, CaptureUnlink(true, true)));
  }

  lemma MissedInHandIsReachable()
    ensures Reachable(MissedInHand())
  {
    hide Reachable;
    MissedIsReachable();
    ReachableStep(Missed(), Backup(CopyGet(0)));
    var s3 := MissedInHand().(cp := CopyReferenced("x", 0));
    assert Do(Missed(), Backup(CopyGet(0))) == s3;
    ReachableStep(s3, Backup(CopyOpen));
  }

  /** A file the copier found missing may be made again before the copier lets go of its object: the object is not
      marked, and the file is not in the backup, yet.  The open() that made it is still on its way. */
  lemma MissedFileComesBack()
    ensures exists s :: Reachable(s) && NotDelivered(s) && s.cp.sid in s.srcs && !s.srcs[s.cp.sid].unlinked
  {
    hide Reachable;
    MissedInHandIsReachable();
    RealOpenRuns(MissedInHand(), 0, 0, "x");
  }

  // ----- a file that the backup has alone -----

  /** No session, and "x" exists. */
  function Quiet(): State {
    Start(Config(iset{"x"}, iset{}, iset{}), {"x"})
  }

  /** open() of "x" has resolved the name. */
  function OpenResolved(): State {
    Quiet().(kernelFds := {0}, linked := map[0 := "x"], threads := map[1 := Resolved(0, "x")])
  }

  lemma OpenResolvedIsReachable()
    ensures Reachable(OpenResolved())
  {
    hide Reachable;
    var s0 := Quiet();
    StartIsReachable(s0.cfg, s0.fs);
    ReachableStep(s0, App(1, RealOpen(0, "x", false)));
    var s1 := s0.(kernelFds := {0}, linked := map[0 := "x"], threads := map[1 := Opening(0, "x")]);
    assert Do(s0, App(1, RealOpen(0, "x", false))) == s1;
    ReachableStep(s1, App(1, Realpath));
    assert s1.threads[1 := Resolved(0, "x")] == map[1 := Resolved(0, "x")];
  }

  /** Meanwhile "x" has been unlinked, by a call that has returned. */
  function OpenOvertaken(): State {
    OpenResolved().(fs := {}, everUnlinked := {"x"}, goneSincePick := {"x"}, linked := map[])
  }

  /** unlink() of "x", while that open() waits. */
  function Overtaking(unlink: Pc): State {
    OpenOvertaken().(threads := map[1 := Resolved(0, "x"), 0 := unlink], fileOp := Some(0))
  }

  /** unlink() up to where it waits for the table. */
  lemma OvertakingIsReachable()
    ensures Reachable(Overtaking(Unlinked("x")))
  {
    hide Reachable;
    OpenResolvedIsReachable();
    var s0 := OpenResolved();
    ReachableStep(s0, App(0, StartUnlink("x")));
    var s1 := s0.(threads := map[1 := Resolved(0, "x"), 0 := Unlinking("x")], fileOp := Some(0));
    assert Do(s0, App(0, StartUnlink("x"))) == s1;
    ReachableStep(s1, App(0, RealUnlink(true)));
    OvertakingUnlink(s1);
  }

  lemma OvertakingUnlink(s1: State)
    requires s1 == OpenResolved().(threads := map[1 := Resolved(0, "x"), 0 := Unlinking("x")], fileOp := Some(0))
    ensures DoRealUnlink(s1, 0, "x", true) == Overtaking(Unlinked("x"))
  {
    assert s1.threads[0 := Unlinked("x")] == Overtaking(Unlinked("x")).threads;
    assert {"x"} - {"x"} == {} && {} + {"x"} == {"x"};
  }

  function OvertakingWaits(): State {
    Overtaking(UnlinkReferenced("x", 0)).(
      table := map["x" := 0], srcs := map[0 := Src("x", 1, false, false, {ByThread(0)}, 0, false)])
  }

  lemma OvertakingGets(s: State)
    requires s == Overtaking(Unlinked("x"))
    ensures CanGet(s, "x", 0) && DoUnlinkGet(s, 0, "x", 0) == OvertakingWaits()
  {
    assert s.threads[0 := UnlinkReferenced("x", 0)] == OvertakingWaits().threads;
  }

  lemma OpenOvertakenIsReachable()
    ensures Reachable(OpenOvertaken())
  {
    hide Reachable;
    OvertakingIsReachable();
    OvertakingGets(Overtaking(Unlinked("x")));
    hide DoUnlinkGet, DoCaptureUnlink, CanGet;
    ReachableStep(Overtaking(Unlinked("x")), App(0, UnlinkGet(0)));
    ReachableStep(OvertakingWaits(), App(0, CaptureUnlink(true, true)));
    OvertakenUnlink(OvertakingWaits());
  }

  /** The unlink() of a file that nobody else holds, outside a session. */
  lemma OvertakenUnlink(s: State)
    requires s == OvertakingWaits()
    ensures DoCaptureUnlink(s, 0, "x", 0, true, true) == OpenOvertaken()
  {
    var s' := DoCaptureUnlink(s, 0, "x", 0, true, true);
    assert s'.threads == map[1 := Resolved(0, "x")] && s'.srcs == map[] && s'.table == map[];
  }

  /** open() returns: "x" is open, and gone. */
  function OpenAndGone(): State {
    OpenOvertaken().(threads := map[], fmap := map[0 := 0], table := map["x" := 0],
                     srcs := map[0 := Src("x", 1, false, false, {ByFd(0)}, 0, false)])
  }

  lemma OpenAndGoneIsReachable()
    ensures Reachable(OpenAndGone())
  {
    hide Reachable;
    OpenOvertakenIsReachable();
    GetRuns(OpenOvertaken(), 1, 0, "x", 0);
    var s1 := OpenOvertaken().(threads := map[1 := Referenced(0, 0)], table := map["x" := 0],
                               srcs := map[0 := Src("x", 1, false, false, {ByThread(1)}, 0, false)]);
    PutRuns(s1, 1, 0, 0);
    var s2 := OpenAndGone().(threads := map[1 := Mapped(0, 0)]);
    assert MoveRef(s1, 0, ByThread(1), ByFd(0)).(fmap := s1.fmap[0 := 0], threads := s2.threads) == s2 by {
      assert {ByThread(1)} - {ByThread(1)} + {ByFd(0)} == {ByFd(0)};
    }
    ReachableStep(s2, App(1, EnterOpen(true)));
    assert s2.threads - {1} == map[];
  }

  /** Prepare makes "x" in the backup, for the description that is still open, although the source has it no more;
      nobody will take it out, and nothing has failed. */
  lemma PrepareMakesStray()
    ensures exists s :: Reachable(s) && s.cp.Copying? && s.captureOn && !s.ioFailed && s.threads == map[]
                        && "x" in s.cfg.inSource && "x" !in s.fs && "x" in s.backup
  {
    hide Reachable;
    OpenAndGoneIsReachable();
    BackupStarts(OpenAndGone());
    var s1 := OpenAndGone().(session := true, cp := Preparing(0));
    assert 0 in s1.fmap;
    ReachableStep(s1, Backup(PrepareOne(true)));
    var s2 := s1.(cp := Preparing(1), backup := {"x"}, srcs := map[0 := Src("x", 1, false, true, {ByFd(0)}, 0, false)]);
    assert {} + {"x"} == {"x"};
    assert Do(s1, Backup(PrepareOne(true))) == s2;
    ReachableStep(s2, Backup(PrepareEnd));
    assert Do(s2, Backup(PrepareEnd)) == s2.(cp := Copying, captureOn := true);
  }
}
