/** What every run of the session protocol keeps.

    The invariant is stated one thread, one descriptor, one source_file at a time.  A step has to
    establish it for the thread that takes it; `Guarantee` says what it leaves alone, and that is
    enough for everybody else. */
module SessionSafety {
  import opened Basics
  import opened Session

  predicate Live(s: State, sid: Sid, r: Ref) {
    sid in s.srcs && r in s.srcs[sid].refs
  }

  predicate Known(s: State, p: Path) {
    p in s.fs || p in s.everUnlinked
  }

  /** An object no destination is promised for. */
  predicate Exempt(s: State, sid: Sid)
    requires sid in s.srcs
  {
    var src := s.srcs[sid];
    src.unlinked || src.failed || src.name !in s.cfg.inSource || src.name in s.cfg.backupExcluded
  }

  /** If the descriptor's file still has its name, it is this one. */
  predicate LinkedAs(s: State, fd: Fd, p: Path) {
    fd in s.linked ==> s.linked[fd] == p
  }

  predicate MappedTo(s: State, fd: Fd, sid: Sid) {
    fd in s.fmap && s.fmap[fd] == sid
  }

  predicate Unmapped(s: State, fd: Fd) {
    fd in s.kernelFds && fd !in s.fmap
  }

  /** The table's entry for the path has been through an unlink(). */
  predicate MarkedUnlinked(s: State, p: Path) {
    p in s.table && s.table[p] in s.srcs && s.srcs[s.table[p]].unlinked
  }

  predicate GoneFrom(s: State, t: Tid, p: Path) {
    && s.fileOp == Some(t) && p !in s.fs && p in s.everUnlinked && p !in s.captured
    && (MarkedUnlinked(s, p) ==> p in s.recreated)
  }

  predicate ThreadOk(s: State, t: Tid, pc: Pc) {
    match pc
    case Opening(fd, p) => Unmapped(s, fd) && Known(s, p) && LinkedAs(s, fd, p)
    case Resolved(fd, p) => Unmapped(s, fd) && Known(s, p) && LinkedAs(s, fd, p)
    case Referenced(fd, sid) => Unmapped(s, fd) && Live(s, sid, ByThread(t)) && LinkedAs(s, fd, s.srcs[sid].name)
    case Mapped(fd, sid) => MappedTo(s, fd, sid)
    case Creating(fd, sid, ok) =>
      && MappedTo(s, fd, sid) && Live(s, sid, ByFd(fd)) && s.session && !WriterIn(s.cp) && !s.cp.CopyCreating?
      && (if ok then s.srcs[sid].name !in s.captured else Exempt(s, sid) || fd !in s.linked)
    case Closing(fd, sid) => MappedTo(s, fd, sid)
    case Erasing(fd, sid) => MappedTo(s, fd, sid)
    case Dropping(fd, sid) => Unmapped(s, fd) && Live(s, sid, ByThread(t))
    case RealClosing(fd) => Unmapped(s, fd)
    case Unlinking(p) => s.fileOp == Some(t) && p in s.fs
    case Unlinked(p) => GoneFrom(s, t, p)
    case UnlinkReferenced(p, sid) => GoneFrom(s, t, p) && Live(s, sid, ByThread(t)) && s.srcs[sid].name == p
  }

  predicate CountedBy(pc: Pc, sid: Sid) {
    (pc.Referenced? || pc.Dropping? || pc.UnlinkReferenced?) && pc.sid == sid
  }

  predicate CopierHolds(cp: BackupPc) {
    cp.CopyReferenced? || cp.CopyOpened? || cp.CopyCreating? || cp.CopyData? || cp.CopyDetaching? || cp.CopyDropping?
  }

  predicate HeldBy(s: State, r: Ref, sid: Sid) {
    match r
    case ByFd(fd) => MappedTo(s, fd, sid)
    case ByThread(t) => t in s.threads && CountedBy(s.threads[t], sid)
    case ByCopier => CopierHolds(s.cp) && s.cp.sid == sid
  }

  /** One source_file: its table entry, its count against the history of who holds references, its name. */
  ghost predicate SrcOk(s: State, sid: Sid)
    requires sid in s.srcs
  {
    var src := s.srcs[sid];
    && src.name in s.table && s.table[src.name] == sid
    && src.count == |src.refs| + src.leaked && src.count > 0
    && (src.leaked > 0 ==> src.failed)
    && (forall r :: r in src.refs ==> HeldBy(s, r, sid))
    && NameOk(s, src.name, src.unlinked)
  }

  predicate NameOk(s: State, p: Path, unlinked: bool) {
    && Known(s, p)
    && (unlinked ==> p in s.everUnlinked && (p !in s.fs || p in s.recreated))
  }

  predicate Copied(cp: BackupPc) {
    cp.Copying? || cp.CopyStatted? || CopierHolds(cp)
  }

  ghost predicate Covered(s: State, fd: Fd) {
    fd in s.fmap && fd in s.linked && Settled(s, fd) && (s.cp.Preparing? ==> fd < s.cp.next)
  }

  predicate HasDestination(s: State, sid: Sid) {
    sid in s.srcs && (s.srcs[sid].dest || Exempt(s, sid))
  }

  predicate CoverActive(s: State) {
    !s.aborted && (s.cp.Preparing? || Copied(s.cp))
  }

  ghost predicate ThreadsOk(s: State) {
    forall t :: t in s.threads ==> ThreadOk(s, t, s.threads[t])
  }

  ghost predicate ApartOk(s: State) {
    && (forall t, u, fd :: t in s.threads && u in s.threads && OwnsFd(s.threads[t], fd) && OwnsFd(s.threads[u], fd) ==>
          t == u)
    && (forall t, u :: t in s.threads && u in s.threads && s.threads[t].Creating? && s.threads[u].Creating? ==> t == u)
  }

  predicate FdOk(s: State, fd: Fd, sid: Sid) {
    fd in s.kernelFds && Live(s, sid, ByFd(fd)) && LinkedAs(s, fd, s.srcs[sid].name)
  }

  ghost predicate FdsOk(s: State) {
    forall fd :: fd in s.fmap ==> FdOk(s, fd, s.fmap[fd])
  }

  ghost predicate SrcsOk(s: State) {
    forall sid :: sid in s.srcs ==> SrcOk(s, sid)
  }

  ghost predicate TableOk(s: State) {
    forall p :: p in s.table ==> s.table[p] in s.srcs && s.srcs[s.table[p]].name == p
  }

  predicate CopierOk(s: State) {
    && (CopierHolds(s.cp) ==> Live(s, s.cp.sid, ByCopier) && s.srcs[s.cp.sid].name == s.cp.path)
    && (s.cp.CopyCreating? && s.cp.present ==> s.cp.path !in s.captured)
    && (s.cp.CopyStatted? ==> Known(s, s.cp.path))
  }

  ghost predicate CoverOk(s: State) {
    CoverActive(s) ==> forall fd :: Covered(s, fd) ==> HasDestination(s, s.fmap[fd])
  }

  ghost predicate GoneOk(s: State) {
    && (forall p :: p in s.captured ==> p !in s.fs && p !in s.backup && p in s.everUnlinked)
    && (s.cp.NotStarted? || s.cp.Preparing? ==> s.captured == {} && !s.captureOn)
    && (s.session <==> !s.cp.NotStarted? && !s.cp.Done?)
    && (s.crashed ==> s.recreated != {})
    && (forall fd :: fd in s.linked ==> fd in s.kernelFds && s.linked[fd] in s.fs)
  }

  ghost predicate Inv(s: State) {
    ThreadsOk(s) && ApartOk(s) && FdsOk(s) && SrcsOk(s) && TableOk(s) && CopierOk(s) && CoverOk(s) && GoneOk(s)
  }

  // ----- what a step leaves alone -----

  /** The actor of a step: an application thread, or the backup thread. */
  predicate Owns(s: State, who: Option<Tid>, fd: Fd) {
    who.Some? && who.value in s.threads && OwnsFd(s.threads[who.value], fd)
  }

  predicate Mine(s: State, who: Option<Tid>, r: Ref) {
    match r
    case ByFd(fd) => Owns(s, who, fd)
    case ByThread(t) => who == Some(t)
    case ByCopier => who.None?
  }

  ghost predicate SameOthers(s: State, s': State, who: Option<Tid>) {
    && (forall u :: who != Some(u) ==>
          (u in s'.threads <==> u in s.threads) && (u in s.threads ==> s'.threads[u] == s.threads[u]))
    && (forall fd :: fd in s.kernelFds && !Owns(s, who, fd) ==> fd in s'.kernelFds)
    && (forall fd :: !Owns(s, who, fd) ==> (fd in s'.fmap <==> fd in s.fmap))
    && (forall fd :: fd in s.fmap && !Owns(s, who, fd) ==> s'.fmap[fd] == s.fmap[fd])
    && (forall fd :: fd in s.kernelFds && fd in s'.linked ==> fd in s.linked && s'.linked[fd] == s.linked[fd])
    && (who.Some? ==> s'.cp == s.cp && s'.session == s.session)
  }

  /** An object keeps its name, and its marks. */
  predicate SameMarks(src: Src, src': Src) {
    src'.name == src.name && (src.unlinked ==> src'.unlinked) && (src.failed ==> src'.failed)
  }

  ghost predicate SameObjects(s: State, s': State, who: Option<Tid>) {
    && (forall sid, r :: Live(s, sid, r) && !Mine(s, who, r) ==> Live(s', sid, r))
    && (forall sid :: sid in s.srcs && sid in s'.srcs ==> SameMarks(s.srcs[sid], s'.srcs[sid]))
  }

  ghost predicate SameWorld(s: State, s': State, who: Option<Tid>) {
    && s'.cfg == s.cfg && s.everUnlinked <= s'.everUnlinked && s.recreated <= s'.recreated
    && (forall p :: Known(s, p) ==> Known(s', p))
    && (s'.captured <= s.captured || TableFree(s))
    && (NoReaders(s) || who.Some? || (s'.session && !WriterIn(s'.cp) && !s'.cp.CopyCreating?))
    && (forall u :: s.fileOp == Some(u) && who != Some(u) ==>
          s'.fileOp == s.fileOp && s'.fs == s.fs && s'.captured <= s.captured)
    && (forall u, p :: s.fileOp == Some(u) && who != Some(u) && MarkedUnlinked(s', p) ==> MarkedUnlinked(s, p))
  }

  ghost predicate FreshClaims(s: State, s': State, who: Option<Tid>) {
    && (forall fd :: Owns(s', who, fd) && !Owns(s, who, fd) ==> Settled(s, fd))
    && (who.Some? && who.value in s'.threads && s'.threads[who.value].Creating? ==> TableFree(s))
  }

  lemma OtherThreadStaysOk(s: State, s': State, who: Option<Tid>, u: Tid)
    requires ThreadsOk(s) && ApartOk(s) && FdsOk(s) && SameOthers(s, s', who) && SameObjects(s, s', who)
    requires SameWorld(s, s', who)
    requires u in s.threads && who != Some(u)
    ensures ThreadOk(s', u, s.threads[u])
  {
    var pc := s.threads[u];
    assert ThreadOk(s, u, pc);
    if pc.Creating? {
      assert !NoReaders(s);
    }
  }

  lemma ThreadsStayApart(s: State, s': State, who: Option<Tid>)
    requires ApartOk(s) && SameOthers(s, s', who) && FreshClaims(s, s', who)
    ensures ApartOk(s')
  {
    forall t, u, fd | t in s'.threads && u in s'.threads && OwnsFd(s'.threads[t], fd) && OwnsFd(s'.threads[u], fd)
      ensures t == u
    {
      if who == Some(t) && who != Some(u) && !Owns(s, who, fd) {
        assert Owns(s', who, fd);
      } else if who == Some(u) && who != Some(t) && !Owns(s, who, fd) {
        assert Owns(s', who, fd);
      }
    }
  }

  lemma ThreadsStayOk(s: State, s': State, who: Option<Tid>)
    requires ThreadsOk(s) && ApartOk(s) && FdsOk(s)
    requires SameOthers(s, s', who) && SameObjects(s, s', who) && SameWorld(s, s', who) && FreshClaims(s, s', who)
    requires who.Some? && who.value in s'.threads ==> ThreadOk(s', who.value, s'.threads[who.value])
    ensures ThreadsOk(s') && ApartOk(s')
  {
    forall u | u in s'.threads && who != Some(u)
      ensures ThreadOk(s', u, s'.threads[u])
    {
      OtherThreadStaysOk(s, s', who, u);
    }
    ThreadsStayApart(s, s', who);
    hide ThreadOk, FdsOk, SameObjects, SameWorld;
  }

  lemma FdsStayOk(s: State, s': State, who: Option<Tid>)
    requires FdsOk(s) && SameOthers(s, s', who) && SameObjects(s, s', who)
    requires forall fd :: fd in s'.fmap && Owns(s, who, fd) ==> FdOk(s', fd, s'.fmap[fd])
    ensures FdsOk(s')
  {
  }

  /** References of others stay held: their holders do not move. */
  lemma OthersStillHold(s: State, s': State, who: Option<Tid>, r: Ref, sid: Sid)
    requires SameOthers(s, s', who) && HeldBy(s, r, sid) && !Mine(s, who, r)
    ensures HeldBy(s', r, sid)
  {
  }

  ghost predicate NamesStay(s: State, s': State) {
    forall p, unlinked :: NameOk(s, p, unlinked) ==> NameOk(s', p, unlinked)
  }

  /** A source_file whose references the step does not touch. */
  lemma SrcStaysOk(s: State, s': State, who: Option<Tid>, sid: Sid)
    requires sid in s.srcs && SrcOk(s, sid) && sid in s'.srcs
    requires SameOthers(s, s', who) && NamesStay(s, s')
    requires s'.srcs[sid] == s.srcs[sid].(dest := s'.srcs[sid].dest, failed := s'.srcs[sid].failed)
    requires s.srcs[sid].failed ==> s'.srcs[sid].failed
    requires s.srcs[sid].name in s'.table && s'.table[s.srcs[sid].name] == sid
    requires forall r :: r in s.srcs[sid].refs && Mine(s, who, r) ==> HeldBy(s', r, sid)
    ensures SrcOk(s', sid)
  {
    forall r | r in s.srcs[sid].refs
      ensures HeldBy(s', r, sid)
    {
      if !Mine(s, who, r) {
        OthersStillHold(s, s', who, r, sid);
      }
    }
  }

  /** The hash table and the source_files are as before, except perhaps for destinations. */
  ghost predicate ObjectsUntouched(s: State, s': State) {
    && s'.table == s.table && s'.srcs.Keys == s.srcs.Keys
    && forall sid :: sid in s.srcs ==>
         && s'.srcs[sid] == s.srcs[sid].(dest := s'.srcs[sid].dest, failed := s'.srcs[sid].failed)
         && (s.srcs[sid].failed ==> s'.srcs[sid].failed)
  }

  lemma UntouchedObjectsStayOk(s: State, s': State, who: Option<Tid>)
    requires SrcsOk(s) && TableOk(s) && SameOthers(s, s', who) && ObjectsUntouched(s, s') && NamesStay(s, s')
    requires forall sid, r :: Live(s, sid, r) && Mine(s, who, r) ==> HeldBy(s', r, sid)
    ensures SrcsOk(s') && TableOk(s')
  {
    forall sid | sid in s'.srcs
      ensures SrcOk(s', sid)
    {
      assert SrcOk(s, sid);
      hide SrcOk, SameOthers, NamesStay;
      forall r | r in s.srcs[sid].refs && Mine(s, who, r)
        ensures HeldBy(s', r, sid)
      {
        assert Live(s, sid, r);
      }
      assert s.srcs[sid].name in s'.table && s'.table[s.srcs[sid].name] == sid by {
        TableEntry(s, sid);
      }
      SrcStaysOk(s, s', who, sid);
    }
  }

  lemma TableEntry(s: State, sid: Sid)
    requires SrcsOk(s) && sid in s.srcs
    ensures s.srcs[sid].name in s.table && s.table[s.srcs[sid].name] == sid
  {
    assert SrcOk(s, sid);
  }

  lemma CoverStays(s: State, s': State, t: Tid)
    requires CoverOk(s) && FdsOk(s) && SameOthers(s, s', Some(t)) && (CoverActive(s') ==> CoverActive(s))
    requires forall fd :: Owns(s, Some(t), fd) && CoverActive(s') && Covered(s', fd) ==> HasDestination(s', s'.fmap[fd])
    requires forall fd :: fd in s.fmap && !Owns(s, Some(t), fd) && HasDestination(s, s.fmap[fd]) ==>
      HasDestination(s', s.fmap[fd])
    ensures CoverOk(s')
  {
    hide HasDestination, CoverActive;
    forall fd | CoverActive(s') && Covered(s', fd)
      ensures HasDestination(s', s'.fmap[fd])
    {
      if !Owns(s, Some(t), fd) {
        assert Covered(s, fd);
      }
    }
  }

  /** The invariant after a step, from what the step itself has to show. */
  lemma Assemble(s: State, s': State, who: Option<Tid>)
    requires Inv(s) && SameOthers(s, s', who) && SameObjects(s, s', who) && SameWorld(s, s', who)
    requires FreshClaims(s, s', who)
    requires who.Some? && who.value in s'.threads ==> ThreadOk(s', who.value, s'.threads[who.value])
    requires forall fd :: fd in s'.fmap && Owns(s, who, fd) ==> FdOk(s', fd, s'.fmap[fd])
    requires SrcsOk(s') && TableOk(s') && CopierOk(s') && CoverOk(s') && GoneOk(s')
    ensures Inv(s')
  {
    ThreadsStayOk(s, s', who);
    FdsStayOk(s, s', who);
  }

  /** Every source_file but one, and its table entry, is as before. */
  ghost predicate OthersUntouched(s: State, s': State, target: Sid) {
    && (forall sid :: sid != target ==>
          (sid in s'.srcs <==> sid in s.srcs) && (sid in s.srcs ==> s'.srcs[sid] == s.srcs[sid]))
    && (forall p :: p in s.table && s.table[p] != target ==> p in s'.table && s'.table[p] == s.table[p])
    && (forall p :: p in s'.table && s'.table[p] != target ==> p in s.table && s.table[p] == s'.table[p])
  }

  ghost predicate EntriesOk(s: State, target: Sid) {
    forall p :: p in s.table && s.table[p] == target ==> target in s.srcs && s.srcs[target].name == p
  }

  ghost predicate RefsOnlyTo(s: State, who: Option<Tid>, target: Sid) {
    forall sid, r :: Live(s, sid, r) && Mine(s, who, r) ==> sid == target
  }

  lemma ObjectsStayOk(s: State, s': State, who: Option<Tid>, target: Sid)
    requires SrcsOk(s) && TableOk(s) && SameOthers(s, s', who) && NamesStay(s, s')
    requires OthersUntouched(s, s', target)
    requires RefsOnlyTo(s, who, target) && EntriesOk(s', target) && (target in s'.srcs ==> SrcOk(s', target))
    ensures SrcsOk(s') && TableOk(s')
  {
    forall sid | sid in s'.srcs && sid != target
      ensures SrcOk(s', sid)
    {
      assert SrcOk(s, sid);
      TableEntry(s, sid);
      hide SrcOk, SameOthers, NamesStay;
      assert forall r :: r in s.srcs[sid].refs ==> Live(s, sid, r);
      SrcStaysOk(s, s', who, sid);
    }
  }

  /** What a step of thread t leaves to everybody else, and the parts of the invariant nobody owns. */
  ghost predicate Frame(s: State, s': State, t: Tid) {
    && SameOthers(s, s', Some(t)) && SameWorld(s, s', Some(t)) && FreshClaims(s, s', Some(t))
    && SameObjects(s, s', Some(t))
    && NamesStay(s, s') && CopierOk(s') && GoneOk(s')
  }

  /** What the step has to show about its own program counter and descriptors. */
  ghost predicate OwnOk(s: State, s': State, t: Tid) {
    && (t in s'.threads ==> ThreadOk(s', t, s'.threads[t]))
    && forall fd :: fd in s'.fmap && Owns(s, Some(t), fd) ==> FdOk(s', fd, s'.fmap[fd])
  }

  /** Destinations that were promised are still there, and descriptors that settle have one. */
  ghost predicate CoverKept(s: State, s': State, t: Tid) {
    && (CoverActive(s') ==> CoverActive(s))
    && (forall fd :: Owns(s, Some(t), fd) && CoverActive(s') && Covered(s', fd) ==> HasDestination(s', s'.fmap[fd]))
    && (forall fd :: fd in s.fmap && !Owns(s, Some(t), fd) && HasDestination(s, s.fmap[fd]) ==>
          HasDestination(s', s.fmap[fd]))
  }

  /** A step of a thread that changes nothing in the source_files but destinations. */
  lemma DestStepKeepsInv(s: State, s': State, t: Tid)
    requires Inv(s) && Frame(s, s', t) && ObjectsUntouched(s, s') && OwnOk(s, s', t) && CoverKept(s, s', t)
    requires forall sid, r :: Live(s, sid, r) && Mine(s, Some(t), r) ==> HeldBy(s', r, sid)
    ensures Inv(s')
  {
    assert SrcsOk(s) && TableOk(s) && CoverOk(s) && FdsOk(s);
    hide Inv, FdsOk, ThreadOk, NamesStay, CopierOk, GoneOk, SameOthers, SameObjects, FreshClaims, SameWorld,
      HasDestination, CoverActive,
      Covered, ObjectsUntouched, HeldBy, SrcsOk, TableOk, CoverOk;
    UntouchedObjectsStayOk(s, s', Some(t));
    CoverStays(s, s', t);
    Assemble(s, s', Some(t));
  }

  /** The one source_file that the step changes. */
  ghost predicate TargetOk(s: State, s': State, t: Tid, target: Sid) {
    && OthersUntouched(s, s', target) && RefsOnlyTo(s, Some(t), target) && EntriesOk(s', target)
    && (target in s'.srcs ==> SrcOk(s', target))
  }

  /** A step of a thread that changes one source_file. */
  lemma TargetStepKeepsInv(s: State, s': State, t: Tid, target: Sid)
    requires Inv(s) && Frame(s, s', t) && TargetOk(s, s', t, target) && OwnOk(s, s', t) && CoverKept(s, s', t)
    ensures Inv(s')
  {
    assert SrcsOk(s) && TableOk(s) && CoverOk(s) && FdsOk(s);
    hide Inv, FdsOk, ThreadOk, NamesStay, CopierOk, GoneOk, SameOthers, SameObjects, FreshClaims, SameWorld,
      HasDestination, CoverActive,
      Covered, OthersUntouched, SrcOk, HeldBy, RefsOnlyTo, EntriesOk, SrcsOk, TableOk, CoverOk;
    ObjectsStayOk(s, s', Some(t), target);
    CoverStays(s, s', t);
    Assemble(s, s', Some(t));
  }

  // ----- the outcomes of the longer steps -----

  lemma TryCreateFields(s: State, sid: Sid, io: bool)
    requires sid in s.srcs
    ensures var s1 := TryCreate(s, sid, io);
      && s1 == s.(srcs := s1.srcs, backup := s1.backup, ioFailed := s1.ioFailed)
      && sid in s1.srcs && s1.srcs[sid].count == s.srcs[sid].count
  {
  }

  /** What holds of every outcome of a round of prepare holds of the round. */
  lemma PrepareCases(s: State, next: Fd, io: bool, P: State -> bool)
    requires next in s.fmap ==> s.fmap[next] in s.srcs
    requires P(s.(cp := Preparing(next + 1)))
    requires next in s.fmap ==> P(TryCreate(s, s.fmap[next], true).(cp := Preparing(next + 1)))
    requires P(s.(cp := Copying, captureOn := true, aborted := true))
    requires P(s.(cp := Failed, ioFailed := true, prepareFailed := true, captureOn := false))
    ensures P(DoPrepare(s, next, io))
  {
    hide TryCreate;
  }

  lemma CopyCreateCases(s: State, p: Path, sid: Sid, present: bool, io: bool, P: State -> bool)
    requires sid in s.srcs
    requires P(s.(cp := CopyDetaching(p, sid)))
    requires CreateFails(s, sid, io) ==> P(s.(ioFailed := true, cp := CopyDropping(p, sid, false)))
    requires present && !CreateFails(s, sid, io) ==> P(TryCreate(s, sid, io).(cp := CopyData(p, sid)))
    requires present && !CreateFails(s, sid, io) ==> P(TryCreate(s, sid, io).(cp := CopyDetaching(p, sid)))
    ensures P(DoCopyCreate(s, p, sid, present, io))
  {
    TryCreateFields(s, sid, io);
    hide TryCreate, CreateFails;
  }

  // ----- application steps that touch no source_file -----

  function After(s: State, t: Tid, next: Option<Pc>): map<Tid, Pc> {
    if next.Some? then s.threads[t := next.value] else s.threads - {t}
  }

  /** The descriptors the thread claims next were its own before, or nobody's. */
  ghost predicate MayClaim(s: State, t: Tid, pc: Pc) {
    && (forall fd :: OwnsFd(pc, fd) ==> Owns(s, Some(t), fd) || Settled(s, fd))
    && (pc.Creating? ==> TableFree(s))
  }

  predicate CountsNothing(s: State, t: Tid) {
    t in s.threads ==> !s.threads[t].Referenced? && !s.threads[t].Dropping? && !s.threads[t].UnlinkReferenced?
  }

  predicate SameFields(s: State, s': State) {
    && s'.cfg == s.cfg && s'.backup == s.backup && s'.fmap == s.fmap && s'.table == s.table && s'.srcs == s.srcs
    && s'.session == s.session && s'.cp == s.cp && s'.aborted == s.aborted && s'.crashed == s.crashed
  }

  predicate SameFiles(s: State, s': State) {
    && s'.fs == s.fs && s'.everUnlinked == s.everUnlinked && s'.recreated == s.recreated && s'.captured == s.captured
    && forall fd :: fd in s'.linked ==>
         fd in s.linked && s'.linked[fd] == s.linked[fd] && (fd in s.kernelFds ==> fd in s'.kernelFds)
  }

  lemma SameOthersByFields(s: State, s': State, t: Tid, next: Option<Pc>)
    requires s'.threads == After(s, t, next) && s'.fmap == s.fmap && s'.cp == s.cp && s'.session == s.session
    requires forall fd :: fd in s.kernelFds && !Owns(s, Some(t), fd) ==> fd in s'.kernelFds
    requires forall fd :: fd in s.kernelFds && fd in s'.linked ==> fd in s.linked && s'.linked[fd] == s.linked[fd]
    ensures SameOthers(s, s', Some(t))
  {
  }

  lemma FreshClaimsByFields(s: State, s': State, t: Tid, next: Option<Pc>)
    requires s'.threads == After(s, t, next) && (next.Some? ==> MayClaim(s, t, next.value))
    ensures FreshClaims(s, s', Some(t))
  {
  }

  lemma SameWorldByFields(s: State, s': State, t: Tid)
    requires CopierOk(s) && GoneOk(s) && SameFields(s, s') && SameFiles(s, s')
    requires s'.captureOn ==> s.captureOn
    requires s'.fileOp == s.fileOp || s.fileOp.None? || s.fileOp == Some(t)
    ensures SameWorld(s, s', Some(t)) && NamesStay(s, s') && CopierOk(s') && GoneOk(s')
  {
  }

  lemma QuietHoldings(s: State, s': State, t: Tid)
    requires SrcsOk(s) && SameFields(s, s') && CountsNothing(s, t)
    ensures forall sid, r :: Live(s, sid, r) && Mine(s, Some(t), r) ==> HeldBy(s', r, sid)
  {
    forall sid, r | Live(s, sid, r) && Mine(s, Some(t), r)
      ensures HeldBy(s', r, sid)
    {
      assert SrcOk(s, sid);
    }
  }

  /** A thread lets go of a mapped descriptor only while no destination is promised. */
  ghost predicate KeepsMapped(s: State, s': State, t: Tid, next: Option<Pc>) {
    CoverActive(s') ==>
      forall fd :: fd in s.fmap && Owns(s, Some(t), fd) ==> next.Some? && OwnsFd(next.value, fd)
  }

  lemma QuietCover(s: State, s': State, t: Tid, next: Option<Pc>)
    requires CoverOk(s) && FdsOk(s) && SameFields(s, s') && SameOthers(s, s', Some(t))
    requires s'.threads == After(s, t, next) && KeepsMapped(s, s', t, next)
    ensures CoverOk(s')
  {
    hide CoverOk;
    forall fd | CoverActive(s') && fd in s.fmap && Owns(s, Some(t), fd)
      ensures !Settled(s', fd)
    {
      assert OwnsFd(s'.threads[t], fd);
    }
    CoverStays(s, s', t);
  }

  lemma QuietStep(s: State, s': State, t: Tid, next: Option<Pc>)
    requires Inv(s) && SameFields(s, s') && SameWorld(s, s', Some(t)) && NamesStay(s, s') && CopierOk(s') && GoneOk(s')
    requires CountsNothing(s, t) && s'.threads == After(s, t, next)
    requires next.Some? ==> MayClaim(s, t, next.value) && ThreadOk(s', t, next.value)
    requires forall fd :: fd in s.kernelFds && (!Owns(s, Some(t), fd) || fd in s.fmap) ==> fd in s'.kernelFds
    requires forall fd :: fd in s.kernelFds && fd in s'.linked ==> fd in s.linked && s'.linked[fd] == s.linked[fd]
    requires KeepsMapped(s, s', t, next)
    ensures Inv(s')
  {
    SameOthersByFields(s, s', t, next);
    FreshClaimsByFields(s, s', t, next);
    QuietHoldings(s, s', t);
    assert forall fd :: fd in s.fmap ==> FdOk(s', fd, s'.fmap[fd]);
    hide ThreadsOk, ApartOk, SrcsOk, TableOk, CopierOk, CoverOk, GoneOk, SameOthers, FreshClaims, NamesStay, ThreadOk,
      HasDestination, Covered, HeldBy, Mine, KeepsMapped;
    UntouchedObjectsStayOk(s, s', Some(t));
    QuietCover(s, s', t, next);
    hide SameWorld;
    Assemble(s, s', Some(t));
  }

  lemma OwnPc(s: State, t: Tid)
    requires ThreadsOk(s) && t in s.threads
    ensures ThreadOk(s, t, s.threads[t])
  {
  }

  lemma NewFdIsUnclaimed(s: State, fd: Fd)
    requires ThreadsOk(s) && FdsOk(s) && fd !in s.kernelFds
    ensures fd !in s.fmap && Settled(s, fd)
  {
    forall u | u in s.threads
      ensures !OwnsFd(s.threads[u], fd)
    {
      assert ThreadOk(s, u, s.threads[u]);
    }
  }

  lemma RealOpenWorld(s: State, t: Tid, fd: Fd, p: Path, creat: bool)
    requires CopierOk(s) && GoneOk(s) && AppEnabled(s, t, RealOpen(fd, p, creat))
    ensures var s' := DoRealOpen(s, t, fd, p, creat);
      SameWorld(s, s', Some(t)) && NamesStay(s, s') && CopierOk(s') && GoneOk(s')
  {
  }

  lemma RealOpenKeepsInv(s: State, t: Tid, fd: Fd, p: Path, creat: bool)
    requires Inv(s) && AppEnabled(s, t, RealOpen(fd, p, creat))
    ensures Inv(DoRealOpen(s, t, fd, p, creat))
  {
    NewFdIsUnclaimed(s, fd);
    RealOpenWorld(s, t, fd, p, creat);
    hide Inv, SameWorld, NamesStay, CopierOk, GoneOk, Settled;
    QuietStep(s, DoRealOpen(s, t, fd, p, creat), t, Some(Opening(fd, p)));
  }

  lemma RealpathFound(s: State, t: Tid, fd: Fd, p: Path)
    requires Inv(s) && t in s.threads && s.threads[t] == Opening(fd, p) && p in s.fs
    ensures Inv(Goto(s, t, Resolved(fd, p)))
  {
    OwnPc(s, t);
    var s' := Goto(s, t, Resolved(fd, p));
    assert CopierOk(s) && GoneOk(s);
    hide Inv, CopierOk, GoneOk, SameWorld, NamesStay, Settled;
    SameWorldByFields(s, s', t);
    QuietStep(s, s', t, Some(Resolved(fd, p)));
  }

  lemma RealpathMissing(s: State, t: Tid, fd: Fd, p: Path)
    requires Inv(s) && t in s.threads && s.threads[t] == Opening(fd, p)
    ensures Inv(Finish(s.(captureOn := false), t))
  {
    OwnPc(s, t);
    var s' := Finish(s.(captureOn := false), t);
    assert CopierOk(s) && GoneOk(s);
    hide Inv, CopierOk, GoneOk, SameWorld, NamesStay, Settled;
    SameWorldByFields(s, s', t);
    QuietStep(s, s', t, None);
  }

  lemma MappedFacts(s: State, t: Tid, fd: Fd, sid: Sid)
    requires FdsOk(s) && SrcsOk(s) && t in s.threads && MappedTo(s, fd, sid)
    ensures FdOk(s, fd, sid) && Known(s, s.srcs[sid].name)
  {
    assert SrcOk(s, sid);
  }

  lemma StartCloseKeepsInv(s: State, t: Tid, fd: Fd)
    requires Inv(s) && t !in s.threads && fd in s.kernelFds && Settled(s, fd)
    ensures Inv(DoStartClose(s, t, fd))
  {
    var s' := DoStartClose(s, t, fd);
    assert CopierOk(s) && GoneOk(s);
    hide Inv, CopierOk, GoneOk, SameWorld, NamesStay, Settled;
    SameWorldByFields(s, s', t);
    QuietStep(s, s', t, Some(s'.threads[t]));
  }

  lemma RealCloseKeepsInv(s: State, t: Tid, fd: Fd)
    requires Inv(s) && t in s.threads && s.threads[t] == RealClosing(fd)
    ensures Inv(DoRealClose(s, t, fd))
  {
    OwnPc(s, t);
    var s' := DoRealClose(s, t, fd);
    assert CopierOk(s) && GoneOk(s);
    hide Inv, CopierOk, GoneOk, SameWorld, NamesStay, Settled;
    SameWorldByFields(s, s', t);
    QuietStep(s, s', t, None);
  }

  lemma StartUnlinkKeepsInv(s: State, t: Tid, p: Path)
    requires Inv(s) && t !in s.threads && s.fileOp.None? && p in s.fs
    ensures Inv(Goto(s.(fileOp := Some(t)), t, Unlinking(p)))
  {
    var s' := Goto(s.(fileOp := Some(t)), t, Unlinking(p));
    assert CopierOk(s) && GoneOk(s);
    hide Inv, CopierOk, GoneOk, SameWorld, NamesStay, Settled;
    SameWorldByFields(s, s', t);
    QuietStep(s, s', t, Some(Unlinking(p)));
  }

  lemma RealUnlinkWorld(s: State, t: Tid, p: Path)
    requires ThreadsOk(s) && CopierOk(s) && GoneOk(s) && t in s.threads && s.threads[t] == Unlinking(p)
    ensures var s' := DoRealUnlink(s, t, p, true);
      SameWorld(s, s', Some(t)) && NamesStay(s, s') && CopierOk(s') && GoneOk(s')
  {
    OwnPc(s, t);
    hide ThreadsOk;
  }

  lemma NewlyGone(s: State, s': State, t: Tid, p: Path)
    requires SrcsOk(s) && TableOk(s) && GoneOk(s) && s.fileOp == Some(t) && p in s.fs
    requires s'.table == s.table && s'.srcs == s.srcs && s'.captured == s.captured && s'.recreated == s.recreated
    requires s'.fileOp == s.fileOp && p !in s'.fs && p in s'.everUnlinked
    ensures GoneFrom(s', t, p)
  {
    if MarkedUnlinked(s, p) {
      assert SrcOk(s, s.table[p]);
    }
    hide SrcsOk;
  }

  lemma RealUnlinkPc(s: State, t: Tid, p: Path)
    requires ThreadsOk(s) && SrcsOk(s) && TableOk(s) && GoneOk(s) && t in s.threads && s.threads[t] == Unlinking(p)
    ensures GoneFrom(DoRealUnlink(s, t, p, true), t, p)
  {
    OwnPc(s, t);
    hide ThreadsOk, SrcsOk, TableOk, GoneOk, GoneFrom;
    NewlyGone(s, DoRealUnlink(s, t, p, true), t, p);
  }

  lemma RealUnlinkSucceeds(s: State, t: Tid, p: Path)
    requires Inv(s) && t in s.threads && s.threads[t] == Unlinking(p)
    ensures Inv(DoRealUnlink(s, t, p, true))
  {
    RealUnlinkWorld(s, t, p);
    RealUnlinkPc(s, t, p);
    hide Inv, CopierOk, GoneOk, SameWorld, NamesStay, Settled;
    QuietStep(s, DoRealUnlink(s, t, p, true), t, Some(Unlinked(p)));
  }

  lemma RealUnlinkFails(s: State, t: Tid, p: Path)
    requires Inv(s) && t in s.threads && s.threads[t] == Unlinking(p)
    ensures Inv(DoRealUnlink(s, t, p, false))
  {
    var s' := DoRealUnlink(s, t, p, false);
    assert CopierOk(s) && GoneOk(s);
    hide Inv, CopierOk, GoneOk, SameWorld, NamesStay, Settled;
    SameWorldByFields(s, s', t);
    QuietStep(s, s', t, None);
  }

  // ----- steps that touch one source_file -----

  /** A thread that counts nothing and whose descriptor is not mapped holds no reference. */
  lemma HoldsNothing(s: State, who: Option<Tid>)
    requires SrcsOk(s) && (who.None? ==> !CopierHolds(s.cp))
    requires who.Some? ==> CountsNothing(s, who.value) && forall fd :: fd in s.fmap ==> !Owns(s, who, fd)
    ensures forall sid, r :: Live(s, sid, r) ==> !Mine(s, who, r)
  {
    forall sid, r | Live(s, sid, r)
      ensures !Mine(s, who, r)
    {
      assert SrcOk(s, sid) && HeldBy(s, r, sid);
    }
  }

  /** What get_or_create does to the objects, whoever calls it. */
  ghost predicate Got(s: State, s': State, p: Path, newId: Sid, r: Ref)
    requires CanGet(s, p, newId)
  {
    if p in s.table then
      var src := s.srcs[s.table[p]];
      s'.table == s.table && s'.srcs == s.srcs[s.table[p] := src.(count := src.count + 1, refs := src.refs + {r})]
    else
      s'.table == s.table[p := newId] && s'.srcs == s.srcs[newId := Src(p, 1, false, false, {r}, 0, false)]
  }

  lemma GotOthers(s: State, s': State, p: Path, newId: Sid, r: Ref)
    requires TableOk(s) && CanGet(s, p, newId) && Got(s, s', p, newId, r)
    ensures OthersUntouched(s, s', SidFor(s, p, newId))
  {
  }

  lemma GotSame(s: State, s': State, who: Option<Tid>, p: Path, newId: Sid, r: Ref)
    requires TableOk(s) && CanGet(s, p, newId) && Got(s, s', p, newId, r)
    ensures SameObjects(s, s', who)
  {
    if p in s.table {
      assert SameObjects(s, s', who);
    } else {
      assert SameObjects(s, s', who);
    }
  }

  lemma GotMarks(s: State, s': State, p: Path, newId: Sid, r: Ref)
    requires TableOk(s) && CanGet(s, p, newId) && Got(s, s', p, newId, r)
    ensures forall q :: MarkedUnlinked(s', q) ==> MarkedUnlinked(s, q)
  {
  }

  lemma GotEntry(s: State, s': State, p: Path, newId: Sid, r: Ref)
    requires TableOk(s) && CanGet(s, p, newId) && Got(s, s', p, newId, r)
    ensures var sid := SidFor(s, p, newId); Live(s', sid, r) && s'.srcs[sid].name == p
    ensures EntriesOk(s', SidFor(s, p, newId))
  {
  }

  lemma GotTarget(s: State, s': State, who: Option<Tid>, p: Path, newId: Sid, r: Ref)
    requires SrcsOk(s) && TableOk(s) && CanGet(s, p, newId) && Got(s, s', p, newId, r)
    requires SameOthers(s, s', who) && NamesStay(s, s')
    requires forall sid, q :: Live(s, sid, q) ==> !Mine(s, who, q)
    requires Mine(s, who, r) && HeldBy(s', r, SidFor(s, p, newId)) && NameOk(s', p, false)
    ensures SrcOk(s', SidFor(s, p, newId))
  {
    if p in s.table {
      var sid := s.table[p];
      assert SrcOk(s, sid);
      assert r !in s.srcs[sid].refs by {
        assert !Live(s, sid, r);
      }
      forall q | q in s'.srcs[sid].refs
        ensures HeldBy(s', q, sid)
      {
        if q != r {
          assert Live(s, sid, q);
          OthersStillHold(s, s', who, q, sid);
        }
      }
      assert NameOk(s, p, s.srcs[sid].unlinked);
    }
  }

  lemma GotHasDestination(s: State, s': State, p: Path, newId: Sid, r: Ref, sid: Sid)
    requires CanGet(s, p, newId) && Got(s, s', p, newId, r) && HasDestination(s, sid)
    requires s'.cfg == s.cfg
    ensures HasDestination(s', sid)
  {
  }

  predicate SameControl(s: State, s': State) {
    && s'.cfg == s.cfg && s'.session == s.session && s'.cp == s.cp
    && s'.aborted == s.aborted && s'.crashed == s.crashed
  }

  lemma WorldByFields(s: State, s': State, t: Tid)
    requires GoneOk(s) && SameControl(s, s') && SameFiles(s, s')
    requires (s'.captureOn ==> s.captureOn) && forall p :: p in s'.backup && p !in s.backup ==> p !in s.captured
    requires s'.fileOp == s.fileOp || s.fileOp.None? || s.fileOp == Some(t)
    requires s.fileOp == Some(t) || forall q :: MarkedUnlinked(s', q) ==> MarkedUnlinked(s, q)
    ensures SameWorld(s, s', Some(t)) && NamesStay(s, s') && GoneOk(s')
  {
  }

  lemma CopierStaysOk(s: State, s': State, t: Tid)
    requires CopierOk(s) && SameObjects(s, s', Some(t)) && s'.cp == s.cp && s'.captured <= s.captured
    requires s.fs <= s'.fs && s.everUnlinked <= s'.everUnlinked
    ensures CopierOk(s')
  {
    if CopierHolds(s.cp) {
      assert Live(s', s.cp.sid, ByCopier);
    }
  }

  lemma OthersByFields(s: State, s': State, t: Tid, next: Option<Pc>, fd: Fd)
    requires s'.threads == After(s, t, next) && s'.cp == s.cp && s'.session == s.session
    requires s'.kernelFds == s.kernelFds && s'.linked == s.linked
    requires s'.fmap == s.fmap || (t in s.threads && OwnsFd(s.threads[t], fd) && s'.fmap - {fd} == s.fmap - {fd})
    ensures SameOthers(s, s', Some(t))
  {
    assert forall f :: f != fd ==> (f in s'.fmap <==> f in s'.fmap - {fd}) && (f in s.fmap <==> f in s.fmap - {fd});
    assert forall f :: f != fd && f in s.fmap && f in s'.fmap ==>
      s'.fmap[f] == (s'.fmap - {fd})[f] && s.fmap[f] == (s.fmap - {fd})[f];
  }

  lemma GotDestinations(s: State, s': State, p: Path, newId: Sid, r: Ref)
    requires CanGet(s, p, newId) && Got(s, s', p, newId, r)
    requires s'.cfg == s.cfg
    ensures forall sid :: HasDestination(s, sid) ==> HasDestination(s', sid)
  {
    forall sid | HasDestination(s, sid)
      ensures HasDestination(s', sid)
    {
      GotHasDestination(s, s', p, newId, r, sid);
    }
  }

  /** Everything but the objects is as before, except for the thread's own program counter. */
  ghost predicate ObjectStep(s: State, s': State, t: Tid, pc: Pc) {
    && t in s.threads && MayClaim(s, t, pc)
    && s' == s.(threads := s.threads[t := pc], fmap := s'.fmap, table := s'.table, srcs := s'.srcs)
  }

  lemma ObjectStepFrame(s: State, s': State, t: Tid, fd: Fd, pc: Pc)
    requires CopierOk(s) && GoneOk(s) && ObjectStep(s, s', t, pc) && SameObjects(s, s', Some(t))
    requires s'.fmap == s.fmap || (OwnsFd(s.threads[t], fd) && s'.fmap - {fd} == s.fmap - {fd})
    requires forall q :: MarkedUnlinked(s', q) ==> MarkedUnlinked(s, q)
    ensures Frame(s, s', t)
  {
    hide CopierOk, GoneOk, SameObjects, TableFree;
    WorldByFields(s, s', t);
    OthersByFields(s, s', t, Some(pc), fd);
    FreshClaimsByFields(s, s', t, Some(pc));
    CopierStaysOk(s, s', t);
    hide NamesStay, SameOthers, FreshClaims, SameWorld;
  }

  lemma ObjectStepCover(s: State, s': State, t: Tid, pc: Pc)
    requires ObjectStep(s, s', t, pc)
    requires forall fd :: fd in s.fmap && HasDestination(s, s.fmap[fd]) ==> HasDestination(s', s.fmap[fd])
    requires forall fd :: Owns(s, Some(t), fd) ==> OwnsFd(pc, fd) || fd !in s'.fmap
    ensures CoverKept(s, s', t)
  {
    hide HasDestination, MayClaim;
    forall fd | Owns(s, Some(t), fd) && OwnsFd(pc, fd)
      ensures !Settled(s', fd)
    {
      assert OwnsFd(s'.threads[t], fd);
    }
  }

  lemma GetParts(s: State, s': State, t: Tid, p: Path, newId: Sid, pc: Pc)
    requires SrcsOk(s) && TableOk(s) && CopierOk(s) && GoneOk(s)
    requires CanGet(s, p, newId) && Got(s, s', p, newId, ByThread(t)) && ObjectStep(s, s', t, pc)
    requires CountsNothing(s, t) && (forall fd :: fd in s.fmap ==> !Owns(s, Some(t), fd)) && Known(s, p)
    requires CountedBy(pc, SidFor(s, p, newId)) && s'.fmap == s.fmap
    ensures Frame(s, s', t) && TargetOk(s, s', t, SidFor(s, p, newId)) && CoverKept(s, s', t)
  {
    var r, sid := ByThread(t), SidFor(s, p, newId);
    HoldsNothing(s, Some(t));
    assert Frame(s, s', t) by {
      GotMarks(s, s', p, newId, r);
      GotSame(s, s', Some(t), p, newId, r);
      ObjectStepFrame(s, s', t, 0, pc);
    }
    assert TargetOk(s, s', t, sid) by {
      GotOthers(s, s', p, newId, r);
      GotEntry(s, s', p, newId, r);
      GotTarget(s, s', Some(t), p, newId, r);
    }
    GotDestinations(s, s', p, newId, r);
    ObjectStepCover(s, s', t, pc);
  }

  /** get_or_create by an application thread that held nothing before. */
  lemma GetKeepsInv(s: State, s': State, t: Tid, p: Path, newId: Sid, pc: Pc)
    requires Inv(s) && CanGet(s, p, newId) && Got(s, s', p, newId, ByThread(t)) && ObjectStep(s, s', t, pc)
    requires CountsNothing(s, t) && (forall fd :: fd in s.fmap ==> !Owns(s, Some(t), fd)) && Known(s, p)
    requires CountedBy(pc, SidFor(s, p, newId)) && s'.fmap == s.fmap && ThreadOk(s', t, pc)
    ensures Inv(s')
  {
    GetParts(s, s', t, p, newId, pc);
    assert OwnOk(s, s', t);
    hide *;
    TargetStepKeepsInv(s, s', t, SidFor(s, p, newId));
  }

  lemma GetSourceKeepsInv(s: State, t: Tid, fd: Fd, p: Path, newId: Sid)
    requires Inv(s) && t in s.threads && s.threads[t] == Resolved(fd, p) && CanGet(s, p, newId)
    ensures Inv(DoGetSource(s, t, fd, p, newId))
  {
    OwnPc(s, t);
    hide Inv, TableFree;
    GetKeepsInv(s, DoGetSource(s, t, fd, p, newId), t, p, newId, Referenced(fd, SidFor(s, p, newId)));
  }

  lemma UnlinkGetKeepsInv(s: State, t: Tid, p: Path, newId: Sid)
    requires Inv(s) && t in s.threads && s.threads[t] == Unlinked(p) && CanGet(s, p, newId)
    ensures Inv(DoUnlinkGet(s, t, p, newId))
  {
    OwnPc(s, t);
    hide Inv, TableFree, CanGet;
    GetKeepsInv(s, DoUnlinkGet(s, t, p, newId), t, p, newId, UnlinkReferenced(p, SidFor(s, p, newId)));
  }

  // ----- moving a reference between a thread and the fmap -----

  lemma LiveIsHeld(s: State)
    requires SrcsOk(s)
    ensures forall sid, r :: Live(s, sid, r) ==> HeldBy(s, r, sid)
  {
    forall sid, r | Live(s, sid, r)
      ensures HeldBy(s, r, sid)
    {
      assert SrcOk(s, sid);
    }
  }

  lemma MovedCount(refs: set<Ref>, from: Ref, to: Ref)
    requires from in refs && to !in refs
    ensures |refs - {from} + {to}| == |refs|
  {
  }

  ghost predicate Moved(s: State, s': State, sid: Sid, from: Ref, to: Ref)
    requires sid in s.srcs
  {
    s'.table == s.table && s'.srcs == s.srcs[sid := s.srcs[sid].(refs := s.srcs[sid].refs - {from} + {to})]
  }

  lemma MovedTarget(s: State, s': State, t: Tid, sid: Sid, from: Ref, to: Ref)
    requires SrcsOk(s) && Live(s, sid, from) && !HeldBy(s, to, sid) && Moved(s, s', sid, from, to)
    requires SameOthers(s, s', Some(t)) && NamesStay(s, s')
    requires HeldBy(s', to, sid) && forall q :: q != from && Mine(s, Some(t), q) ==> !HeldBy(s, q, sid)
    ensures SrcOk(s', sid)
  {
    var src := s.srcs[sid];
    assert SrcOk(s, sid);
    MovedCount(src.refs, from, to);
    forall q | q in s'.srcs[sid].refs
      ensures HeldBy(s', q, sid)
    {
      if q != to {
        OthersStillHold(s, s', Some(t), q, sid);
      }
    }
    assert NameOk(s, src.name, src.unlinked);
  }

  lemma MovedSame(s: State, s': State, t: Tid, sid: Sid, from: Ref, to: Ref)
    requires sid in s.srcs && Moved(s, s', sid, from, to) && Mine(s, Some(t), from)
    ensures SameObjects(s, s', Some(t)) && OthersUntouched(s, s', sid)
    ensures forall q :: MarkedUnlinked(s', q) ==> MarkedUnlinked(s, q)
  {
  }

  lemma MovedDestinations(s: State, s': State, sid: Sid, from: Ref, to: Ref)
    requires sid in s.srcs && s'.cfg == s.cfg && Moved(s, s', sid, from, to)
    ensures forall x :: HasDestination(s, x) ==> HasDestination(s', x)
  {
  }

  lemma MovedTable(s: State, s': State, sid: Sid, from: Ref, to: Ref)
    requires TableOk(s) && sid in s.srcs && Moved(s, s', sid, from, to)
    ensures EntriesOk(s', sid)
  {
  }

  /** The thread that moves the reference has no other, and no other object does. */
  ghost predicate OnlyRef(s: State, t: Tid, sid: Sid, from: Ref) {
    && (forall x, q :: q != from && Mine(s, Some(t), q) ==> !HeldBy(s, q, x))
    && (forall x :: HeldBy(s, from, x) ==> x == sid)
  }

  lemma MoveParts(s: State, s': State, t: Tid, fd: Fd, sid: Sid, from: Ref, to: Ref, pc: Pc)
    requires SrcsOk(s) && TableOk(s) && CopierOk(s) && GoneOk(s) && ObjectStep(s, s', t, pc)
    requires Live(s, sid, from) && Mine(s, Some(t), from) && !HeldBy(s, to, sid) && Moved(s, s', sid, from, to)
    requires OwnsFd(s.threads[t], fd) && s'.fmap - {fd} == s.fmap - {fd} && OwnsFd(pc, fd)
    requires HeldBy(s', to, sid) && OnlyRef(s, t, sid, from)
    ensures Frame(s, s', t) && TargetOk(s, s', t, sid) && CoverKept(s, s', t) && Live(s', sid, to)
  {
    assert Frame(s, s', t) by {
      MovedSame(s, s', t, sid, from, to);
      ObjectStepFrame(s, s', t, fd, pc);
    }
    assert TargetOk(s, s', t, sid) by {
      LiveIsHeld(s);
      MovedTable(s, s', sid, from, to);
      MovedSame(s, s', t, sid, from, to);
      MovedTarget(s, s', t, sid, from, to);
    }
    MovedDestinations(s, s', sid, from, to);
    ObjectStepCover(s, s', t, pc);
  }

  /** Everything the step has to show to move the reference. */
  ghost predicate MoveFacts(s: State, s': State, t: Tid, fd: Fd, sid: Sid, from: Ref, to: Ref, pc: Pc) {
    && ObjectStep(s, s', t, pc) && OwnOk(s, s', t)
    && Live(s, sid, from) && Mine(s, Some(t), from) && !HeldBy(s, to, sid) && Moved(s, s', sid, from, to)
    && OwnsFd(s.threads[t], fd) && s'.fmap - {fd} == s.fmap - {fd} && OwnsFd(pc, fd)
    && HeldBy(s', to, sid) && OnlyRef(s, t, sid, from)
  }

  lemma MoveKeepsInv(s: State, s': State, t: Tid, fd: Fd, sid: Sid, from: Ref, to: Ref, pc: Pc)
    requires Inv(s) && MoveFacts(s, s', t, fd, sid, from, to, pc)
    ensures Inv(s')
  {
    MoveParts(s, s', t, fd, sid, from, to, pc);
    hide *;
    TargetStepKeepsInv(s, s', t, sid);
  }

  lemma PutFacts(s: State, t: Tid, fd: Fd, sid: Sid)
    requires t in s.threads && s.threads[t] == Referenced(fd, sid) && ThreadOk(s, t, s.threads[t])
    ensures MoveFacts(s, DoPut(s, t, fd, sid), t, fd, sid, ByThread(t), ByFd(fd), Mapped(fd, sid))
  {
  }

  lemma PutKeepsInv(s: State, t: Tid, fd: Fd, sid: Sid)
    requires Inv(s) && t in s.threads && s.threads[t] == Referenced(fd, sid) && sid in s.srcs
    ensures Inv(DoPut(s, t, fd, sid))
  {
    OwnPc(s, t);
    PutFacts(s, t, fd, sid);
    hide *;
    MoveKeepsInv(s, DoPut(s, t, fd, sid), t, fd, sid, ByThread(t), ByFd(fd), Mapped(fd, sid));
  }

  lemma EraseFacts(s: State, t: Tid, fd: Fd, sid: Sid)
    requires t in s.threads && s.threads[t] == Erasing(fd, sid) && MappedTo(s, fd, sid) && FdOk(s, fd, sid)
    ensures MoveFacts(s, DoErase(s, t, fd, sid), t, fd, sid, ByFd(fd), ByThread(t), Dropping(fd, sid))
  {
  }

  lemma EraseKeepsInv(s: State, t: Tid, fd: Fd, sid: Sid)
    requires Inv(s) && t in s.threads && s.threads[t] == Erasing(fd, sid) && sid in s.srcs
    ensures Inv(DoErase(s, t, fd, sid))
  {
    OwnPc(s, t);
    MappedFacts(s, t, fd, sid);
    EraseFacts(s, t, fd, sid);
    hide *;
    MoveKeepsInv(s, DoErase(s, t, fd, sid), t, fd, sid, ByFd(fd), ByThread(t), Dropping(fd, sid));
  }

  // ----- creating and removing destinations -----

  /** Two holders make a count of at least two: try_to_remove_destination then leaves the destination. */
  lemma TwoHoldersCount(s: State, sid: Sid, a: Ref, b: Ref)
    requires SrcsOk(s) && Live(s, sid, a) && Live(s, sid, b) && a != b
    ensures s.srcs[sid].count > 1
  {
    assert SrcOk(s, sid);
    var refs := s.srcs[sid].refs;
    assert refs == {a} + (refs - {a});
    assert b in refs - {a};
    assert |refs - {a}| > 0;
  }

  lemma RemovedDestSpares(s: State, s': State, sid: Sid, mine: Ref, fd: Fd)
    requires SrcsOk(s) && FdsOk(s) && Live(s, sid, mine) && mine != ByFd(fd) && fd in s.fmap
    requires s'.srcs == TryRemoveDest(s, sid).srcs && s'.cfg == s.cfg
    requires HasDestination(s, s.fmap[fd])
    ensures HasDestination(s', s.fmap[fd])
  {
    if s.fmap[fd] == sid {
      TwoHoldersCount(s, sid, mine, ByFd(fd));
    }
  }

  lemma RemovedDestObjects(s: State, s': State, who: Option<Tid>, sid: Sid)
    requires sid in s.srcs && s'.srcs == TryRemoveDest(s, sid).srcs && s'.table == s.table
    ensures ObjectsUntouched(s, s') && SameObjects(s, s', who)
    ensures forall q :: MarkedUnlinked(s', q) ==> MarkedUnlinked(s, q)
  {
  }

  lemma ClosingHoldings(s: State, s': State, t: Tid, fd: Fd, sid: Sid)
    requires SrcsOk(s) && t in s.threads && s.threads[t] == Closing(fd, sid) && s'.fmap == s.fmap
    ensures forall x, r :: Live(s, x, r) && Mine(s, Some(t), r) ==> HeldBy(s', r, x)
  {
    LiveIsHeld(s);
  }

  lemma CloseDetachFrame(s: State, t: Tid, fd: Fd, sid: Sid)
    requires CopierOk(s) && GoneOk(s) && t in s.threads && s.threads[t] == Closing(fd, sid) && sid in s.srcs
    ensures var s' := Goto(TryRemoveDest(s, sid), t, Erasing(fd, sid)); Frame(s, s', t) && ObjectsUntouched(s, s')
  {
    var s' := Goto(TryRemoveDest(s, sid), t, Erasing(fd, sid));
    hide CopierOk, GoneOk, TableFree;
    RemovedDestObjects(s, s', Some(t), sid);
    WorldByFields(s, s', t);
    OthersByFields(s, s', t, Some(Erasing(fd, sid)), fd);
    FreshClaimsByFields(s, s', t, Some(Erasing(fd, sid)));
    CopierStaysOk(s, s', t);
    hide NamesStay, SameOthers, SameObjects, FreshClaims, SameWorld, ObjectsUntouched;
  }

  lemma CloseDetachCover(s: State, s': State, t: Tid, fd: Fd, sid: Sid)
    requires FdsOk(s) && SrcsOk(s) && t in s.threads && s.threads[t] == Closing(fd, sid) && Live(s, sid, ByFd(fd))
    requires s' == Goto(TryRemoveDest(s, sid), t, Erasing(fd, sid))
    ensures forall f :: f in s.fmap && !Owns(s, Some(t), f) && HasDestination(s, s.fmap[f]) ==>
      HasDestination(s', s.fmap[f])
  {
    hide HasDestination;
    forall f | f in s.fmap && !Owns(s, Some(t), f) && HasDestination(s, s.fmap[f])
      ensures HasDestination(s', s.fmap[f])
    {
      RemovedDestSpares(s, s', sid, ByFd(fd), f);
    }
  }

  lemma CloseDetachOwn(s: State, s': State, t: Tid, fd: Fd, sid: Sid)
    requires ThreadsOk(s) && FdsOk(s) && SrcsOk(s) && t in s.threads && s.threads[t] == Closing(fd, sid)
    requires sid in s.srcs
    requires s' == Goto(TryRemoveDest(s, sid), t, Erasing(fd, sid))
    ensures ThreadOk(s', t, Erasing(fd, sid)) && Live(s, sid, ByFd(fd))
    ensures forall f :: Owns(s, Some(t), f) ==> f == fd && f in s'.fmap && FdOk(s', f, s'.fmap[f])
  {
    OwnPc(s, t);
    MappedFacts(s, t, fd, sid);
    hide ThreadsOk, FdsOk, SrcsOk;
  }

  lemma CloseDetachParts(s: State, t: Tid, fd: Fd, sid: Sid)
    requires Inv(s) && t in s.threads && s.threads[t] == Closing(fd, sid) && sid in s.srcs
    ensures var s' := Goto(TryRemoveDest(s, sid), t, Erasing(fd, sid));
      Frame(s, s', t) && ObjectsUntouched(s, s') && OwnOk(s, s', t) && CoverKept(s, s', t)
  {
    assert ThreadsOk(s) && FdsOk(s) && SrcsOk(s) && CopierOk(s) && GoneOk(s) && CoverOk(s);
    hide Inv, ThreadsOk, FdsOk, SrcsOk, CopierOk, GoneOk, Frame, ThreadOk, HasDestination, ObjectsUntouched, FdOk;
    var s' := Goto(TryRemoveDest(s, sid), t, Erasing(fd, sid));
    assert s'.cp == s.cp && s'.aborted == s.aborted && s'.threads[t] == Erasing(fd, sid);
    CloseDetachFrame(s, t, fd, sid);
    CloseDetachOwn(s, s', t, fd, sid);
    CloseDetachCover(s, s', t, fd, sid);
    hide TryRemoveDest;
    assert OwnsFd(s'.threads[t], fd);
  }

  lemma CloseDetachInSession(s: State, t: Tid, fd: Fd, sid: Sid)
    requires Inv(s) && t in s.threads && s.threads[t] == Closing(fd, sid) && sid in s.srcs
    ensures Inv(Goto(TryRemoveDest(s, sid), t, Erasing(fd, sid)))
  {
    var s' := Goto(TryRemoveDest(s, sid), t, Erasing(fd, sid));
    CloseDetachParts(s, t, fd, sid);
    assert SrcsOk(s) && s'.fmap == s.fmap;
    hide *;
    ClosingHoldings(s, s', t, fd, sid);
    DestStepKeepsInv(s, s', t);
  }

  lemma CloseOutsideSession(s: State, t: Tid, fd: Fd, sid: Sid)
    requires Inv(s) && t in s.threads && s.threads[t] == Closing(fd, sid)
    ensures Inv(Goto(s, t, Erasing(fd, sid)))
  {
    OwnPc(s, t);
    var s' := Goto(s, t, Erasing(fd, sid));
    assert CopierOk(s) && GoneOk(s);
    hide Inv, CopierOk, GoneOk, SameWorld, NamesStay, Settled;
    SameWorldByFields(s, s', t);
    QuietStep(s, s', t, Some(Erasing(fd, sid)));
  }

  lemma CloseDetachKeepsInv(s: State, t: Tid, fd: Fd, sid: Sid)
    requires Inv(s) && t in s.threads && s.threads[t] == Closing(fd, sid) && sid in s.srcs
    ensures Inv(DoCloseDetach(s, t, fd, sid))
  {
    hide Inv;
    if s.session {
      CloseDetachInSession(s, t, fd, sid);
    } else {
      CloseOutsideSession(s, t, fd, sid);
    }
  }

  lemma EnterOpenObjects(s: State, s': State, who: Option<Tid>, sid: Sid, failed: bool)
    requires sid in s.srcs && (s.srcs[sid].failed ==> failed)
    requires s'.srcs == s.srcs[sid := s.srcs[sid].(failed := failed)] && s'.table == s.table
    ensures ObjectsUntouched(s, s') && SameObjects(s, s', who)
    ensures forall q :: MarkedUnlinked(s', q) ==> MarkedUnlinked(s, q)
  {
  }

  lemma EnterOpenDestinations(s: State, s': State, sid: Sid, failed: bool)
    requires sid in s.srcs && (s.srcs[sid].failed ==> failed)
    requires s'.srcs == s.srcs[sid := s.srcs[sid].(failed := failed)] && s'.cfg == s.cfg
    ensures forall x :: HasDestination(s, x) ==> HasDestination(s', x)
  {
  }

  lemma EnterOpenFrame(s: State, t: Tid, fd: Fd, sid: Sid, io: bool)
    requires CopierOk(s) && GoneOk(s) && t in s.threads && s.threads[t] == Mapped(fd, sid) && sid in s.srcs
    requires s.session && TableFree(s)
    ensures var s' := DoEnterOpen(s, t, fd, sid, io);
      Frame(s, s', t) && ObjectsUntouched(s, s') && forall x :: HasDestination(s, x) ==> HasDestination(s', x)
  {
    var s' := DoEnterOpen(s, t, fd, sid, io);
    var pc := s'.threads[t];
    hide CopierOk, GoneOk, TableFree;
    EnterOpenObjects(s, s', Some(t), sid, s'.srcs[sid].failed);
    EnterOpenDestinations(s, s', sid, s'.srcs[sid].failed);
    WorldByFields(s, s', t);
    OthersByFields(s, s', t, Some(pc), fd);
    FreshClaimsByFields(s, s', t, Some(pc));
    CopierStaysOk(s, s', t);
    hide NamesStay, SameOthers, SameObjects, FreshClaims, SameWorld, ObjectsUntouched, HasDestination;
  }

  /** The call has not been asked to create a destination only if the object is exempt, or the file has lost its name.
      */
  lemma EnterOpenOwn(s: State, t: Tid, fd: Fd, sid: Sid, io: bool)
    requires FdsOk(s) && GoneOk(s) && t in s.threads && s.threads[t] == Mapped(fd, sid) && MappedTo(s, fd, sid)
    requires sid in s.srcs
    requires s.session && !WriterIn(s.cp) && TableFree(s)
    ensures var s' := DoEnterOpen(s, t, fd, sid, io);
      OwnOk(s, s', t) && OwnsFd(s'.threads[t], fd) && forall f :: Owns(s, Some(t), f) ==> f == fd
  {
    assert FdOk(s, fd, sid);
    hide FdsOk;
  }

  lemma MappedHoldings(s: State, s': State, t: Tid, fd: Fd, sid: Sid)
    requires SrcsOk(s) && t in s.threads && s.threads[t] == Mapped(fd, sid) && s'.fmap == s.fmap
    ensures forall x, r :: Live(s, x, r) && Mine(s, Some(t), r) ==> HeldBy(s', r, x)
  {
    LiveIsHeld(s);
  }

  lemma EnterOpenInSession(s: State, t: Tid, fd: Fd, sid: Sid, io: bool)
    requires Inv(s) && t in s.threads && s.threads[t] == Mapped(fd, sid) && sid in s.srcs
    requires !WriterIn(s.cp) && s.session && TableFree(s)
    ensures Inv(DoEnterOpen(s, t, fd, sid, io))
  {
    var s' := DoEnterOpen(s, t, fd, sid, io);
    OwnPc(s, t);
    EnterOpenFrame(s, t, fd, sid, io);
    EnterOpenOwn(s, t, fd, sid, io);
    assert SrcsOk(s) && s'.fmap == s.fmap && s'.cp == s.cp && s'.aborted == s.aborted;
    hide Inv, Frame, SrcsOk, ThreadOk, OwnOk, HasDestination, ObjectsUntouched, DoEnterOpen, TableFree;
    MappedHoldings(s, s', t, fd, sid);
    assert !Settled(s', fd);
    DestStepKeepsInv(s, s', t);
  }

  lemma EnterOpenKeepsInv(s: State, t: Tid, fd: Fd, sid: Sid, io: bool)
    requires Inv(s) && t in s.threads && s.threads[t] == Mapped(fd, sid) && sid in s.srcs
    requires !WriterIn(s.cp) && (s.session ==> TableFree(s))
    ensures Inv(DoEnterOpen(s, t, fd, sid, io))
  {
    if s.session {
      EnterOpenInSession(s, t, fd, sid, io);
    } else {
      OwnPc(s, t);
      var s' := Finish(s, t);
      assert CopierOk(s) && GoneOk(s);
      hide Inv, CopierOk, SameWorld, NamesStay, ThreadOk, TableFree;
      SameWorldByFields(s, s', t);
      assert !CoverActive(s');
      QuietStep(s, s', t, None);
    }
  }

  lemma CreatedObjects(s: State, s': State, who: Option<Tid>, sid: Sid, io: bool)
    requires sid in s.srcs && s'.srcs == TryCreate(s, sid, io).srcs && s'.table == s.table
    ensures ObjectsUntouched(s, s') && SameObjects(s, s', who)
    ensures forall q :: MarkedUnlinked(s', q) ==> MarkedUnlinked(s, q)
  {
  }

  lemma CreatedDestinations(s: State, s': State, sid: Sid, io: bool)
    requires sid in s.srcs && s'.srcs == TryCreate(s, sid, io).srcs && s'.cfg == s.cfg
    ensures forall x :: HasDestination(s, x) ==> HasDestination(s', x)
    ensures HasDestination(s', sid)
  {
  }

  lemma CreatingHoldings(s: State, s': State, t: Tid, fd: Fd, sid: Sid, ok: bool)
    requires SrcsOk(s) && t in s.threads && s.threads[t] == Creating(fd, sid, ok) && s'.fmap == s.fmap
    ensures forall x, r :: Live(s, x, r) && Mine(s, Some(t), r) ==> HeldBy(s', r, x)
  {
    LiveIsHeld(s);
  }

  lemma CreateOnOpenFrame(s: State, s': State, t: Tid, fd: Fd, sid: Sid, io: bool)
    requires ThreadsOk(s) && CopierOk(s) && GoneOk(s) && t in s.threads && s.threads[t] == Creating(fd, sid, true)
    requires sid in s.srcs
    requires s' == Finish(TryCreate(s, sid, io).(captureOn := s.captureOn && !CreateFails(s, sid, io)), t)
    ensures Frame(s, s', t) && ObjectsUntouched(s, s')
  {
    OwnPc(s, t);
    hide ThreadsOk, CopierOk, GoneOk, TableFree;
    CreatedObjects(s, s', Some(t), sid, io);
    WorldByFields(s, s', t);
    OthersByFields(s, s', t, None, fd);
    FreshClaimsByFields(s, s', t, None);
    CopierStaysOk(s, s', t);
    hide NamesStay, SameOthers, SameObjects, FreshClaims, SameWorld, ObjectsUntouched;
  }

  lemma CreateOnOpenOwn(s: State, s': State, t: Tid, fd: Fd, sid: Sid, io: bool)
    requires ThreadsOk(s) && FdsOk(s) && SrcsOk(s) && t in s.threads && s.threads[t] == Creating(fd, sid, true)
    requires sid in s.srcs
    requires s' == Finish(TryCreate(s, sid, io).(captureOn := s.captureOn && !CreateFails(s, sid, io)), t)
    ensures CoverActive(s') ==> HasDestination(s', sid) && CoverActive(s)
    ensures fd in s'.fmap && s'.fmap[fd] == sid && FdOk(s', fd, sid)
    ensures forall f :: Owns(s, Some(t), f) ==> f == fd
    ensures forall x :: HasDestination(s, x) ==> HasDestination(s', x)
  {
    OwnPc(s, t);
    MappedFacts(s, t, fd, sid);
    assert SrcOk(s, sid);
    hide ThreadsOk, FdsOk, SrcsOk, HasDestination;
    CreatedDestinations(s, s', sid, io);
  }

  lemma CreateOnOpenTries(s: State, s': State, t: Tid, fd: Fd, sid: Sid, io: bool)
    requires Inv(s) && t in s.threads && s.threads[t] == Creating(fd, sid, true) && sid in s.srcs
    requires s' == Finish(TryCreate(s, sid, io).(captureOn := s.captureOn && !CreateFails(s, sid, io)), t)
    ensures Inv(s')
  {
    CreateOnOpenFrame(s, s', t, fd, sid, io);
    CreateOnOpenOwn(s, s', t, fd, sid, io);
    assert SrcsOk(s) && t !in s'.threads;
    hide Inv, Frame, SrcsOk, ThreadOk, HasDestination, ObjectsUntouched, TryCreate, Covered;
    CreatingHoldings(s, s', t, fd, sid, true);
    DestStepKeepsInv(s, s', t);
  }

  lemma CreateOnOpenSkipsOwn(s: State, t: Tid, fd: Fd, sid: Sid)
    requires Inv(s) && t in s.threads && s.threads[t] == Creating(fd, sid, false) && sid in s.srcs
    ensures fd in s.fmap && s.fmap[fd] == sid && FdOk(s, fd, sid)
    ensures HasDestination(Finish(s, t), sid) || !Covered(Finish(s, t), fd)
    ensures forall x :: HasDestination(s, x) ==> HasDestination(Finish(s, t), x)
    ensures forall f :: Owns(s, Some(t), f) ==> f == fd
  {
    OwnPc(s, t);
    assert FdsOk(s);
    hide Inv, FdsOk, Settled;
  }

  lemma CreateOnOpenSkipsFrame(s: State, t: Tid, fd: Fd, sid: Sid)
    requires CopierOk(s) && GoneOk(s) && t in s.threads && s.threads[t] == Creating(fd, sid, false)
    ensures Frame(s, Finish(s, t), t) && ObjectsUntouched(s, Finish(s, t))
  {
    var s' := Finish(s, t);
    hide CopierOk, GoneOk, TableFree;
    SameWorldByFields(s, s', t);
    SameOthersByFields(s, s', t, None);
    FreshClaimsByFields(s, s', t, None);
    assert SameObjects(s, s', Some(t)) && ObjectsUntouched(s, s');
    hide SameOthers, SameObjects, FreshClaims, SameWorld, NamesStay, ObjectsUntouched;
  }

  lemma CreateOnOpenSkips(s: State, t: Tid, fd: Fd, sid: Sid)
    requires Inv(s) && t in s.threads && s.threads[t] == Creating(fd, sid, false) && sid in s.srcs
    ensures Inv(Finish(s, t))
  {
    var s' := Finish(s, t);
    CreateOnOpenSkipsOwn(s, t, fd, sid);
    CreateOnOpenSkipsFrame(s, t, fd, sid);
    assert SrcsOk(s) && FdOk(s', fd, sid);
    hide Inv, SrcsOk, ThreadOk, Covered, HasDestination, FdOk, Frame, ObjectsUntouched;
    CreatingHoldings(s, s', t, fd, sid, false);
    DestStepKeepsInv(s, s', t);
  }

  lemma CreateOnOpenKeepsInv(s: State, t: Tid, fd: Fd, sid: Sid, ok: bool, io: bool)
    requires Inv(s) && t in s.threads && s.threads[t] == Creating(fd, sid, ok) && sid in s.srcs
    ensures Inv(DoCreateOnOpen(s, t, sid, ok, io))
  {
    hide Inv;
    if ok {
      CreateOnOpenTries(s, DoCreateOnOpen(s, t, sid, ok, io), t, fd, sid, io);
    } else {
      CreateOnOpenSkips(s, t, fd, sid);
    }
  }

  // ----- dropping a reference -----

  /** The thread's reference to `sid` is gone; with the last one, so is the object. */
  ghost predicate Released(s: State, s': State, sid: Sid, r: Ref, src': Option<Src>)
    requires sid in s.srcs
  {
    match src'
    case None => s'.srcs == s.srcs - {sid} && s'.table == s.table - {s.srcs[sid].name} && s.srcs[sid].refs == {r}
    case Some(x) =>
      && s'.srcs == s.srcs[sid := x] && s'.table == s.table
      && x.refs == s.srcs[sid].refs - {r}
      && SameMarks(s.srcs[sid], x) && (s.srcs[sid].dest ==> x.dest || x.unlinked)
  }

  lemma ReleasedSame(s: State, s': State, who: Option<Tid>, sid: Sid, r: Ref, src': Option<Src>)
    requires TableOk(s) && sid in s.srcs && Released(s, s', sid, r, src') && Mine(s, who, r)
    requires s.srcs[sid].name in s.table && s.table[s.srcs[sid].name] == sid
    ensures SameObjects(s, s', who) && OthersUntouched(s, s', sid)
  {
    if src'.None? {
      assert forall p :: p in s.table && s.table[p] == sid ==> p == s.srcs[sid].name;
    }
  }

  lemma ReleasedEntry(s: State, s': State, sid: Sid, r: Ref, src': Option<Src>)
    requires TableOk(s) && sid in s.srcs && Released(s, s', sid, r, src')
    ensures EntriesOk(s', sid)
  {
  }

  lemma ReleasedDestination(s: State, s': State, sid: Sid, r: Ref, src': Option<Src>, fd: Fd)
    requires FdsOk(s) && sid in s.srcs && Released(s, s', sid, r, src') && fd in s.fmap && r != ByFd(fd)
    requires HasDestination(s, s.fmap[fd]) && s'.cfg == s.cfg
    ensures HasDestination(s', s.fmap[fd])
  {
    assert Live(s, s.fmap[fd], ByFd(fd));
  }

  lemma ReleasedTarget(s: State, s': State, who: Option<Tid>, sid: Sid, r: Ref, x: Src)
    requires SrcsOk(s) && sid in s.srcs && Released(s, s', sid, r, Some(x)) && Mine(s, who, r)
    requires SameOthers(s, s', who) && x.count > 0 && x.count == |x.refs| + x.leaked && (x.leaked > 0 ==> x.failed)
    requires NameOk(s', x.name, x.unlinked) && forall q :: q != r && Mine(s, who, q) ==> !HeldBy(s, q, sid)
    ensures SrcOk(s', sid)
  {
    assert SrcOk(s, sid);
    forall q | q in x.refs
      ensures HeldBy(s', q, sid)
    {
      OthersStillHold(s, s', who, q, sid);
    }
  }

  lemma ReleasedCover(s: State, s': State, t: Tid, sid: Sid, src': Option<Src>)
    requires FdsOk(s) && sid in s.srcs && Released(s, s', sid, ByThread(t), src')
    requires s'.cfg == s.cfg
    ensures forall fd :: fd in s.fmap && HasDestination(s, s.fmap[fd]) ==> HasDestination(s', s.fmap[fd])
  {
    hide FdsOk, HasDestination, Released;
    forall fd | fd in s.fmap && HasDestination(s, s.fmap[fd])
      ensures HasDestination(s', s.fmap[fd])
    {
      ReleasedDestination(s, s', sid, ByThread(t), src', fd);
    }
  }

  lemma ReleasedTargetOk(s: State, s': State, t: Tid, sid: Sid, src': Option<Src>)
    requires SrcsOk(s) && TableOk(s) && t in s.threads && CountedBy(s.threads[t], sid) && sid in s.srcs
    requires Released(s, s', sid, ByThread(t), src') && forall fd :: fd in s.fmap ==> !Owns(s, Some(t), fd)
    requires src'.Some? ==> SrcOk(s', sid)
    ensures TargetOk(s, s', t, sid) && SameObjects(s, s', Some(t))
  {
    assert RefsOnlyTo(s, Some(t), sid) by {
      LiveIsHeld(s);
    }
    TableEntry(s, sid);
    ReleasedSame(s, s', Some(t), sid, ByThread(t), src');
    ReleasedEntry(s, s', sid, ByThread(t), src');
  }

  ghost predicate StepParts(s: State, s': State, t: Tid, sid: Sid) {
    Frame(s, s', t) && TargetOk(s, s', t, sid) && OwnOk(s, s', t) && CoverKept(s, s', t)
  }

  function DroppedSrc(src: Src, r: Ref): Option<Src> {
    if src.count <= 1 then None else Some(src.(count := src.count - 1, refs := src.refs - {r}))
  }

  /** The last reference leaves no other holder behind. */
  lemma LastRef(s: State, sid: Sid, r: Ref)
    requires sid in s.srcs && SrcOk(s, sid) && r in s.srcs[sid].refs
    ensures s.srcs[sid].count == 1 ==> s.srcs[sid].refs == {r}
    ensures |s.srcs[sid].refs - {r}| == |s.srcs[sid].refs| - 1
  {
    var rest := s.srcs[sid].refs - {r};
    assert s.srcs[sid].refs == rest + {r};
    if s.srcs[sid].count == 1 {
      assert rest == {};
    }
  }

  lemma DropReleases(s: State, s': State, sid: Sid, r: Ref)
    requires sid in s.srcs && SrcOk(s, sid) && r in s.srcs[sid].refs
    requires s'.srcs == DropRef(s, sid, r).srcs && s'.table == DropRef(s, sid, r).table
    ensures Released(s, s', sid, r, DroppedSrc(s.srcs[sid], r))
    ensures DroppedSrc(s.srcs[sid], r).Some? ==>
      var x := DroppedSrc(s.srcs[sid], r).value; x.count > 0 && x.count == |x.refs| + x.leaked
  {
    LastRef(s, sid, r);
  }

  lemma OnlyThreadRef(s: State, t: Tid, sid: Sid)
    requires t in s.threads && CountedBy(s.threads[t], sid) && forall fd :: fd in s.fmap ==> !Owns(s, Some(t), fd)
    ensures OnlyRef(s, t, sid, ByThread(t))
  {
  }

  lemma ReleasedMarks(s: State, s': State, sid: Sid, r: Ref, src': Option<Src>)
    requires sid in s.srcs && Released(s, s', sid, r, src')
    requires src'.Some? ==> (src'.value.unlinked ==> s.srcs[sid].unlinked)
    ensures forall q :: MarkedUnlinked(s', q) ==> MarkedUnlinked(s, q)
  {
  }

  lemma DropFrame(s: State, s': State, t: Tid, fd: Fd, sid: Sid)
    requires CopierOk(s) && GoneOk(s) && t in s.threads && s.threads[t] == Dropping(fd, sid)
    requires SameObjects(s, s', Some(t))
    requires s' == s.(threads := s.threads[t := RealClosing(fd)], srcs := s'.srcs, table := s'.table)
    requires forall q :: MarkedUnlinked(s', q) ==> MarkedUnlinked(s, q)
    ensures Frame(s, s', t)
  {
    hide CopierOk, GoneOk, SameObjects;
    ObjectStepFrame(s, s', t, fd, RealClosing(fd));
  }

  lemma DropTarget(s: State, s': State, t: Tid, fd: Fd, sid: Sid)
    requires SrcsOk(s) && TableOk(s) && CopierOk(s) && GoneOk(s)
    requires t in s.threads && s.threads[t] == Dropping(fd, sid) && fd !in s.fmap && Live(s, sid, ByThread(t))
    requires s.srcs[sid].count > 0 && s' == DoDrop(s, t, fd, sid)
    requires Released(s, s', sid, ByThread(t), DroppedSrc(s.srcs[sid], ByThread(t)))
    ensures TargetOk(s, s', t, sid) && Frame(s, s', t)
  {
    var r, src' := ByThread(t), DroppedSrc(s.srcs[sid], ByThread(t));
    assert SrcOk(s, sid);
    LastRef(s, sid, r);
    TableEntry(s, sid);
    hide SrcsOk, CopierOk, GoneOk, Released;
    assert SameObjects(s, s', Some(t)) && Frame(s, s', t) by {
      ReleasedSame(s, s', Some(t), sid, r, src');
      ReleasedMarks(s, s', sid, r, src');
      DropFrame(s, s', t, fd, sid);
    }
    OnlyThreadRef(s, t, sid);
    if src'.Some? {
      ReleasedTarget(s, s', Some(t), sid, r, src'.value);
    }
    ReleasedTargetOk(s, s', t, sid, src');
  }

  lemma DropCover(s: State, s': State, t: Tid, fd: Fd, sid: Sid)
    requires FdsOk(s) && t in s.threads && s.threads[t] == Dropping(fd, sid) && sid in s.srcs && s.srcs[sid].count > 0
    requires s' == DoDrop(s, t, fd, sid) && Released(s, s', sid, ByThread(t), DroppedSrc(s.srcs[sid], ByThread(t)))
    ensures CoverKept(s, s', t)
  {
    ReleasedCover(s, s', t, sid, DroppedSrc(s.srcs[sid], ByThread(t)));
    hide FdsOk, Released, HasDestination;
    ObjectStepCover(s, s', t, RealClosing(fd));
  }

  lemma DropParts(s: State, t: Tid, fd: Fd, sid: Sid)
    requires SrcsOk(s) && TableOk(s) && FdsOk(s) && CopierOk(s) && GoneOk(s)
    requires t in s.threads && s.threads[t] == Dropping(fd, sid) && ThreadOk(s, t, s.threads[t])
    requires sid in s.srcs && s.srcs[sid].count > 0
    ensures StepParts(s, DoDrop(s, t, fd, sid), t, sid)
  {
    var s', r := DoDrop(s, t, fd, sid), ByThread(t);
    assert SrcOk(s, sid);
    DropReleases(s, s', sid, r);
    assert OwnOk(s, s', t);
    hide SrcsOk, TableOk, FdsOk, CopierOk, GoneOk, SrcOk, Released, OwnOk;
    DropTarget(s, s', t, fd, sid);
    DropCover(s, s', t, fd, sid);
    hide *;
    assert StepParts(s, s', t, sid);
  }

  lemma DropKeepsInv(s: State, t: Tid, fd: Fd, sid: Sid)
    requires Inv(s) && t in s.threads && s.threads[t] == Dropping(fd, sid) && sid in s.srcs && s.srcs[sid].count > 0
    ensures Inv(DoDrop(s, t, fd, sid))
  {
    OwnPc(s, t);
    DropParts(s, t, fd, sid);
    hide *;
    TargetStepKeepsInv(s, DoDrop(s, t, fd, sid), t, sid);
  }

  // ----- the locked part of unlink() -----

  /** What the end of an unlink() that dropped its reference looks like, captured or not. */
  ghost predicate UnlinkEnd(s: State, s': State, t: Tid, p: Path, sid: Sid, src': Option<Src>) {
    && t in s.threads && s.threads[t] == UnlinkReferenced(p, sid) && GoneFrom(s, t, p) && Live(s, sid, ByThread(t))
    && s.srcs[sid].name == p && TableFree(s) && Released(s, s', sid, ByThread(t), src')
    && (src'.Some? ==>
          var x := src'.value;
          x.count > 0 && x.count == |x.refs| + x.leaked && (x.leaked > 0 ==> x.failed))
    && s' == s.(threads := s.threads - {t}, fileOp := None, srcs := s'.srcs, table := s'.table, backup := s'.backup,
                captured := s'.captured, ioFailed := s'.ioFailed, captureOn := s'.captureOn)
    && (s'.captureOn ==> s.captureOn)
    && (s'.captured == s.captured || (s'.captured == s.captured + {p} && p !in s'.backup && s.captureOn))
    && (forall q :: q != p ==> (q in s'.backup <==> q in s.backup))
  }

  lemma UnlinkEndWorld(s: State, s': State, t: Tid, p: Path, sid: Sid, src': Option<Src>)
    requires CopierOk(s) && GoneOk(s) && UnlinkEnd(s, s', t, p, sid, src') && SameObjects(s, s', Some(t))
    ensures SameWorld(s, s', Some(t)) && NamesStay(s, s') && GoneOk(s') && CopierOk(s')
  {
    if CopierHolds(s.cp) {
      assert Live(s', s.cp.sid, ByCopier);
    }
  }

  lemma UnlinkEndOthers(s: State, s': State, t: Tid, p: Path, sid: Sid, src': Option<Src>)
    requires UnlinkEnd(s, s', t, p, sid, src')
    ensures SameOthers(s, s', Some(t)) && FreshClaims(s, s', Some(t)) && OwnOk(s, s', t)
  {
    hide Released, GoneFrom, TableFree;
  }

  lemma UnlinkEndTarget(s: State, s': State, t: Tid, p: Path, sid: Sid, src': Option<Src>)
    requires SrcsOk(s) && TableOk(s) && UnlinkEnd(s, s', t, p, sid, src')
    ensures TargetOk(s, s', t, sid) && SameObjects(s, s', Some(t))
  {
    assert SrcOk(s, sid);
    UnlinkEndOthers(s, s', t, p, sid, src');
    OnlyThreadRef(s, t, sid);
    if src'.Some? {
      assert NameOk(s', p, src'.value.unlinked);
      ReleasedTarget(s, s', Some(t), sid, ByThread(t), src'.value);
    }
    ReleasedTargetOk(s, s', t, sid, src');
  }

  lemma UnlinkEndCover(s: State, s': State, t: Tid, p: Path, sid: Sid, src': Option<Src>)
    requires FdsOk(s) && UnlinkEnd(s, s', t, p, sid, src')
    ensures CoverKept(s, s', t)
  {
    ReleasedCover(s, s', t, sid, src');
    hide FdsOk, Released, GoneFrom, TableFree, HasDestination;
  }

  lemma UnlinkEndKeepsInv(s: State, s': State, t: Tid, p: Path, sid: Sid, src': Option<Src>)
    requires Inv(s) && UnlinkEnd(s, s', t, p, sid, src')
    ensures Inv(s')
  {
    UnlinkEndTarget(s, s', t, p, sid, src');
    UnlinkEndWorld(s, s', t, p, sid, src');
    UnlinkEndOthers(s, s', t, p, sid, src');
    UnlinkEndCover(s, s', t, p, sid, src');
    hide *;
    assert Frame(s, s', t);
    TargetStepKeepsInv(s, s', t, sid);
  }

  /** The destination may just have been created; everything else in the object is as before. */
  ghost predicate MayHaveCreated(s: State, s0: State, t: Tid, p: Path, sid: Sid) {
    && t in s.threads && s.threads[t] == UnlinkReferenced(p, sid) && GoneFrom(s, t, p) && Live(s, sid, ByThread(t))
    && SrcOk(s, sid) && s.srcs[sid].name == p && TableFree(s)
    && sid in s0.srcs && s0.srcs[sid] == s.srcs[sid].(dest := s0.srcs[sid].dest, failed := s0.srcs[sid].failed)
    && (s.srcs[sid].dest ==> s0.srcs[sid].dest) && (s.srcs[sid].failed ==> s0.srcs[sid].failed)
    && s0.srcs == s.srcs[sid := s0.srcs[sid]]
    && s0 == s.(srcs := s0.srcs, backup := s0.backup, captured := s0.captured, ioFailed := s0.ioFailed,
                captureOn := s0.captureOn)
    && (s0.captureOn ==> s.captureOn)
    && (s0.captured == s.captured || (s0.captured == s.captured + {p} && p !in s0.backup && s.captureOn))
    && (forall q :: q != p ==> (q in s0.backup <==> q in s.backup))
  }

  lemma UnlinkSourceEnds(s: State, s0: State, t: Tid, p: Path, sid: Sid)
    requires MayHaveCreated(s, s0, t, p, sid) && s0.srcs[sid].count > 0
    ensures var src' := DroppedSrc(s0.srcs[sid].(unlinked := true), ByThread(t));
      UnlinkEnd(s, UnlinkSource(s0, t, sid), t, p, sid, src')
  {
    var r, src, s' := ByThread(t), s0.srcs[sid], UnlinkSource(s0, t, sid);
    LastRef(s, sid, r);
    hide TableFree;
    if src.count == 1 {
      assert s'.srcs == s.srcs - {sid};
    } else {
      assert s'.srcs == s.srcs[sid := src.(unlinked := true, count := src.count - 1, refs := src.refs - {r})];
    }
  }

  lemma UnlinkSourceKeepsInv(s: State, s0: State, t: Tid, p: Path, sid: Sid)
    requires Inv(s) && MayHaveCreated(s, s0, t, p, sid) && s0.srcs[sid].count > 0
    ensures Inv(UnlinkSource(s0, t, sid))
  {
    UnlinkSourceEnds(s, s0, t, p, sid);
    hide *;
    UnlinkEndKeepsInv(s, UnlinkSource(s0, t, sid), t, p, sid, DroppedSrc(s0.srcs[sid].(unlinked := true), ByThread(t)));
  }

  /** What unlink() knows once it holds the session and table locks. */
  ghost predicate AtUnlink(s: State, t: Tid, p: Path, sid: Sid) {
    && t in s.threads && s.threads[t] == UnlinkReferenced(p, sid) && GoneFrom(s, t, p) && Live(s, sid, ByThread(t))
    && SrcOk(s, sid) && s.srcs[sid].name == p && TableFree(s)
  }

  lemma NotCapturedUnlink(s: State, t: Tid, p: Path, sid: Sid)
    requires AtUnlink(s, t, p, sid)
    ensures MayHaveCreated(s, s, t, p, sid)
  {
    hide GoneFrom, TableFree, SrcOk;
    assert s.srcs == s.srcs[sid := s.srcs[sid]];
  }

  lemma FailedUnlink(s: State, t: Tid, p: Path, sid: Sid, io: bool)
    requires AtUnlink(s, t, p, sid)
    ensures MayHaveCreated(s, TryCreate(s, sid, io).(ioFailed := true, captureOn := false), t, p, sid)
  {
    hide GoneFrom, TableFree, SrcOk;
    assert s.srcs == s.srcs[sid := s.srcs[sid]];
  }

  lemma CapturedUnlink(s: State, t: Tid, p: Path, sid: Sid, io: bool)
    requires AtUnlink(s, t, p, sid) && s.captureOn
    ensures var s1 := TryCreate(s, sid, io);
      MayHaveCreated(s, s1.(backup := s1.backup - {p}, captured := s1.captured + {p}), t, p, sid)
  {
    hide GoneFrom, TableFree, SrcOk;
    assert s.srcs == s.srcs[sid := s.srcs[sid]];
  }

  lemma LeakEnds(s: State, t: Tid, p: Path, sid: Sid)
    requires AtUnlink(s, t, p, sid)
    ensures UnlinkEnd(s, LeakRef(s, t, sid), t, p, sid, Some(LeakRef(s, t, sid).srcs[sid]))
  {
    LastRef(s, sid, ByThread(t));
    hide TableFree;
  }

  lemma LeakKeepsInv(s: State, t: Tid, p: Path, sid: Sid)
    requires Inv(s) && AtUnlink(s, t, p, sid)
    ensures Inv(LeakRef(s, t, sid))
  {
    LeakEnds(s, t, p, sid);
    hide *;
    UnlinkEndKeepsInv(s, LeakRef(s, t, sid), t, p, sid, Some(LeakRef(s, t, sid).srcs[sid]));
  }

  /** unlink() follows a NULL destination only for a file that was unlinked, and made again, before. */
  lemma CrashKeepsInv(s: State, t: Tid, p: Path, sid: Sid)
    requires Inv(s) && AtUnlink(s, t, p, sid) && s.srcs[sid].unlinked
    ensures Inv(s.(crashed := true))
  {
    assert p in s.recreated;
    CrashedSame(s);
  }

  lemma CrashedParts(s: State)
    requires ThreadsOk(s) && SrcsOk(s) && CopierOk(s)
    ensures var s' := s.(crashed := true); ThreadsOk(s') && SrcsOk(s') && CopierOk(s')
  {
    var s' := s.(crashed := true);
    forall t | t in s.threads
      ensures ThreadOk(s', t, s.threads[t])
    {
      OwnPc(s, t);
    }
    forall sid | sid in s.srcs
      ensures SrcOk(s', sid)
    {
      assert SrcOk(s, sid);
      forall r | r in s.srcs[sid].refs
        ensures HeldBy(s', r, sid)
      {
        assert HeldBy(s, r, sid);
      }
    }
  }

  lemma CrashedCover(s: State)
    requires CoverOk(s)
    ensures CoverOk(s.(crashed := true))
  {
    var s' := s.(crashed := true);
    hide HasDestination;
    forall fd | CoverActive(s') && Covered(s', fd)
      ensures HasDestination(s', s'.fmap[fd])
    {
      assert Covered(s, fd);
      assert HasDestination(s, s.fmap[fd]);
      CrashedDestination(s, s.fmap[fd]);
    }
  }

  lemma CrashedDestination(s: State, sid: Sid)
    requires HasDestination(s, sid)
    ensures HasDestination(s.(crashed := true), sid)
  {
  }

  lemma CrashedSame(s: State)
    requires Inv(s) && s.recreated != {}
    ensures Inv(s.(crashed := true))
  {
    var s' := s.(crashed := true);
    assert ApartOk(s') && FdsOk(s') && TableOk(s') && GoneOk(s');
    CrashedParts(s);
    CrashedCover(s);
    hide *;
    assert Inv(s') by {
      hide ThreadsOk, ApartOk, FdsOk, SrcsOk, TableOk, CopierOk, CoverOk, GoneOk;
    }
  }

  lemma CaptureUnlinkFacts(s: State, t: Tid, p: Path, sid: Sid)
    requires Inv(s) && t in s.threads && s.threads[t] == UnlinkReferenced(p, sid) && TableFree(s)
    ensures AtUnlink(s, t, p, sid)
  {
    OwnPc(s, t);
  }

  lemma CaptureUnlinkKeepsInv(s: State, t: Tid, p: Path, sid: Sid, io: bool, ioUnlink: bool)
    requires Inv(s) && t in s.threads && s.threads[t] == UnlinkReferenced(p, sid) && TableFree(s)
    requires sid in s.srcs && s.srcs[sid].count > 0
    ensures Inv(DoCaptureUnlink(s, t, p, sid, io, ioUnlink))
  {
    CaptureUnlinkFacts(s, t, p, sid);
    hide Inv, AtUnlink, MayHaveCreated, UnlinkSource;
    if !ShouldCaptureUnlink(s, p) {
      NotCapturedUnlink(s, t, p, sid);
      UnlinkSourceKeepsInv(s, s, t, p, sid);
    } else if CreateFails(s, sid, io) {
      LeakKeepsInv(s, t, p, sid);
    } else if s.srcs[sid].unlinked && !s.srcs[sid].dest {
      CrashKeepsInv(s, t, p, sid);
    } else if !ioUnlink {
      FailedUnlink(s, t, p, sid, io);
      UnlinkSourceKeepsInv(s, TryCreate(s, sid, io).(ioFailed := true, captureOn := false), t, p, sid);
    } else {
      CapturedUnlink(s, t, p, sid, io);
      var s1 := TryCreate(s, sid, io);
      UnlinkSourceKeepsInv(s, s1.(backup := s1.backup - {p}, captured := s1.captured + {p}), t, p, sid);
    }
  }

  lemma AppKeepsInv(s: State, t: Tid, a: AppStep)
    requires Inv(s) && AppEnabled(s, t, a)
    ensures Inv(DoApp(s, t, a))
  {
    hide Inv, DoRealOpen, DoGetSource, DoPut, DoEnterOpen, DoCreateOnOpen, DoStartClose, DoCloseDetach, DoErase, DoDrop,
      DoUnlinkGet, DoCaptureUnlink, CanGet;
    match a
    case RealOpen(fd, p, creat) => RealOpenKeepsInv(s, t, fd, p, creat);
    case Realpath =>
      if s.threads[t].path in s.fs {
        RealpathFound(s, t, s.threads[t].fd, s.threads[t].path);
      } else {
        RealpathMissing(s, t, s.threads[t].fd, s.threads[t].path);
      }
    case GetSource(newId) => GetSourceKeepsInv(s, t, s.threads[t].fd, s.threads[t].path, newId);
    case Put => PutKeepsInv(s, t, s.threads[t].fd, s.threads[t].sid);
    case EnterOpen(io) => EnterOpenKeepsInv(s, t, s.threads[t].fd, s.threads[t].sid, io);
    case CreateOnOpen(io) => CreateOnOpenKeepsInv(s, t, s.threads[t].fd, s.threads[t].sid, s.threads[t].ok, io);
    case StartClose(fd) => StartCloseKeepsInv(s, t, fd);
    case CloseDetach => CloseDetachKeepsInv(s, t, s.threads[t].fd, s.threads[t].sid);
    case Erase => EraseKeepsInv(s, t, s.threads[t].fd, s.threads[t].sid);
    case Drop => DropKeepsInv(s, t, s.threads[t].fd, s.threads[t].sid);
    case RealClose => RealCloseKeepsInv(s, t, s.threads[t].fd);
    case StartUnlink(p) => StartUnlinkKeepsInv(s, t, p);
    case RealUnlink(ok) =>
      if ok {
        RealUnlinkSucceeds(s, t, s.threads[t].path);
      } else {
        RealUnlinkFails(s, t, s.threads[t].path);
      }
    case UnlinkGet(newId) => UnlinkGetKeepsInv(s, t, s.threads[t].path, newId);
    case CaptureUnlink(io, ioUnlink) =>
      CaptureUnlinkKeepsInv(s, t, s.threads[t].path, s.threads[t].sid, io, ioUnlink);
  }
}
