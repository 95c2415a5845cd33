/** The backup thread's steps keep the invariant of SessionSafety. */
module SessionBackup {
  import opened Basics
  import opened Session
  import opened SessionSafety

  predicate BackupFields(s: State, s': State) {
    s' == s.(session := s'.session, captureOn := s'.captureOn, cp := s'.cp, ioFailed := s'.ioFailed,
             prepareFailed := s'.prepareFailed, aborted := s'.aborted, goneSincePick := s'.goneSincePick,
             backup := s'.backup, srcs := s'.srcs, table := s'.table)
  }

  /** Entering or leaving the session write section, or the table lock, excludes the readers. */
  predicate Excludes(s: State, s': State) {
    NoReaders(s) || (s'.session && !WriterIn(s'.cp) && !s'.cp.CopyCreating?)
  }

  ghost predicate NoNewMarks(s: State, s': State) {
    forall q :: MarkedUnlinked(s', q) ==> MarkedUnlinked(s, q)
  }

  lemma BackupFrame(s: State, s': State)
    requires BackupFields(s, s') && Excludes(s, s') && NoNewMarks(s, s')
    ensures SameOthers(s, s', None) && SameWorld(s, s', None) && FreshClaims(s, s', None) && NamesStay(s, s')
  {
  }

  ghost predicate DestinationsStay(s: State, s': State) {
    forall fd :: fd in s.fmap && HasDestination(s, s.fmap[fd]) ==> HasDestination(s', s.fmap[fd])
  }

  ghost predicate NewlyCovered(s: State, s': State) {
    forall fd :: CoverActive(s') && Covered(s', fd) ==>
      (CoverActive(s) && Covered(s, fd)) || HasDestination(s', s'.fmap[fd])
  }

  lemma BackupCover(s: State, s': State)
    requires CoverOk(s) && BackupFields(s, s') && DestinationsStay(s, s') && NewlyCovered(s, s')
    ensures CoverOk(s')
  {
    hide HasDestination, CoverActive, Settled;
  }

  predicate CopierStill(s: State, s': State) {
    CopierHolds(s.cp) ==> CopierHolds(s'.cp) && s'.cp.sid == s.cp.sid
  }

  lemma CopierHoldings(s: State, s': State)
    requires SrcsOk(s) && CopierStill(s, s')
    ensures forall sid, r :: Live(s, sid, r) && Mine(s, None, r) ==> HeldBy(s', r, sid)
  {
    LiveIsHeld(s);
  }

  /** What a step that changes nothing in the source_files but destinations has to show. */
  ghost predicate DestStep(s: State, s': State) {
    && BackupFields(s, s') && Excludes(s, s') && NoNewMarks(s, s')
    && ObjectsUntouched(s, s') && CopierStill(s, s') && CopierOk(s') && GoneOk(s')
    && DestinationsStay(s, s') && NewlyCovered(s, s')
  }

  lemma DestStepSame(s: State, s': State)
    requires ObjectsUntouched(s, s')
    ensures SameObjects(s, s', None)
  {
  }

  lemma BackupDestStep(s: State, s': State)
    requires Inv(s) && DestStep(s, s')
    ensures Inv(s')
  {
    BackupFrame(s, s');
    BackupCover(s, s');
    CopierHoldings(s, s');
    DestStepSame(s, s');
    assert SrcsOk(s) && TableOk(s) && ObjectsUntouched(s, s') && CopierOk(s') && GoneOk(s');
    hide *;
    UntouchedObjectsStayOk(s, s', None);
    AssembleBackup(s, s');
  }

  lemma AssembleBackup(s: State, s': State)
    requires Inv(s) && SameOthers(s, s', None) && SameObjects(s, s', None) && SameWorld(s, s', None)
    requires FreshClaims(s, s', None)
    requires SrcsOk(s') && TableOk(s') && CopierOk(s') && CoverOk(s') && GoneOk(s')
    ensures Inv(s')
  {
    assert forall fd :: !Owns(s, None, fd);
    hide *;
    Assemble(s, s', None);
  }

  /** Only the program counter of the backup thread, and the flags, change. */
  predicate ControlOnly(s: State, s': State) {
    s' == s.(session := s'.session, captureOn := s'.captureOn, cp := s'.cp, ioFailed := s'.ioFailed,
             prepareFailed := s'.prepareFailed, aborted := s'.aborted, goneSincePick := s'.goneSincePick)
  }

  lemma ControlSame(s: State, s': State)
    requires ControlOnly(s, s')
    ensures BackupFields(s, s') && NoNewMarks(s, s') && ObjectsUntouched(s, s') && DestinationsStay(s, s')
  {
  }

  lemma ControlStep(s: State, s': State)
    requires Inv(s) && ControlOnly(s, s') && Excludes(s, s')
    requires CopierStill(s, s') && CopierOk(s') && GoneOk(s') && NewlyCovered(s, s')
    ensures Inv(s')
  {
    ControlSame(s, s');
    hide *;
    assert DestStep(s, s');
    BackupDestStep(s, s');
  }

  lemma SettledSame(s: State, s': State)
    requires s'.threads == s.threads
    ensures forall fd :: Settled(s', fd) == Settled(s, fd)
  {
  }

  lemma WriterExcludesReaders(s: State)
    requires ThreadsOk(s) && WriterIn(s.cp)
    ensures NoReaders(s)
  {
    forall t | t in s.threads
      ensures !s.threads[t].Creating?
    {
      assert ThreadOk(s, t, s.threads[t]);
    }
  }

  // ----- entering the session, and preparing -----

  lemma StartBackupKeepsInv(s: State)
    requires Inv(s) && s.cp.NotStarted? && NoReaders(s)
    ensures Inv(s.(session := true, cp := Preparing(0)))
  {
    var s' := s.(session := true, cp := Preparing(0));
    assert NewlyCovered(s, s') by {
      hide *;
      assert forall fd :: !Covered(s', fd) by {
        hide Settled;
      }
    }
    assert CopierOk(s') && GoneOk(s');
    hide Inv, NoReaders, NewlyCovered, CopierOk, GoneOk;
    ControlStep(s, s');
  }

  lemma PrepareEndKeepsInv(s: State)
    requires Inv(s) && s.cp.Preparing? && PastEnd(s, s.cp.next)
    ensures Inv(s.(cp := Copying, captureOn := true))
  {
    var s' := s.(cp := Copying, captureOn := true);
    assert CopierOk(s') && GoneOk(s');
    hide Inv, NoReaders, CopierOk, GoneOk;
    SettledSame(s, s');
    assert NewlyCovered(s, s') by {
      hide Settled, HasDestination;
    }
    hide NewlyCovered, Settled;
    ControlStep(s, s');
  }

  /** Nothing new is promised when the loop passes a slot that is empty, or whose file is exempt. */
  lemma PrepareSkips(s: State, next: Fd)
    requires Inv(s) && s.cp == Preparing(next) && NoReaders(s)
    requires next in s.fmap ==> s.fmap[next] in s.srcs && Exempt(s, s.fmap[next])
    ensures Inv(s.(cp := Preparing(next + 1)))
  {
    var s' := s.(cp := Preparing(next + 1));
    assert CopierOk(s') && GoneOk(s');
    hide Inv, NoReaders, CopierOk, GoneOk;
    SettledSame(s, s');
    assert next in s.fmap ==> HasDestination(s', s.fmap[next]);
    assert NewlyCovered(s, s') by {
      hide Settled, HasDestination;
    }
    hide NewlyCovered, Settled, Exempt, HasDestination;
    ControlStep(s, s');
  }

  lemma CreatingDest(s: State, s': State, sid: Sid, io: bool)
    requires sid in s.srcs && s'.table == s.table && s'.srcs == TryCreate(s, sid, io).srcs
    requires s'.cfg == s.cfg
    ensures NoNewMarks(s, s') && ObjectsUntouched(s, s') && DestinationsStay(s, s')
  {
    CreatedObjects(s, s', None, sid, io);
    CreatedDestinations(s, s', sid, io);
    hide *;
    hide ObjectsUntouched, HasDestination, MarkedUnlinked;
    assert NoNewMarks(s, s');
    assert DestinationsStay(s, s');
  }

  lemma PrepareCover(s: State, s': State, next: Fd)
    requires s.cp == Preparing(next) && s'.cp == Preparing(next + 1) && next in s.fmap
    requires HasDestination(s', s.fmap[next])
    requires s'.fmap == s.fmap && s'.linked == s.linked && s'.threads == s.threads && s'.aborted == s.aborted
    ensures NewlyCovered(s, s')
  {
    SettledSame(s, s');
    hide Settled, HasDestination;
  }

  lemma PrepareCreatesGone(s: State, s': State, sid: Sid)
    requires GoneOk(s) && s.cp.Preparing? && sid in s.srcs
    requires s' == TryCreate(s, sid, true).(cp := Preparing(s.cp.next + 1))
    ensures CopierOk(s') && GoneOk(s')
  {
  }

  lemma PrepareCreatesControl(s: State, sid: Sid, next: Fd)
    requires NoReaders(s) && s.cp.Preparing? && sid in s.srcs
    ensures var s' := TryCreate(s, sid, true).(cp := Preparing(next));
      BackupFields(s, s') && Excludes(s, s') && CopierStill(s, s')
  {
    TryCreateFields(s, sid, true);
    hide TryCreate, NoReaders;
  }

  lemma PrepareCreates(s: State, next: Fd)
    requires Inv(s) && s.cp == Preparing(next) && NoReaders(s) && next in s.fmap && s.fmap[next] in s.srcs
    ensures Inv(TryCreate(s, s.fmap[next], true).(cp := Preparing(next + 1)))
  {
    var sid := s.fmap[next];
    var s' := TryCreate(s, sid, true).(cp := Preparing(next + 1));
    assert SrcsOk(s) && GoneOk(s);
    hide Inv, SrcsOk, GoneOk, CopierOk, NoReaders, NewlyCovered, NoNewMarks, ObjectsUntouched, DestinationsStay;
    hide BackupFields, Excludes, CopierStill;
    PrepareCreatesGone(s, s', sid);
    CreatingDest(s, s', sid, true);
    PrepareCreatesCover(s, s', next, sid);
    PrepareCreatesControl(s, sid, next + 1);
    hide *;
    assert DestStep(s, s');
    BackupDestStep(s, s');
  }

  lemma PrepareCreatesCover(s: State, s': State, next: Fd, sid: Sid)
    requires SrcsOk(s) && s.cp == Preparing(next) && next in s.fmap && s.fmap[next] == sid && sid in s.srcs
    requires s' == TryCreate(s, sid, true).(cp := Preparing(next + 1))
    ensures NewlyCovered(s, s')
  {
    assert SrcOk(s, sid);
    CreatedDestinations(s, s', sid, true);
    hide SrcsOk, SrcOk, HasDestination, NewlyCovered;
    PrepareCover(s, s', next);
  }

  /** The loop ends early, with an error or because it met an excluded file: no promise is left. */
  lemma PrepareStops(s: State, s': State)
    requires Inv(s) && s.cp.Preparing? && ControlOnly(s, s') && s'.session
    requires (s'.cp.Copying? && s'.aborted) || s'.cp.Failed?
    ensures Inv(s')
  {
    assert CopierOk(s') && GoneOk(s') && NewlyCovered(s, s');
    hide Inv, NewlyCovered, CopierOk, GoneOk;
    ControlStep(s, s');
  }

  lemma PrepareKeepsInv(s: State, next: Fd, io: bool)
    requires Inv(s) && s.cp == Preparing(next) && TableFree(s) && (next in s.fmap ==> s.fmap[next] in s.srcs)
    ensures Inv(DoPrepare(s, next, io))
  {
    assert s.session;
    hide Inv;
    if next !in s.fmap {
      PrepareSkips(s, next);
    } else if s.srcs[s.fmap[next]].name !in s.cfg.inSource {
      PrepareSkips(s, next);
    } else if s.srcs[s.fmap[next]].name in s.cfg.backupExcluded {
      PrepareStops(s, s.(cp := Copying, captureOn := true, aborted := true));
    } else if io {
      PrepareCreates(s, next);
    } else {
      PrepareStops(s, s.(cp := Failed, ioFailed := true, prepareFailed := true, captureOn := false));
    }
  }

  // ----- the copier -----

  /** The copier moves on without touching any object. */
  lemma CopierMoves(s: State, cp: BackupPc, gone: set<Path>)
    requires Inv(s) && Copied(s.cp) && Copied(cp) && (cp.CopyCreating? ==> NoReaders(s))
    requires CopierHolds(s.cp) == CopierHolds(cp) && (CopierHolds(cp) ==> cp.sid == s.cp.sid && cp.path == s.cp.path)
    requires cp.CopyCreating? && cp.present ==> cp.path in s.fs
    requires cp.CopyStatted? ==> Known(s, cp.path)
    ensures Inv(s.(cp := cp, goneSincePick := gone))
  {
    var s' := s.(cp := cp, goneSincePick := gone);
    assert CopierOk(s') && GoneOk(s') && s.session;
    hide Inv, NoReaders, CopierOk, GoneOk;
    SettledSame(s, s');
    assert NewlyCovered(s, s') by {
      hide Settled, HasDestination;
    }
    hide NewlyCovered, Settled;
    ControlStep(s, s');
  }

  /** What a step that changes one source_file has to show. */
  ghost predicate OneObjectStep(s: State, s': State, sid: Sid) {
    && BackupFields(s, s') && Excludes(s, s') && NoNewMarks(s, s')
    && SameObjects(s, s', None) && OthersUntouched(s, s', sid) && EntriesOk(s', sid) && RefsOnlyTo(s, None, sid)
    && (sid in s'.srcs ==> SrcOk(s', sid)) && CopierOk(s') && GoneOk(s') && DestinationsStay(s, s')
    && NewlyCovered(s, s')
  }

  lemma BackupOneObject(s: State, s': State, sid: Sid)
    requires Inv(s) && OneObjectStep(s, s', sid)
    ensures Inv(s')
  {
    BackupFrame(s, s');
    BackupCover(s, s');
    assert SrcsOk(s) && TableOk(s) && SameObjects(s, s', None);
    assert OthersUntouched(s, s', sid) && EntriesOk(s', sid) && RefsOnlyTo(s, None, sid)
      && (sid in s'.srcs ==> SrcOk(s', sid));
    assert CopierOk(s') && GoneOk(s');
    hide *;
    ObjectsStayOk(s, s', None, sid);
    AssembleBackup(s, s');
  }

  lemma CoverSame(s: State, s': State)
    requires s'.threads == s.threads && s'.fmap == s.fmap && s'.linked == s.linked && Copied(s.cp)
    requires CoverActive(s') ==> CoverActive(s) && Copied(s'.cp)
    ensures NewlyCovered(s, s')
  {
    SettledSame(s, s');
    hide Settled, HasDestination;
  }

  lemma CopyGetControl(s: State, p: Path, newId: Sid)
    requires GoneOk(s) && s.cp == CopyStatted(p) && CanGet(s, p, newId)
    ensures var s' := GetOrCreate(s, p, newId, ByCopier).(cp := CopyReferenced(p, SidFor(s, p, newId)));
      && GoneOk(s') && BackupFields(s, s') && Got(s, s', p, newId, ByCopier) && NewlyCovered(s, s') && Excludes(s, s')
  {
    var s' := GetOrCreate(s, p, newId, ByCopier).(cp := CopyReferenced(p, SidFor(s, p, newId)));
    CoverSame(s, s');
    hide NewlyCovered;
  }

  lemma CopyGetFacts(s: State, p: Path, newId: Sid)
    requires SrcsOk(s) && TableOk(s) && GoneOk(s) && s.cp == CopyStatted(p) && CanGet(s, p, newId) && Known(s, p)
    ensures var sid := SidFor(s, p, newId);
      OneObjectStep(s, GetOrCreate(s, p, newId, ByCopier).(cp := CopyReferenced(p, sid)), sid)
  {
    var sid := SidFor(s, p, newId);
    var s' := GetOrCreate(s, p, newId, ByCopier).(cp := CopyReferenced(p, sid));
    CopyGetControl(s, p, newId);
    hide SrcsOk, TableOk, GoneOk, GetOrCreate, TableFree, CanGet, NewlyCovered, Excludes;
    HoldsNothing(s, None);
    GotMarks(s, s', p, newId, ByCopier);
    GotSame(s, s', None, p, newId, ByCopier);
    GotOthers(s, s', p, newId, ByCopier);
    GotEntry(s, s', p, newId, ByCopier);
    GotDestinations(s, s', p, newId, ByCopier);
    assert CopierOk(s');
    BackupFrame(s, s');
    GotTarget(s, s', None, p, newId, ByCopier);
    hide Got, HasDestination, SrcOk, SameOthers, SameWorld, FreshClaims, NamesStay, SameObjects, OthersUntouched,
      EntriesOk;
    assert RefsOnlyTo(s, None, sid);
    assert DestinationsStay(s, s');
    hide *;
    assert OneObjectStep(s, s', sid);
  }

  lemma CopyGetKeepsInv(s: State, p: Path, newId: Sid)
    requires Inv(s) && s.cp == CopyStatted(p) && CanGet(s, p, newId)
    ensures Inv(GetOrCreate(s, p, newId, ByCopier).(cp := CopyReferenced(p, SidFor(s, p, newId))))
  {
    CopyGetFacts(s, p, newId);
    hide *;
    BackupOneObject(s, GetOrCreate(s, p, newId, ByCopier).(cp := CopyReferenced(p, SidFor(s, p, newId))),
      SidFor(s, p, newId));
  }

  lemma CopyFails(s: State, p: Path, sid: Sid)
    requires Inv(s) && s.cp.CopyCreating? && s.cp.sid == sid && s.cp.path == p
    ensures Inv(s.(ioFailed := true, cp := CopyDropping(p, sid, false)))
  {
    var s' := s.(ioFailed := true, cp := CopyDropping(p, sid, false));
    assert CopierOk(s') && GoneOk(s') && s.session && NewlyCovered(s, s');
    hide Inv, NoReaders, CopierOk, GoneOk, NewlyCovered;
    ControlStep(s, s');
  }

  lemma CopyCreatesGone(s: State, s': State, p: Path, sid: Sid, io: bool, cp: BackupPc)
    requires CopierOk(s) && GoneOk(s) && s.cp == CopyCreating(p, sid, true) && sid in s.srcs
    requires cp == CopyData(p, sid) || cp == CopyDetaching(p, sid)
    requires s' == TryCreate(s, sid, io).(cp := cp)
    ensures CopierOk(s') && GoneOk(s')
  {
  }

  lemma CopyCreates(s: State, p: Path, sid: Sid, io: bool, cp: BackupPc)
    requires Inv(s) && s.cp == CopyCreating(p, sid, true) && sid in s.srcs && !CreateFails(s, sid, io)
    requires cp == CopyData(p, sid) || cp == CopyDetaching(p, sid)
    ensures Inv(TryCreate(s, sid, io).(cp := cp))
  {
    var s' := TryCreate(s, sid, io).(cp := cp);
    CopyCreatesGone(s, s', p, sid, io, cp);
    CreatingDest(s, s', sid, io);
    CoverSame(s, s');
    assert BackupFields(s, s') && Excludes(s, s') && CopierStill(s, s') by {
      assert s.session;
      hide Inv, NoReaders;
    }
    hide *;
    assert DestStep(s, s');
    BackupDestStep(s, s');
  }

  lemma CopyCreateKeepsInv(s: State, p: Path, sid: Sid, present: bool, io: bool)
    requires Inv(s) && s.cp == CopyCreating(p, sid, present) && sid in s.srcs
    ensures Inv(DoCopyCreate(s, p, sid, present, io))
  {
    var s1 := TryCreate(s, sid, io);
    assert sid in s1.srcs;
    hide Inv, TryCreate, CreateFails;
    if !present {
      CopierMoves(s, CopyDetaching(p, sid), s.goneSincePick);
    } else if CreateFails(s, sid, io) {
      CopyFails(s, p, sid);
    } else if s1.srcs[sid].dest {
      CopyCreates(s, p, sid, io, CopyData(p, sid));
    } else {
      CopyCreates(s, p, sid, io, CopyDetaching(p, sid));
    }
  }

  /** The copier's own reference makes the count more than one for every mapped file. */
  lemma DetachSpares(s: State, s': State, sid: Sid)
    requires SrcsOk(s) && FdsOk(s) && Live(s, sid, ByCopier)
    requires s'.srcs == TryRemoveDest(s, sid).srcs && s'.cfg == s.cfg
    ensures DestinationsStay(s, s')
  {
    forall fd | fd in s.fmap && HasDestination(s, s.fmap[fd])
      ensures HasDestination(s', s.fmap[fd])
    {
      RemovedDestSpares(s, s', sid, ByCopier, fd);
    }
  }

  lemma RemovingDest(s: State, s': State, sid: Sid)
    requires sid in s.srcs && s'.table == s.table && s'.srcs == TryRemoveDest(s, sid).srcs
    ensures NoNewMarks(s, s') && ObjectsUntouched(s, s')
  {
    RemovedDestObjects(s, s', None, sid);
    hide *;
    hide ObjectsUntouched, MarkedUnlinked;
    assert NoNewMarks(s, s');
  }

  lemma CopyDetachGone(s: State, s': State, p: Path, sid: Sid)
    requires CopierOk(s) && GoneOk(s) && s.cp == CopyDetaching(p, sid) && sid in s.srcs
    requires s' == TryRemoveDest(s, sid).(cp := CopyDropping(p, sid, true))
    ensures CopierOk(s') && GoneOk(s')
  {
  }

  lemma CopyDetachKeepsInv(s: State, p: Path, sid: Sid)
    requires Inv(s) && s.cp == CopyDetaching(p, sid) && sid in s.srcs && TableFree(s)
    ensures Inv(TryRemoveDest(s, sid).(cp := CopyDropping(p, sid, true)))
  {
    var s' := TryRemoveDest(s, sid).(cp := CopyDropping(p, sid, true));
    CopyDetachGone(s, s', p, sid);
    RemovingDest(s, s', sid);
    DetachSpares(s, s', sid);
    CoverSame(s, s');
    assert BackupFields(s, s') && Excludes(s, s') && CopierStill(s, s') by {
      hide Inv, NoReaders;
    }
    hide *;
    assert DestStep(s, s');
    BackupDestStep(s, s');
  }

  lemma CopyDropDestinations(s: State, s': State, sid: Sid, src': Option<Src>)
    requires FdsOk(s) && sid in s.srcs && Released(s, s', sid, ByCopier, src')
    requires s'.cfg == s.cfg
    ensures DestinationsStay(s, s')
  {
    hide FdsOk, HasDestination, Released;
    forall fd | fd in s.fmap && HasDestination(s, s.fmap[fd])
      ensures HasDestination(s', s.fmap[fd])
    {
      ReleasedDestination(s, s', sid, ByCopier, src', fd);
    }
  }

  lemma CopyDropControl(s: State, s': State, p: Path, sid: Sid, ok: bool)
    requires GoneOk(s) && s.cp == CopyDropping(p, sid, ok) && sid in s.srcs && s.srcs[sid].count > 0
    requires var s1 := DropRef(s, sid, ByCopier);
      s' == s1.(cp := if ok then Copying else Failed, captureOn := s.captureOn && ok)
    ensures CopierOk(s') && GoneOk(s') && BackupFields(s, s')
  {
  }

  lemma CopyDropObjects(s: State, s': State, sid: Sid)
    requires SrcsOk(s) && TableOk(s) && FdsOk(s) && CopierHolds(s.cp) && s.cp.sid == sid && Live(s, sid, ByCopier)
    requires BackupFields(s, s') && Excludes(s, s')
    requires Released(s, s', sid, ByCopier, DroppedSrc(s.srcs[sid], ByCopier))
    ensures SameObjects(s, s', None) && OthersUntouched(s, s', sid) && EntriesOk(s', sid) && RefsOnlyTo(s, None, sid)
    ensures (sid in s'.srcs ==> SrcOk(s', sid)) && NoNewMarks(s, s') && DestinationsStay(s, s')
  {
    var src' := DroppedSrc(s.srcs[sid], ByCopier);
    assert RefsOnlyTo(s, None, sid) by {
      LiveIsHeld(s);
    }
    CopyDropTarget(s, s', sid);
    TableEntry(s, sid);
    hide SrcsOk, FdsOk, TableOk, Released, BackupFields, Excludes, SrcOk;
    ReleasedSame(s, s', None, sid, ByCopier, src');
    ReleasedEntry(s, s', sid, ByCopier, src');
    ReleasedMarks(s, s', sid, ByCopier, src');
    CopyDropDestinations(s, s', sid, src');
  }

  lemma CopyDropTarget(s: State, s': State, sid: Sid)
    requires SrcsOk(s) && TableOk(s) && CopierHolds(s.cp) && s.cp.sid == sid && Live(s, sid, ByCopier)
    requires BackupFields(s, s') && Excludes(s, s')
    requires Released(s, s', sid, ByCopier, DroppedSrc(s.srcs[sid], ByCopier))
    ensures sid in s'.srcs ==> SrcOk(s', sid)
  {
    var src' := DroppedSrc(s.srcs[sid], ByCopier);
    assert SrcOk(s, sid);
    LastRef(s, sid, ByCopier);
    ReleasedIn(s, s', sid, ByCopier, src');
    hide SrcsOk, Released;
    ReleasedMarks(s, s', sid, ByCopier, src');
    BackupFrame(s, s');
    if src'.Some? {
      ReleasedTarget(s, s', None, sid, ByCopier, src'.value);
    }
  }

  lemma ReleasedIn(s: State, s': State, sid: Sid, r: Ref, src': Option<Src>)
    requires sid in s.srcs && Released(s, s', sid, r, src')
    ensures sid in s'.srcs <==> src'.Some?
  {
  }

  lemma CopyDropKeepsInv(s: State, p: Path, sid: Sid, ok: bool)
    requires Inv(s) && s.cp == CopyDropping(p, sid, ok) && sid in s.srcs && s.srcs[sid].count > 0 && TableFree(s)
    ensures var s1 := DropRef(s, sid, ByCopier);
      Inv(s1.(cp := if ok then Copying else Failed, captureOn := s.captureOn && ok))
  {
    var s' := DropRef(s, sid, ByCopier).(cp := if ok then Copying else Failed, captureOn := s.captureOn && ok);
    CopyDropControl(s, s', p, sid, ok);
    assert Live(s, sid, ByCopier) && SrcOk(s, sid);
    DropReleases(s, s', sid, ByCopier);
    assert Excludes(s, s');
    CoverSame(s, s');
    CopyDropObjects(s, s', sid);
    hide *;
    assert OneObjectStep(s, s', sid);
    BackupOneObject(s, s', sid);
  }

  // ----- leaving the session -----

  lemma NoPromise(s: State, s': State)
    requires !CoverActive(s')
    ensures NewlyCovered(s, s')
  {
  }

  lemma StartDisableKeepsInv(s: State)
    requires Inv(s) && (s.cp.Copying? || s.cp.Failed?) && NoReaders(s)
    ensures Inv(s.(cp := Disabling(0)))
  {
    var s' := s.(cp := Disabling(0));
    NoPromise(s, s');
    assert CopierOk(s') && GoneOk(s');
    hide Inv, NoReaders, NewlyCovered, CopierOk, GoneOk;
    ControlStep(s, s');
  }

  lemma DisableMoves(s: State, s': State)
    requires Inv(s) && s.cp.Disabling?
    requires s' == s.(cp := Disabling(s.cp.next + 1)) || s' == s.(session := false, captureOn := false, cp := Done)
    ensures Inv(s')
  {
    NoPromise(s, s');
    WriterExcludesReaders(s);
    assert CopierOk(s') && GoneOk(s');
    hide Inv, NoReaders, NewlyCovered, CopierOk, GoneOk;
    ControlStep(s, s');
  }

  lemma DisableDetachGone(s: State, s': State, sid: Sid)
    requires GoneOk(s) && s.cp.Disabling? && sid in s.srcs
    requires s' == TryRemoveDest(s, sid).(cp := Disabling(s.cp.next + 1))
    ensures CopierOk(s') && GoneOk(s')
  {
  }

  lemma DisableDetaches(s: State, sid: Sid)
    requires Inv(s) && s.cp.Disabling? && sid in s.srcs
    ensures Inv(TryRemoveDest(s, sid).(cp := Disabling(s.cp.next + 1)))
  {
    var s' := TryRemoveDest(s, sid).(cp := Disabling(s.cp.next + 1));
    DisableDetachGone(s, s', sid);
    RemovingDest(s, s', sid);
    WriterExcludesReaders(s);
    hide Inv, NoReaders, CopierOk, GoneOk, NoNewMarks, ObjectsUntouched;
    assert BackupFields(s, s') && Excludes(s, s') && CopierStill(s, s') && s'.cp.Disabling?;
    DisableCover(s, s');
  }

  lemma DisableCover(s: State, s': State)
    requires Inv(s) && BackupFields(s, s') && Excludes(s, s') && NoNewMarks(s, s')
    requires ObjectsUntouched(s, s') && CopierStill(s, s') && CopierOk(s') && GoneOk(s') && s'.cp.Disabling?
    ensures Inv(s')
  {
    BackupFrame(s, s');
    CopierHoldings(s, s');
    DestStepSame(s, s');
    assert CoverOk(s');
    assert SrcsOk(s) && TableOk(s);
    hide *;
    UntouchedObjectsStayOk(s, s', None);
    AssembleBackup(s, s');
  }

  predicate CopierStep(b: BackupStep) {
    || b.CopyPick? || b.CopyGet? || b.CopyOpen? || b.CopyLock? || b.CopyCreate?
    || b.CopyDataEnd? || b.CopyDetach? || b.CopyDrop?
  }

  lemma CopierKeepsInv(s: State, b: BackupStep)
    requires Inv(s) && BackupEnabled(s, b) && CopierStep(b)
    ensures Inv(DoBackup(s, b))
  {
    hide Inv, TableFree, NoReaders;
    match b
    case CopyPick(p) => CopierMoves(s, CopyStatted(p), {});
    case CopyGet(newId) => CopyGetKeepsInv(s, s.cp.path, newId);
    case CopyOpen => CopierMoves(s, DoBackup(s, b).cp, s.goneSincePick);
    case CopyLock => CopyLockKeepsInv(s);
    case CopyCreate(io) => CopyCreateKeepsInv(s, s.cp.path, s.cp.sid, s.cp.present, io);
    case CopyDataEnd(ok) => CopierMoves(s, DoBackup(s, b).cp, s.goneSincePick);
    case CopyDetach => CopyDetachKeepsInv(s, s.cp.path, s.cp.sid);
    case CopyDrop => CopyDropKeepsInv(s, s.cp.path, s.cp.sid, s.cp.ok);
  }

  lemma CopyLockKeepsInv(s: State)
    requires Inv(s) && s.cp.CopyOpened? && TableFree(s)
    ensures Inv(s.(cp := CopyCreating(s.cp.path, s.cp.sid, s.cp.path in s.fs)))
  {
    hide Inv, NoReaders;
    CopierMoves(s, CopyCreating(s.cp.path, s.cp.sid, s.cp.path in s.fs), s.goneSincePick);
  }

  lemma SessionStepKeepsInv(s: State, b: BackupStep)
    requires Inv(s) && BackupEnabled(s, b) && !CopierStep(b)
    ensures Inv(DoBackup(s, b))
  {
    hide Inv, TableFree, NoReaders, PastEnd;
    match b
    case StartBackup => StartBackupKeepsInv(s);
    case PrepareOne(io) => PrepareKeepsInv(s, s.cp.next, io);
    case PrepareEnd => PrepareEndKeepsInv(s);
    case StartDisable => StartDisableKeepsInv(s);
    case DisableOne =>
      if s.cp.next in s.fmap {
        DisableDetaches(s, s.fmap[s.cp.next]);
      } else {
        DisableMoves(s, DoBackup(s, b));
      }
    case DisableEnd => DisableMoves(s, DoBackup(s, b));
  }

  lemma BackupKeepsInv(s: State, b: BackupStep)
    requires Inv(s) && BackupEnabled(s, b)
    ensures Inv(DoBackup(s, b))
  {
    hide *;
    if CopierStep(b) {
      CopierKeepsInv(s, b);
    } else {
      SessionStepKeepsInv(s, b);
    }
  }
}
