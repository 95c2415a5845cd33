/** One backup session and everything that happens around it: threads that open, close and unlink
    files, and the backup thread that prepares, copies and disables.

    A step is what one thread does between two points where another thread can interfere with it.
    Taking the session read lock and then the table lock is one step, because the thread does nothing
    in between.  Which locks are held follows from the program counters, except for `fileOp`, the
    mutex that serialises creating opens and unlinks.  All files are regular and have one name. */
module Session {
  import opened Basics

  type Path = string
  type Fd = nat
  type Tid = nat
  type Sid = nat

  /** Who accounts for one unit of a reference count. */
  datatype Ref = ByFd(fd: Fd) | ByThread(t: Tid) | ByCopier

  /** A source_file object.  The last three fields are history: who holds the counted references, how many were
      abandoned by an unlink() that could not create its destination, and whether creating the destination failed
      for an open() or an unlink(). */
  datatype Src = Src(name: Path, count: nat, unlinked: bool, dest: bool, refs: set<Ref>, leaked: nat, failed: bool)

  datatype Pc =
    // open()
    | Opening(fd: Fd, path: Path)              // the real open returned fd
    | Resolved(fd: Fd, path: Path)             // realpath found the file
    | Referenced(fd: Fd, sid: Sid)             // get_or_create_locked returned
    | Mapped(fd: Fd, sid: Sid)                 // the description is in the fmap
    | Creating(fd: Fd, sid: Sid, ok: bool)     // session read lock and table lock; capture_open has answered
    // close()
    | Closing(fd: Fd, sid: Sid)                // the fmap returned the description
    | Erasing(fd: Fd, sid: Sid)                // out of the session
    | Dropping(fd: Fd, sid: Sid)               // the slot is empty, the reference is still counted
    | RealClosing(fd: Fd)
    // unlink()
    | Unlinking(path: Path)                    // realpath found the file
    | Unlinked(path: Path)                     // the real unlink succeeded
    | UnlinkReferenced(path: Path, sid: Sid)

  datatype BackupPc =
    | NotStarted
    | Preparing(next: Fd)                      // session write lock and fmap lock
    | Copying
    | CopyStatted(path: Path)
    | CopyReferenced(path: Path, sid: Sid)
    | CopyOpened(path: Path, sid: Sid)
    | CopyCreating(path: Path, sid: Sid, present: bool)  // table lock; lstat has answered
    | CopyData(path: Path, sid: Sid)
    | CopyDetaching(path: Path, sid: Sid)
    | CopyDropping(path: Path, sid: Sid, ok: bool)
    | Failed                                   // an error ends the session
    | Disabling(next: Fd)                      // session write lock and fmap lock
    | Done

  /** Which paths lie under a source root, and which are excluded: unlink() and the copier ask about
      the source path, open() and prepare about its translation. */
  datatype Config = Config(inSource: iset<Path>, sourceExcluded: iset<Path>, backupExcluded: iset<Path>)

  datatype State = State(
    cfg: Config,
    fs: set<Path>,             // files that exist in the source
    backup: set<Path>,         // files that exist in the backup, by source path
    kernelFds: set<Fd>,
    fmap: map<Fd, Sid>,
    table: map<Path, Sid>,
    srcs: map<Sid, Src>,
    threads: map<Tid, Pc>,
    fileOp: Option<Tid>,
    session: bool,
    captureOn: bool,
    cp: BackupPc,
    // history
    everUnlinked: set<Path>,
    recreated: set<Path>,      // created again after an unlink
    captured: set<Path>,       // unlinked by a captured unlink that finished, and not created since
    linked: map<Fd, Path>,     // open descriptors whose file still has its name
    goneSincePick: set<Path>,  // unlinked since the copier picked its file
    ioFailed: bool,            // some mkdir, open or unlink on the backup side failed
    prepareFailed: bool,       // prepare could not create a destination
    aborted: bool,             // prepare met an excluded file and stopped
    crashed: bool)             // unlink() followed a NULL destination

  datatype AppStep =
    | RealOpen(fd: Fd, path: Path, creat: bool)
    | Realpath
    | GetSource(newId: Sid)
    | Put
    | EnterOpen(io: bool)
    | CreateOnOpen(io: bool)
    | StartClose(fd: Fd)
    | CloseDetach
    | Erase
    | Drop
    | RealClose
    | StartUnlink(path: Path)
    | RealUnlink(ok: bool)
    | UnlinkGet(newId: Sid)
    | CaptureUnlink(io: bool, ioUnlink: bool)

  datatype BackupStep =
    | StartBackup
    | PrepareOne(io: bool)
    | PrepareEnd
    | CopyPick(path: Path)
    | CopyGet(newId: Sid)
    | CopyOpen
    | CopyLock
    | CopyCreate(io: bool)
    | CopyDataEnd(ok: bool)
    | CopyDetach
    | CopyDrop
    | StartDisable
    | DisableOne
    | DisableEnd

  datatype Step = App(t: Tid, a: AppStep) | Backup(b: BackupStep)

  // ----- locks -----

  predicate WriterIn(cp: BackupPc) {
    cp.Preparing? || cp.Disabling?
  }

  /** No thread is inside a session read section; those that are also hold the table lock. */
  predicate NoReaders(s: State) {
    forall t :: t in s.threads ==> !s.threads[t].Creating?
  }

  predicate TableFree(s: State) {
    !s.cp.CopyCreating? && NoReaders(s)
  }

  predicate OwnsFd(pc: Pc, fd: Fd) {
    !pc.Unlinking? && !pc.Unlinked? && !pc.UnlinkReferenced? && pc.fd == fd
  }

  /** No open() or close() of this descriptor is under way. */
  predicate Settled(s: State, fd: Fd) {
    forall t :: t in s.threads ==> !OwnsFd(s.threads[t], fd)
  }

  // ----- the operations of source_file and file_hash_table -----

  predicate CanGet(s: State, p: Path, newId: Sid) {
    TableFree(s) && if p in s.table then s.table[p] in s.srcs else newId !in s.srcs
  }

  function SidFor(s: State, p: Path, newId: Sid): Sid {
    if p in s.table then s.table[p] else newId
  }

  function GotSrcs(s: State, p: Path, newId: Sid, r: Ref): map<Sid, Src>
    requires p in s.table ==> s.table[p] in s.srcs
  {
    if p in s.table then
      var src := s.srcs[s.table[p]];
      s.srcs[s.table[p] := src.(count := src.count + 1, refs := src.refs + {r})]
    else
      s.srcs[newId := Src(p, 1, false, false, {r}, 0, false)]
  }

  /** get_or_create: find the entry for the path or add one, and count a reference. */
  function GetOrCreate(s: State, p: Path, newId: Sid, r: Ref): State
    requires p in s.table ==> s.table[p] in s.srcs
  {
    s.(srcs := GotSrcs(s, p, newId, r), table := if p in s.table then s.table else s.table[p := newId])
  }

  predicate CreateFails(s: State, sid: Sid, io: bool)
    requires sid in s.srcs
  {
    !s.srcs[sid].unlinked && !s.srcs[sid].dest && !io
  }

  /** try_to_create_destination_file; `io` says whether the open of the backup file succeeds. */
  function TryCreate(s: State, sid: Sid, io: bool): State
    requires sid in s.srcs
  {
    var src := s.srcs[sid];
    var creates := !src.unlinked && !src.dest && io;
    s.(srcs := s.srcs[sid := src.(dest := src.dest || creates, failed := src.failed || CreateFails(s, sid, io))],
       backup := if creates then s.backup + {src.name} else s.backup,
       ioFailed := s.ioFailed || CreateFails(s, sid, io))
  }

  /** try_to_remove_destination. */
  function TryRemoveDest(s: State, sid: Sid): State
    requires sid in s.srcs
  {
    var src := s.srcs[sid];
    s.(srcs := if src.count > 1 then s.srcs else s.srcs[sid := src.(dest := false)])
  }

  /** try_to_remove: drop one reference, and the object with the last. */
  function DropRef(s: State, sid: Sid, r: Ref): State
    requires sid in s.srcs && s.srcs[sid].count > 0
  {
    var src := s.srcs[sid];
    s.(srcs := if src.count == 1 then s.srcs - {sid}
               else s.srcs[sid := src.(count := src.count - 1, refs := src.refs - {r})],
       table := if src.count == 1 then s.table - {src.name} else s.table)
  }

  /** The same reference, accounted for by someone else. */
  function MoveRef(s: State, sid: Sid, from: Ref, to: Ref): State
    requires sid in s.srcs
  {
    var src := s.srcs[sid];
    s.(srcs := s.srcs[sid := src.(refs := src.refs - {from} + {to})])
  }

  function Goto(s: State, t: Tid, pc: Pc): State {
    s.(threads := s.threads[t := pc])
  }

  /** The call returns, releasing the file-op mutex if the thread holds it. */
  function Finish(s: State, t: Tid): State {
    s.(threads := s.threads - {t}, fileOp := if s.fileOp == Some(t) then None else s.fileOp)
  }

  // ----- application steps -----

  predicate AppEnabled(s: State, t: Tid, a: AppStep) {
    if a.RealOpen? then
      t !in s.threads && a.fd !in s.kernelFds && (a.creat || a.path in s.fs) && (a.creat ==> s.fileOp.None?)
    else if a.StartClose? then
      // A program closes a descriptor it has, once.
      t !in s.threads && a.fd in s.kernelFds && Settled(s, a.fd) && !WriterIn(s.cp)
    else if a.StartUnlink? then
      t !in s.threads && s.fileOp.None? && a.path in s.fs
    else
      t in s.threads &&
      match (s.threads[t], a)
      case (Opening(_, _), Realpath) => true
      case (Resolved(_, p), GetSource(newId)) => CanGet(s, p, newId)
      case (Referenced(_, sid), Put) => !WriterIn(s.cp) && sid in s.srcs
      case (Mapped(_, sid), EnterOpen(_)) => !WriterIn(s.cp) && sid in s.srcs && (s.session ==> TableFree(s))
      case (Creating(_, sid, _), CreateOnOpen(_)) => sid in s.srcs
      case (Closing(_, sid), CloseDetach) => !WriterIn(s.cp) && sid in s.srcs && (s.session ==> TableFree(s))
      case (Erasing(_, sid), Erase) => !WriterIn(s.cp) && sid in s.srcs
      case (Dropping(_, sid), Drop) => TableFree(s) && sid in s.srcs && s.srcs[sid].count > 0
      case (RealClosing(_), RealClose) => true
      case (Unlinking(_), RealUnlink(_)) => true
      case (Unlinked(p), UnlinkGet(newId)) => CanGet(s, p, newId)
      case (UnlinkReferenced(_, sid), CaptureUnlink(_, _)) =>
        !WriterIn(s.cp) && TableFree(s) && sid in s.srcs && s.srcs[sid].count > 0
      case _ => false
  }

  function DoRealOpen(s: State, t: Tid, fd: Fd, p: Path, creat: bool): State {
    var s1 := s.(kernelFds := s.kernelFds + {fd}, linked := s.linked[fd := p],
                 threads := s.threads[t := Opening(fd, p)]);
    if !creat then s1 else
      s1.(fs := s.fs + {p}, fileOp := Some(t), captured := s.captured - {p},
          recreated := if p in s.everUnlinked && p !in s.fs then s.recreated + {p} else s.recreated)
  }

  /** capture_open: an excluded file or a failing mkdir is returned, not reported. */
  function DoEnterOpen(s: State, t: Tid, fd: Fd, sid: Sid, io: bool): State
    requires sid in s.srcs
  {
    if !s.session then Finish(s, t)
    else
      var p := s.srcs[sid].name;
      var wanted := p in s.fs && p in s.cfg.inSource && p !in s.cfg.backupExcluded;
      var failed := s.srcs[sid].failed || (wanted && !io);
      Goto(s.(srcs := s.srcs[sid := s.srcs[sid].(failed := failed)], ioFailed := s.ioFailed || (wanted && !io)),
           t, Creating(fd, sid, wanted && io))
  }

  function DoCreateOnOpen(s: State, t: Tid, sid: Sid, ok: bool, io: bool): State
    requires sid in s.srcs
  {
    if !ok then Finish(s, t)
    else Finish(TryCreate(s, sid, io).(captureOn := s.captureOn && !CreateFails(s, sid, io)), t)
  }

  predicate ShouldCaptureUnlink(s: State, p: Path) {
    s.session && s.captureOn && p in s.cfg.inSource && p !in s.cfg.sourceExcluded
  }

  /** The end of unlink(), captured or not: mark the object, let go of its destination and of the reference. */
  function UnlinkSource(s: State, t: Tid, sid: Sid): State
    requires sid in s.srcs && s.srcs[sid].count > 0
  {
    var s1 := s.(srcs := s.srcs[sid := s.srcs[sid].(unlinked := true)]);
    Finish(DropRef(TryRemoveDest(s1, sid), sid, ByThread(t)), t)
  }

  /** The destination cannot be created: the call returns at once and its reference stays counted. */
  function LeakRef(s: State, t: Tid, sid: Sid): State
    requires sid in s.srcs
  {
    var src := s.srcs[sid];
    Finish(s.(srcs := s.srcs[sid := src.(refs := src.refs - {ByThread(t)}, leaked := src.leaked + 1, failed := true)],
              ioFailed := true), t)
  }

  function DoCaptureUnlink(s: State, t: Tid, p: Path, sid: Sid, io: bool, ioUnlink: bool): State
    requires sid in s.srcs && s.srcs[sid].count > 0
  {
    if !ShouldCaptureUnlink(s, p) then UnlinkSource(s, t, sid)
    else if CreateFails(s, sid, io) then LeakRef(s, t, sid)
    else if s.srcs[sid].unlinked && !s.srcs[sid].dest then s.(crashed := true)
    else if !ioUnlink then UnlinkSource(TryCreate(s, sid, io).(ioFailed := true, captureOn := false), t, sid)
    else
      var s1 := TryCreate(s, sid, io);
      UnlinkSource(s1.(backup := s1.backup - {p}, captured := s1.captured + {p}), t, sid)
  }

  function DoRealpath(s: State, t: Tid, fd: Fd, p: Path): State {
    if p in s.fs then Goto(s, t, Resolved(fd, p)) else Finish(s.(captureOn := false), t)
  }

  function DoGetSource(s: State, t: Tid, fd: Fd, p: Path, newId: Sid): State
    requires CanGet(s, p, newId)
  {
    Goto(GetOrCreate(s, p, newId, ByThread(t)), t, Referenced(fd, SidFor(s, p, newId)))
  }

  function DoPut(s: State, t: Tid, fd: Fd, sid: Sid): State
    requires sid in s.srcs
  {
    Goto(MoveRef(s, sid, ByThread(t), ByFd(fd)).(fmap := s.fmap[fd := sid]), t, Mapped(fd, sid))
  }

  function DoStartClose(s: State, t: Tid, fd: Fd): State {
    Goto(s, t, if fd in s.fmap then Closing(fd, s.fmap[fd]) else RealClosing(fd))
  }

  function DoCloseDetach(s: State, t: Tid, fd: Fd, sid: Sid): State
    requires sid in s.srcs
  {
    Goto(if s.session then TryRemoveDest(s, sid) else s, t, Erasing(fd, sid))
  }

  function DoErase(s: State, t: Tid, fd: Fd, sid: Sid): State
    requires sid in s.srcs
  {
    Goto(MoveRef(s, sid, ByFd(fd), ByThread(t)).(fmap := s.fmap - {fd}), t, Dropping(fd, sid))
  }

  function DoDrop(s: State, t: Tid, fd: Fd, sid: Sid): State
    requires sid in s.srcs && s.srcs[sid].count > 0
  {
    Goto(DropRef(s, sid, ByThread(t)), t, RealClosing(fd))
  }

  function DoRealClose(s: State, t: Tid, fd: Fd): State {
    Finish(s.(kernelFds := s.kernelFds - {fd}, linked := s.linked - {fd}), t)
  }

  function DoRealUnlink(s: State, t: Tid, p: Path, ok: bool): State {
    if !ok then Finish(s, t)
    else
      Goto(s.(fs := s.fs - {p}, everUnlinked := s.everUnlinked + {p}, goneSincePick := s.goneSincePick + {p},
              linked := map fd | fd in s.linked && s.linked[fd] != p :: s.linked[fd]),
           t, Unlinked(p))
  }

  function DoUnlinkGet(s: State, t: Tid, p: Path, newId: Sid): State
    requires CanGet(s, p, newId)
  {
    Goto(GetOrCreate(s, p, newId, ByThread(t)), t, UnlinkReferenced(p, SidFor(s, p, newId)))
  }

  function DoApp(s: State, t: Tid, a: AppStep): State
    requires AppEnabled(s, t, a)
  {
    match a
    case RealOpen(fd, p, creat) => DoRealOpen(s, t, fd, p, creat)
    case Realpath => DoRealpath(s, t, s.threads[t].fd, s.threads[t].path)
    case GetSource(newId) => DoGetSource(s, t, s.threads[t].fd, s.threads[t].path, newId)
    case Put => DoPut(s, t, s.threads[t].fd, s.threads[t].sid)
    case EnterOpen(io) => DoEnterOpen(s, t, s.threads[t].fd, s.threads[t].sid, io)
    case CreateOnOpen(io) => DoCreateOnOpen(s, t, s.threads[t].sid, s.threads[t].ok, io)
    case StartClose(fd) => DoStartClose(s, t, fd)
    case CloseDetach => DoCloseDetach(s, t, s.threads[t].fd, s.threads[t].sid)
    case Erase => DoErase(s, t, s.threads[t].fd, s.threads[t].sid)
    case Drop => DoDrop(s, t, s.threads[t].fd, s.threads[t].sid)
    case RealClose => DoRealClose(s, t, s.threads[t].fd)
    case StartUnlink(p) => Goto(s.(fileOp := Some(t)), t, Unlinking(p))
    case RealUnlink(ok) => DoRealUnlink(s, t, s.threads[t].path, ok)
    case UnlinkGet(newId) => DoUnlinkGet(s, t, s.threads[t].path, newId)
    case CaptureUnlink(io, ioUnlink) => DoCaptureUnlink(s, t, s.threads[t].path, s.threads[t].sid, io, ioUnlink)
  }

  // ----- backup steps -----

  predicate PastEnd(s: State, fd: Fd) {
    forall f :: f in s.fmap ==> f < fd
  }

  predicate BackupEnabled(s: State, b: BackupStep) {
    match (s.cp, b)
    case (NotStarted, StartBackup) => NoReaders(s)
    case (Preparing(next), PrepareOne(_)) =>
      !PastEnd(s, next) && TableFree(s) && (next in s.fmap ==> s.fmap[next] in s.srcs)
    case (Preparing(next), PrepareEnd) => PastEnd(s, next)
    case (Copying, CopyPick(p)) => p in s.fs && p in s.cfg.inSource && p !in s.cfg.sourceExcluded
    case (CopyStatted(p), CopyGet(newId)) => CanGet(s, p, newId)
    case (CopyReferenced(_, _), CopyOpen) => true
    case (CopyOpened(_, _), CopyLock) => TableFree(s)
    case (CopyCreating(_, sid, _), CopyCreate(_)) => sid in s.srcs
    case (CopyData(_, _), CopyDataEnd(_)) => true
    case (CopyDetaching(_, sid), CopyDetach) => TableFree(s) && sid in s.srcs
    case (CopyDropping(_, sid, _), CopyDrop) => TableFree(s) && sid in s.srcs && s.srcs[sid].count > 0
    case (Copying, StartDisable) => NoReaders(s)
    case (Failed, StartDisable) => NoReaders(s)
    case (Disabling(next), DisableOne) => !PastEnd(s, next) && (next in s.fmap ==> s.fmap[next] in s.srcs)
    case (Disabling(next), DisableEnd) => PastEnd(s, next)
    case _ => false
  }

  /** One round of the loop in prepare_directories_for_backup. */
  function DoPrepare(s: State, next: Fd, io: bool): State
    requires next in s.fmap ==> s.fmap[next] in s.srcs
  {
    if next !in s.fmap then s.(cp := Preparing(next + 1))
    else
      var sid := s.fmap[next];
      var p := s.srcs[sid].name;
      if p !in s.cfg.inSource then s.(cp := Preparing(next + 1))
      else if p in s.cfg.backupExcluded then
        // Leaves the loop, with success.
        s.(cp := Copying, captureOn := true, aborted := true)
      else if io then TryCreate(s, sid, true).(cp := Preparing(next + 1))
      else s.(cp := Failed, ioFailed := true, prepareFailed := true, captureOn := false)
  }

  function DoCopyCreate(s: State, p: Path, sid: Sid, present: bool, io: bool): State
    requires sid in s.srcs
  {
    if !present then s.(cp := CopyDetaching(p, sid))
    else if CreateFails(s, sid, io) then s.(ioFailed := true, cp := CopyDropping(p, sid, false))
    else
      var s1 := TryCreate(s, sid, io);
      s1.(cp := if s1.srcs[sid].dest then CopyData(p, sid) else CopyDetaching(p, sid))
  }

  function DoBackup(s: State, b: BackupStep): State
    requires BackupEnabled(s, b)
  {
    match b
    case StartBackup => s.(session := true, cp := Preparing(0))
    case PrepareOne(io) => DoPrepare(s, s.cp.next, io)
    case PrepareEnd => s.(cp := Copying, captureOn := true)
    case CopyPick(p) => s.(cp := CopyStatted(p), goneSincePick := {})
    case CopyGet(newId) =>
      var p := s.cp.path;
      GetOrCreate(s, p, newId, ByCopier).(cp := CopyReferenced(p, SidFor(s, p, newId)))
    case CopyOpen =>
      var CopyReferenced(p, sid) := s.cp;
      s.(cp := if p in s.fs then CopyOpened(p, sid) else CopyDropping(p, sid, true))
    case CopyLock =>
      var CopyOpened(p, sid) := s.cp;
      s.(cp := CopyCreating(p, sid, p in s.fs))
    case CopyCreate(io) => DoCopyCreate(s, s.cp.path, s.cp.sid, s.cp.present, io)
    case CopyDataEnd(ok) =>
      var CopyData(p, sid) := s.cp;
      s.(cp := if ok then CopyDetaching(p, sid) else CopyDropping(p, sid, false))
    case CopyDetach =>
      var CopyDetaching(p, sid) := s.cp;
      TryRemoveDest(s, sid).(cp := CopyDropping(p, sid, true))
    case CopyDrop =>
      var CopyDropping(p, sid, ok) := s.cp;
      var s1 := DropRef(s, sid, ByCopier);
      if ok then s1.(cp := Copying) else s1.(cp := Failed, captureOn := false)
    case StartDisable => s.(cp := Disabling(0))
    case DisableOne =>
      var next := s.cp.next;
      (if next in s.fmap then TryRemoveDest(s, s.fmap[next]) else s).(cp := Disabling(next + 1))
    case DisableEnd => s.(session := false, captureOn := false, cp := Done)
  }

  // ----- runs -----

  predicate Enabled(s: State, step: Step) {
    !s.crashed &&
    match step
    case App(t, a) => AppEnabled(s, t, a)
    case Backup(b) => BackupEnabled(s, b)
  }

  function Do(s: State, step: Step): State
    requires Enabled(s, step)
  {
    match step
    case App(t, a) => DoApp(s, t, a)
    case Backup(b) => DoBackup(s, b)
  }

  /** Before the program has opened anything, with an empty backup directory. */
  predicate Init(s: State) {
    && s.backup == {} && s.kernelFds == {} && s.fmap == map[] && s.table == map[] && s.srcs == map[]
    && s.threads == map[] && s.fileOp.None? && !s.session && !s.captureOn && s.cp == NotStarted
    && s.everUnlinked == {} && s.recreated == {} && s.captured == {} && s.linked == map[] && s.goneSincePick == {}
    && !s.ioFailed && !s.prepareFailed && !s.aborted && !s.crashed
  }

  ghost predicate Reaches(s: State, steps: seq<Step>, t: State)
    decreases |steps|
  {
    if steps == [] then s == t
    else Enabled(s, steps[0]) && Reaches(Do(s, steps[0]), steps[1..], t)
  }
}
