/** The locks of the library: every interposed call except truncate(path), and the backup thread, wait for
    locks in one strict order, so some unfinished thread can always go on; and whatever they do is done under the lock
    that guards it. */
module LockOrder {
  import opened Basics
  import opened Ranges

  datatype Lock =
    | FileOp                                   // serialises creating opens, unlinks and renames
    | Description(fd: nat)
    | Bytes(file: nat, range: Range)
    | Session                                  // read-write lock
    | Fmap
    | Table
    | Name(file: nat)                          // read-write lock
    | FdOf(file: nat)
    | Todo
    | Errors

  function Rank(lock: Lock): nat {
    match lock
    case FileOp => 0
    case Description(_) => 1
    case Bytes(_, _) => 2
    case Session => 3
    case Fmap => 4
    case Table => 5
    case Name(_) => 6
    case FdOf(_) => 7
    case Todo => 7
    case Errors => 8
  }

  /** A lock as one thread wants or has it. */
  datatype Hold = Hold(lock: Lock, shared: bool)

  function Lk(lock: Lock): Hold { Hold(lock, false) }

  function Rd(lock: Lock): Hold { Hold(lock, true) }

  predicate Conflict(a: Hold, b: Hold) {
    if a.lock.Bytes? && b.lock.Bytes? then a.lock.file == b.lock.file && Intersects(a.lock.range, b.lock.range)
    else a.lock == b.lock && !(a.shared && b.shared)
  }

  /** What the locks are for. */
  datatype Work =
    | RealIO(file: nat, range: Range)          // the program's own write, pwrite or ftruncate
    | MirrorIO(file: nat, range: Range)        // the same on the backup
    | CopyIO(file: nat, range: Range)          // the copier reads the range and writes it to the backup
    | MoveOffset(fd: nat)                      // the kernel's offset moves, and the shadow with it
    | RealNaming                               // the program's own creating open, unlink or rename
    | UseSession(shared: bool)                 // looks at the session, or makes or ends it
    | UseFmap
    | UseTable
    | UseName(file: nat, shared: bool)         // relies on the name and the unlinked mark, or settles them
    | UseDestination(file: nat)                // creates or deletes the destination of an object
    | UseFlags(file: nat)
    | UseTodo
    | NoteError

  /** The lock that guards the work is held.  Disabling deletes destinations with the session to itself. */
  predicate Guards(held: set<Hold>, w: Work) {
    match w
    case RealIO(file, range) => Lk(Bytes(file, range)) in held
    case MirrorIO(file, range) => Lk(Bytes(file, range)) in held && Rd(Session) in held
    case CopyIO(file, range) => Lk(Bytes(file, range)) in held && Lk(FdOf(file)) in held
    case MoveOffset(fd) => Lk(Description(fd)) in held
    case RealNaming => Lk(FileOp) in held
    case UseSession(shared) => Hold(Session, shared) in held
    case UseFmap => Lk(Fmap) in held
    case UseTable => Lk(Table) in held
    case UseName(file, shared) => Lk(Table) in held && Hold(Name(file), shared) in held
    case UseDestination(_) => Lk(Table) in held || (Lk(Session) in held && Lk(Fmap) in held)
    case UseFlags(file) => Lk(FdOf(file)) in held
    case UseTodo => Lk(Todo) in held
    case NoteError => Lk(Errors) in held
  }

  datatype Action = Acquire(h: Hold) | Release(h: Hold) | Mark(w: Work)

  type Program = seq<Action>

  // ----- programs -----

  predicate Above(held: set<Hold>, h: Hold) {
    forall g :: g in held ==> Rank(g.lock) < Rank(h.lock)
  }

  function Holding(held: set<Hold>, a: Action): set<Hold> {
    match a
    case Acquire(h) => held + {h}
    case Release(h) => held - {h}
    case Mark(_) => held
  }

  /** An action in its place: it waits only for a lock above all that are held, releases only what is held, and works
      only under the lock that guards the work. */
  predicate Proper(held: set<Hold>, a: Action) {
    match a
    case Acquire(h) => Above(held, h)
    case Release(h) => h in held
    case Mark(w) => Guards(held, w)
  }

  predicate Ordered(held: set<Hold>, p: Program)
    decreases |p|
  {
    p == [] || (Proper(held, p[0]) && Ordered(Holding(held, p[0]), p[1..]))
  }

  function After(held: set<Hold>, p: Program): set<Hold>
    decreases |p|
  {
    if p == [] then held else After(Holding(held, p[0]), p[1..])
  }

  predicate Balanced(held: set<Hold>, p: Program) {
    Ordered(held, p) && After(held, p) == held
  }

  function WorkIn(a: Action): seq<Work> {
    if a.Mark? then [a.w] else []
  }

  /** The work of a program, in its order. */
  function Works(p: Program): seq<Work> {
    if p == [] then [] else WorkIn(p[0]) + Works(p[1..])
  }

  lemma {:induction false} OrderedConcat(held: set<Hold>, p: Program, q: Program)
    ensures Ordered(held, p + q) <==> Ordered(held, p) && Ordered(After(held, p), q)
    ensures After(held, p + q) == After(After(held, p), q)
    decreases |p|
  {
    hide Proper, Holding;
    if p == [] {
      assert p + q == q;
    } else {
      assert (p + q)[1..] == p[1..] + q;
      OrderedConcat(Holding(held, p[0]), p[1..], q);
    }
  }

  lemma {:induction false} WorksConcat(p: Program, q: Program)
    ensures Works(p + q) == Works(p) + Works(q)
  {
    hide WorkIn;
    if p == [] {
      assert p + q == q;
    } else {
      WorksConcat(p[1..], q);
      assert (p + q)[1..] == p[1..] + q;
      Associative(WorkIn(p[0]), Works(p[1..]), Works(q));
    }
  }

  lemma Associative<T>(a: seq<T>, b: seq<T>, c: seq<T>)
    ensures a + (b + c) == a + b + c
  {
  }

  lemma One(held: set<Hold>, a: Action)
    ensures Ordered(held, [a]) == Proper(held, a) && After(held, [a]) == Holding(held, a)
    ensures Works([a]) == WorkIn(a)
  {
    assert [a][1..] == [];
  }

  lemma ThenFacts(p: Program, q: Program)
    ensures forall held: set<Hold> {:trigger Balanced(held, p + q)} ::
              Balanced(held, p) && Balanced(held, q) ==> Balanced(held, p + q)
  {
    forall held: set<Hold> | Balanced(held, p) && Balanced(held, q)
      ensures Balanced(held, p + q)
    {
      OrderedConcat(held, p, q);
    }
  }

  /** One after the other. */
  function Then(p: Program, q: Program): (r: Program)
    ensures forall held: set<Hold> {:trigger Balanced(held, r)} ::
              Balanced(held, p) && Balanced(held, q) ==> Balanced(held, r)
  {
    ThenFacts(p, q);
    p + q
  }

  lemma UnderBalanced(held: set<Hold>, h: Hold, p: Program)
    requires Above(held, h) && Balanced(held + {h}, p)
    ensures Balanced(held, [Acquire(h)] + p + [Release(h)])
  {
    assert h !in held && held + {h} - {h} == held;
    One(held, Acquire(h));
    One(held + {h}, Release(h));
    OrderedConcat(held, [Acquire(h)], p);
    OrderedConcat(held, [Acquire(h)] + p, [Release(h)]);
  }

  lemma UnderFacts(h: Hold, p: Program)
    ensures forall held: set<Hold> {:trigger Balanced(held, [Acquire(h)] + p + [Release(h)])} ::
              Above(held, h) && Balanced(held + {h}, p) ==> Balanced(held, [Acquire(h)] + p + [Release(h)])
  {
    forall held: set<Hold> | Above(held, h) && Balanced(held + {h}, p)
      ensures Balanced(held, [Acquire(h)] + p + [Release(h)])
    {
      UnderBalanced(held, h, p);
    }
  }

  /** A critical section. */
  function Under(h: Hold, p: Program): (r: Program)
    ensures forall held: set<Hold> {:trigger Balanced(held, r)} ::
              Above(held, h) && Balanced(held + {h}, p) ==> Balanced(held, r)
  {
    UnderFacts(h, p);
    [Acquire(h)] + p + [Release(h)]
  }

  function If(c: bool, p: Program): (r: Program)
    ensures forall held: set<Hold> {:trigger Balanced(held, r)} :: (c ==> Balanced(held, p)) ==> Balanced(held, r)
  {
    if c then p else []
  }

  lemma MarkFacts(w: Work)
    ensures forall held: set<Hold> {:trigger Balanced(held, [Mark(w)])} :: Guards(held, w) ==> Balanced(held, [Mark(w)])
  {
    forall held: set<Hold> | Guards(held, w)
      ensures Balanced(held, [Mark(w)])
    {
      One(held, Mark(w));
    }
  }

  /** Some work, guarded by what is held anyway. */
  function Does(ws: seq<Work>): (r: Program)
    ensures forall held: set<Hold> {:trigger Balanced(held, r)} ::
              (forall w :: w in ws ==> Guards(held, w)) ==> Balanced(held, r)
  {
    if ws == [] then []
    else
      MarkFacts(ws[0]);
      Then([Mark(ws[0])], Does(ws[1..]))
  }

  lemma HandOverBalanced(held: set<Hold>, d: Hold, b: Hold, p: Program, q: Program)
    requires Above(held, d) && Above(held + {d}, b) && Balanced(held + {d} + {b}, p) && Balanced(held + {b}, q)
    ensures Balanced(held, [Acquire(d)] + [Acquire(b)] + p + [Release(d)] + q + [Release(b)])
  {
    var both := held + {d} + {b};
    assert d !in held && b !in held && b != d && both - {d} == held + {b} && held + {b} - {b} == held;
    One(held, Acquire(d));
    One(held + {d}, Acquire(b));
    One(both, Release(d));
    One(held + {b}, Release(b));
    OrderedConcat(held, [Acquire(d)], [Acquire(b)]);
    OrderedConcat(held, [Acquire(d)] + [Acquire(b)], p);
    OrderedConcat(held, [Acquire(d)] + [Acquire(b)] + p, [Release(d)]);
    OrderedConcat(held, [Acquire(d)] + [Acquire(b)] + p + [Release(d)], q);
    OrderedConcat(held, [Acquire(d)] + [Acquire(b)] + p + [Release(d)] + q, [Release(b)]);
  }

  lemma HandOverFacts(d: Hold, b: Hold, p: Program, q: Program, r: Program)
    requires r == [Acquire(d)] + [Acquire(b)] + p + [Release(d)] + q + [Release(b)]
    ensures forall held: set<Hold> {:trigger Balanced(held, r)} ::
              Above(held, d) && Above(held + {d}, b) && Balanced(held + {d} + {b}, p) && Balanced(held + {b}, q) ==>
                Balanced(held, r)
  {
    hide Balanced, Above;
    forall held: set<Hold> | Above(held, d) && Above(held + {d}, b) && Balanced(held + {d} + {b}, p)
                             && Balanced(held + {b}, q)
      ensures Balanced(held, r)
    {
      HandOverBalanced(held, d, b, p, q);
    }
  }

  /** Two critical sections that overlap: the first lock is given back while the second is kept. */
  function HandOver(d: Hold, b: Hold, p: Program, q: Program): (r: Program)
    ensures forall held: set<Hold> {:trigger Balanced(held, r)} ::
              Above(held, d) && Above(held + {d}, b) && Balanced(held + {d} + {b}, p) && Balanced(held + {b}, q) ==>
                Balanced(held, r)
  {
    var r := [Acquire(d)] + [Acquire(b)] + p + [Release(d)] + q + [Release(b)];
    HandOverFacts(d, b, p, q, r);
    r
  }

  // ----- what the calls do -----

  /** A call may report any number of errors at once; each report takes the error mutex. */
  function Reports(errors: nat): (r: Program)
    ensures forall held: set<Hold> {:trigger Balanced(held, r)} :: Above(held, Lk(Errors)) ==> Balanced(held, r)
  {
    if errors == 0 then []
    else
      Then(Under(Lk(Errors), Does([NoteError])), Reports(errors - 1))
  }

  /** What the copier does with one file: its ranges, and the errors reported while each is locked. */
  datatype Piece = Piece(range: Range, errors: nat)

  /** What the copier meets at the front of its list. */
  datatype Entry =
    | Refused                          // the poll callback stops the copy before the entry is taken off the list
    | Passed(errors: nat)              // excluded, not there, not readable, or neither file nor directory
    | Listing(errors: nat)
    | Copy(file: nat, found: bool, pieces: seq<Piece>, detached: bool, detachErrors: nat, errors: nat,
           dropErrors: nat)

  /** A round of the walk, and whether its end is reached. */
  datatype Round = Round(entry: Entry, done: bool)

  /** A description that prepare or disable goes through. */
  datatype Described = Described(file: nat, errors: nat)

  /** Every call on a known descriptor with every outcome: where it ends early, whether there is a session, and how many
      errors are reported where. */
  datatype Call =
    | Open(creat: bool, file: nat, early: nat, made: bool, inSession: bool, errors: nat)
    | Close(file: nat, inSession: bool, detachErrors: nat, dropErrors: nat)
    | Write(fd: nat, file: nat, range: Range, inSession: bool, errors: nat)
    | Read(fd: nat)
    | PWrite(file: nat, range: Range, wrote: bool, inSession: bool, errors: nat)
    | Seek(fd: nat)
    | Ftruncate(file: nat, len: nat, cut: bool, inSession: bool, errors: nat)
    | Unlink(file: nat, early: nat, unlinked: bool, errors: nat, created: bool, detachErrors: nat, dropErrors: nat)
    | Rename(file: nat, early: nat, renamed: bool, inSession: bool, both: bool, created: bool, errors: nat,
             dropErrors: nat, listed: bool)
    | Mkdir(errors: nat)
    | Backup(started: bool, prepared: seq<Described>, walks: seq<seq<Round>>, disabled: seq<Described>, errors: nat)

  function LookUp(): Program { Under(Lk(Fmap), Does([UseFmap])) }

  function InSession(p: Program): Program { Under(Rd(Session), Then(Does([UseSession(true)]), p)) }

  /** The mirror half of a call, under the range lock that the call holds already. */
  function MirrorHalf(file: nat, range: Range, inSession: bool, errors: nat): Program {
    InSession(If(inSession, Then(Does([MirrorIO(file, range)]), Reports(errors))))
  }

  /** pwrite and ftruncate.  The mirror half is left out when the real call fails. */
  function Locked(file: nat, range: Range, went: bool, inSession: bool, errors: nat): Program {
    Under(Lk(Bytes(file, range)),
          Then(Does([RealIO(file, range)]), If(went, MirrorHalf(file, range, inSession, errors))))
  }

  /** The object and the description are made; in a session, the backup file too. */
  function OpenMade(file: nat, inSession: bool, errors: nat): Program {
    Then(Then(Under(Lk(Table), Then(Does([UseTable]), Under(Lk(FdOf(file)), Does([UseFlags(file)])))), LookUp()),
         InSession(
           If(inSession,
              Then(LookUp(),
                   Under(Lk(Table),
                         Under(Rd(Name(file)),
                               Then(Does([UseName(file, true), UseDestination(file)]), Reports(errors))))))))
  }

  function OpenBody(file: nat, early: nat, made: bool, inSession: bool, errors: nat): Program {
    Then(Reports(early), If(made, OpenMade(file, inSession, errors)))
  }

  function CloseBody(file: nat, inSession: bool, detachErrors: nat, dropErrors: nat): Program {
    Then(Then(Then(LookUp(),
                   InSession(If(inSession,
                                Under(Lk(Table), Then(Does([UseDestination(file)]), Reports(detachErrors)))))),
              LookUp()),
         Under(Lk(Table), Then(Does([UseTable, UseDestination(file)]), Reports(dropErrors))))
  }

  /** The description is unlocked, its offset moved, while the range is still locked. */
  function WriteBody(fd: nat, file: nat, range: Range, inSession: bool, errors: nat): Program {
    HandOver(Lk(Description(fd)), Lk(Bytes(file, range)), Does([RealIO(file, range), MoveOffset(fd)]),
             MirrorHalf(file, range, inSession, errors))
  }

  /** Under the table lock: the backup file is found and unlinked; then the object is marked and given back. */
  function CapturedUnlink(file: nat, errors: nat, created: bool, detachErrors: nat, dropErrors: nat): Program {
    Then(Then(Does([UseDestination(file)]), Reports(errors)),
         If(created,
            Then(Under(Lk(Name(file)), Then(Does([UseName(file, false), UseDestination(file)]), Reports(detachErrors))),
                 Then(Does([UseTable, UseDestination(file)]), Reports(dropErrors)))))
  }

  function UnlinkBody(file: nat, early: nat, unlinked: bool, errors: nat, created: bool, detachErrors: nat,
                      dropErrors: nat):
    Program
  {
    Then(Then(Reports(early), Does([RealNaming])),
         If(unlinked,
            Then(Under(Lk(Table), Does([UseTable])),
                 InSession(Under(Lk(Table), CapturedUnlink(file, errors, created, detachErrors, dropErrors))))))
  }

  /** Under the table lock: the object gets its backup file, leaves its bucket, and returns under the new name. */
  function CapturedRename(file: nat, created: bool, errors: nat, dropErrors: nat): Program {
    Then(Does([UseTable, UseDestination(file)]),
         If(created,
            Then(Under(Lk(Name(file)), Then(Does([UseName(file, false), UseTable]), Reports(errors))),
                 Then(Does([UseTable, UseDestination(file)]), Reports(dropErrors)))))
  }

  function RenameBody(file: nat, early: nat, renamed: bool, inSession: bool, both: bool, created: bool, errors: nat,
                      dropErrors: nat, listed: bool):
    Program
  {
    Then(Then(Reports(early), Does([RealNaming])),
         If(renamed,
            InSession(
              If(inSession,
                 if both then Then(Under(Lk(Table), CapturedRename(file, created, errors, dropErrors)),
                                   If(listed, Under(Lk(Todo), Does([UseTodo]))))
                 else Reports(errors)))))
  }

  function PrepareAll(files: seq<Described>): Program {
    if files == [] then []
    else
      var Described(file, errors) := files[0];
      Then(Under(Lk(Table),
                 Under(Rd(Name(file)), Then(Does([UseName(file, true), UseDestination(file)]), Reports(errors)))),
           PrepareAll(files[1..]))
  }

  function DisableAll(files: seq<Described>): Program {
    if files == [] then []
    else Then(Then(Does([UseDestination(files[0].file)]), Reports(files[0].errors)), DisableAll(files[1..]))
  }

  function CopyPieces(file: nat, pieces: seq<Piece>): Program {
    if pieces == [] then []
    else
      Then(Under(Lk(Bytes(file, pieces[0].range)),
                 Under(Lk(FdOf(file)),
                       Then(Does([UseFlags(file), CopyIO(file, pieces[0].range)]), Reports(pieces[0].errors)))),
           CopyPieces(file, pieces[1..]))
  }

  /** The file is looked up; its destination is made, the data copied, the destination deleted; then the file is given
      back. */
  function CopyFile(file: nat, found: bool, pieces: seq<Piece>, detached: bool, detachErrors: nat, errors: nat,
                    dropErrors: nat):
    Program
  {
    Then(Then(Then(Then(Under(Lk(Table), Does([UseTable])), Under(Lk(FdOf(file)), Does([UseFlags(file)]))),
                   If(found,
                      Then(Then(Under(Lk(Table),
                                      Under(Lk(Name(file)), Does([UseName(file, false), UseDestination(file)]))),
                                CopyPieces(file, pieces)),
                           If(detached,
                              Under(Lk(Table), Then(Does([UseDestination(file)]), Reports(detachErrors))))))),
              Reports(errors)),
         Under(Lk(Table), Then(Does([UseTable, UseDestination(file)]), Reports(dropErrors))))
  }

  function UseList(): Program { Under(Lk(Todo), Does([UseTodo])) }

  function CopyEntry(entry: Entry): Program {
    match entry
    case Refused => []
    case Passed(errors) => Reports(errors)
    case Listing(errors) => Then(UseList(), Reports(errors))
    case Copy(file, found, pieces, detached, detachErrors, errors, dropErrors) =>
      CopyFile(file, found, pieces, detached, detachErrors, errors, dropErrors)
  }

  /** The front of the list is read, taken off and handled, and the list is measured again. */
  function CopyRound(r: Round): Program {
    Then(UseList(), If(!r.entry.Refused?, Then(Then(UseList(), CopyEntry(r.entry)), If(r.done, UseList()))))
  }

  function CopyRounds(rounds: seq<Round>): Program {
    if rounds == [] then [] else Then(CopyRound(rounds[0]), CopyRounds(rounds[1..]))
  }

  /** The directories one after the other; each walk begins by putting the root on the list and ends by clearing it. */
  function CopyAll(walks: seq<seq<Round>>): Program {
    if walks == [] then []
    else Then(Then(Then(UseList(), CopyRounds(walks[0])), UseList()), CopyAll(walks[1..]))
  }

  function BackupBody(prepared: seq<Described>, walks: seq<seq<Round>>, disabled: seq<Described>, errors: nat):
    Program
  {
    Then(Then(Then(Under(Lk(Session),
                         Then(Then(Does([UseSession(false)]), UseList()),
                              Under(Lk(Fmap), Then(Does([UseFmap]), PrepareAll(prepared))))),
                   CopyAll(walks)),
              Reports(errors)),
         Under(Lk(Session),
               Then(Then(Does([UseSession(false)]), Under(Lk(Fmap), Then(Does([UseFmap]), DisableAll(disabled)))),
                    UseList())))
  }

  function ProgramOf(call: Call): Program {
    match call
    case Open(creat, file, early, made, inSession, errors) =>
      if creat then Under(Lk(FileOp), Then(Does([RealNaming]), OpenBody(file, early, made, inSession, errors)))
      else OpenBody(file, early, made, inSession, errors)
    case Close(file, inSession, detachErrors, dropErrors) => CloseBody(file, inSession, detachErrors, dropErrors)
    case Write(fd, file, range, inSession, errors) => Then(LookUp(), WriteBody(fd, file, range, inSession, errors))
    case Read(fd) => Then(LookUp(), Under(Lk(Description(fd)), Does([MoveOffset(fd)])))
    case PWrite(file, range, wrote, inSession, errors) => Then(LookUp(), Locked(file, range, wrote, inSession, errors))
    case Seek(fd) => Then(LookUp(), Under(Lk(Description(fd)), Does([MoveOffset(fd)])))
    case Ftruncate(file, len, cut, inSession, errors) =>
      Then(LookUp(), Locked(file, Range(len, LLONG_MAX), cut, inSession, errors))
    case Unlink(file, early, unlinked, errors, created, detachErrors, dropErrors) =>
      Under(Lk(FileOp), UnlinkBody(file, early, unlinked, errors, created, detachErrors, dropErrors))
    case Rename(file, early, renamed, inSession, both, created, errors, dropErrors, listed) =>
      Under(Lk(FileOp), RenameBody(file, early, renamed, inSession, both, created, errors, dropErrors, listed))
    case Mkdir(errors) => InSession(Reports(errors))
    case Backup(started, prepared, walks, disabled, errors) =>
      if started then BackupBody(prepared, walks, disabled, errors) else Reports(errors)
  }

  // ----- they are ordered, and guarded -----

  lemma OpenBalanced(held: set<Hold>, file: nat, early: nat, made: bool, inSession: bool, errors: nat)
    requires forall g :: g in held ==> g.lock == FileOp
    ensures Balanced(held, OpenBody(file, early, made, inSession, errors))
  {
    hide Balanced, Then, Under, If, Does, Reports;
  }

  lemma CloseBalanced(file: nat, inSession: bool, detachErrors: nat, dropErrors: nat)
    ensures Balanced({}, CloseBody(file, inSession, detachErrors, dropErrors))
  {
    hide Balanced, Then, Under, If, Does, Reports;
  }

  lemma LockedBalanced(file: nat, range: Range, went: bool, inSession: bool, errors: nat)
    ensures Balanced({}, Locked(file, range, went, inSession, errors))
  {
    hide Balanced, Then, Under, If, Does, Reports;
  }

  lemma WriteBalanced(fd: nat, file: nat, range: Range, inSession: bool, errors: nat)
    ensures Balanced({}, WriteBody(fd, file, range, inSession, errors))
  {
    hide Balanced, Then, Under, If, Does, Reports, HandOver;
  }

  lemma UnlinkBalanced(held: set<Hold>, file: nat, early: nat, unlinked: bool, errors: nat, created: bool,
                       detachErrors: nat, dropErrors: nat)
    requires held == {} + {Lk(FileOp)}
    ensures Balanced(held, UnlinkBody(file, early, unlinked, errors, created, detachErrors, dropErrors))
  {
    hide Balanced, Then, Under, If, Does, Reports;
    assert Balanced(held + {Rd(Session)} + {Lk(Table)},
                    CapturedUnlink(file, errors, created, detachErrors, dropErrors));
    hide CapturedUnlink;
  }

  lemma RenameBalanced(held: set<Hold>, file: nat, early: nat, renamed: bool, inSession: bool, both: bool,
                       created: bool, errors: nat, dropErrors: nat, listed: bool)
    requires held == {} + {Lk(FileOp)}
    ensures Balanced(held, RenameBody(file, early, renamed, inSession, both, created, errors, dropErrors, listed))
  {
    hide Balanced, Then, Under, If, Does, Reports;
    assert Balanced(held + {Rd(Session)} + {Lk(Table)}, CapturedRename(file, created, errors, dropErrors));
    hide CapturedRename;
  }

  lemma {:induction false} PrepareBalanced(held: set<Hold>, files: seq<Described>)
    requires Above(held, Lk(Table))
    ensures Balanced(held, PrepareAll(files))
  {
    hide Balanced, Then, Under, Does, Reports;
    if files == [] {
      NothingBalanced(held);
    } else {
      PrepareBalanced(held, files[1..]);
    }
  }

  lemma {:induction false} DisableBalanced(held: set<Hold>, files: seq<Described>)
    requires held == {} + {Lk(Session)} + {Lk(Fmap)}
    ensures Balanced(held, DisableAll(files))
  {
    hide Balanced, Then, Does, Reports;
    if files == [] {
      NothingBalanced(held);
    } else {
      DisableBalanced(held, files[1..]);
    }
  }

  lemma NothingBalanced(held: set<Hold>)
    ensures Balanced(held, [])
  {
  }

  lemma {:induction false} PiecesBalanced(file: nat, pieces: seq<Piece>)
    ensures Balanced({}, CopyPieces(file, pieces))
  {
    hide Balanced, Then, Under, Does, Reports;
    if pieces == [] {
      NothingBalanced({});
    } else {
      PiecesBalanced(file, pieces[1..]);
    }
  }

  lemma EntryBalanced(entry: Entry)
    ensures Balanced({}, CopyEntry(entry))
  {
    hide Balanced, Then, Under, If, Does, Reports, CopyPieces;
    NothingBalanced({});
    if entry.Copy? {
      PiecesBalanced(entry.file, entry.pieces);
    }
  }

  lemma RoundBalanced(r: Round)
    ensures Balanced({}, CopyRound(r))
  {
    hide Balanced, Then, Under, If, Does, CopyEntry;
    EntryBalanced(r.entry);
  }

  lemma {:induction false} RoundsBalanced(rounds: seq<Round>)
    ensures Balanced({}, CopyRounds(rounds))
  {
    hide Balanced, Then, CopyRound;
    if rounds == [] {
      NothingBalanced({});
    } else {
      RoundBalanced(rounds[0]);
      RoundsBalanced(rounds[1..]);
    }
  }

  lemma {:induction false} CopyBalanced(walks: seq<seq<Round>>)
    ensures Balanced({}, CopyAll(walks))
  {
    hide Balanced, Then, Under, Does, CopyRounds;
    if walks == [] {
      NothingBalanced({});
    } else {
      RoundsBalanced(walks[0]);
      CopyBalanced(walks[1..]);
    }
  }

  lemma BackupBalanced(prepared: seq<Described>, walks: seq<seq<Round>>, disabled: seq<Described>, errors: nat)
    ensures Balanced({}, BackupBody(prepared, walks, disabled, errors))
  {
    hide Balanced, Then, Under, Does, Reports, PrepareAll, DisableAll, CopyAll;
    var inside := {} + {Lk(Session)} + {Lk(Fmap)};
    PrepareBalanced(inside, prepared);
    DisableBalanced(inside, disabled);
    CopyBalanced(walks);
  }

  /** Every call, with every outcome, waits only upwards, releases everything, and works only under the lock that
      guards the work. */
  lemma EveryCallIsBalanced(call: Call)
    ensures Balanced({}, ProgramOf(call))
  {
    hide Balanced, Then, Under, Does, Reports, OpenBody, CloseBody, WriteBody, Locked, UnlinkBody, RenameBody,
      BackupBody;
    match call
    case Open(_, file, early, made, inSession, errors) =>
      OpenBalanced({}, file, early, made, inSession, errors);
      OpenBalanced({} + {Lk(FileOp)}, file, early, made, inSession, errors);
    case Close(file, inSession, detachErrors, dropErrors) => CloseBalanced(file, inSession, detachErrors, dropErrors);
    case Write(fd, file, range, inSession, errors) => WriteBalanced(fd, file, range, inSession, errors);
    case Read(fd) =>
    case PWrite(file, range, wrote, inSession, errors) => LockedBalanced(file, range, wrote, inSession, errors);
    case Seek(fd) =>
    case Ftruncate(file, len, cut, inSession, errors) =>
      LockedBalanced(file, Range(len, LLONG_MAX), cut, inSession, errors);
    case Unlink(file, early, unlinked, errors, created, detachErrors, dropErrors) =>
      UnlinkBalanced({} + {Lk(FileOp)}, file, early, unlinked, errors, created, detachErrors, dropErrors);
    case Rename(file, early, renamed, inSession, both, created, errors, dropErrors, listed) =>
      RenameBalanced({} + {Lk(FileOp)}, file, early, renamed, inSession, both, created, errors, dropErrors, listed);
    case Mkdir(errors) =>
    case Backup(started, prepared, walks, disabled, errors) => BackupBalanced(prepared, walks, disabled, errors);
  }

  /** truncate(path) takes the session and then the table and a byte range: that call is out of order. */
  lemma TruncateIsOutOfOrder(file: nat, range: Range)
    ensures !Ordered({}, Under(Rd(Session), Then(Under(Lk(Table), []), Under(Lk(Bytes(file, range)), []))))
  {
    var session, table, bytes := Rd(Session), Lk(Table), Lk(Bytes(file, range));
    var body := Under(table, []) + Under(bytes, []);
    One({}, Acquire(session));
    OrderedConcat({}, [Acquire(session)], body);
    OrderedConcat({}, [Acquire(session)] + body, [Release(session)]);
    NothingBalanced({session} + {table});
    UnderBalanced({session}, table, []);
    OrderedConcat({session}, Under(table, []), Under(bytes, []));
    assert {} + {session} == {session};
    assert Under(bytes, [])[0] == Acquire(bytes);
    assert !Ordered({session}, Under(bytes, []));
  }

  // ----- what is done -----

  lemma SilentParts(a: Program, p: Program)
    requires Works(a) == []
    ensures Works(a + p) == Works(p) && Works(p + a) == Works(p)
  {
    WorksConcat(a, p);
    WorksConcat(p, a);
    hide Works;
    assert [] + Works(p) == Works(p);
  }

  lemma HandOverWorks(d: Hold, b: Hold, p: Program, q: Program)
    ensures Works(HandOver(d, b, p, q)) == Works(p) + Works(q)
  {
    One({}, Acquire(d));
    One({}, Acquire(b));
    One({}, Release(d));
    One({}, Release(b));
    hide Works;
    SilentParts([Acquire(d)], [Acquire(b)]);
    SilentParts([Acquire(d)] + [Acquire(b)], p);
    SilentParts([Release(d)], [Acquire(d)] + [Acquire(b)] + p);
    WorksConcat([Acquire(d)] + [Acquire(b)] + p + [Release(d)], q);
    SilentParts([Release(b)], [Acquire(d)] + [Acquire(b)] + p + [Release(d)] + q);
  }

  lemma {:induction false} DoesWorks(ws: seq<Work>)
    ensures Works(Does(ws)) == ws
  {
    if ws != [] {
      DoesWorks(ws[1..]);
      One({}, Mark(ws[0]));
      WorksConcat([Mark(ws[0])], Does(ws[1..]));
    }
  }

  function Notes(errors: nat): seq<Work> {
    seq(errors, _ => NoteError)
  }

  lemma UnderWorks(h: Hold, p: Program)
    ensures Works(Under(h, p)) == Works(p)
  {
    One({}, Acquire(h));
    One({}, Release(h));
    hide Works;
    SilentParts([Acquire(h)], p);
    SilentParts([Release(h)], [Acquire(h)] + p);
  }

  lemma {:induction false} ReportsWorks(errors: nat)
    ensures Works(Reports(errors)) == Notes(errors)
  {
    if errors > 0 {
      ReportsWorks(errors - 1);
      var one := Under(Lk(Errors), Does([NoteError]));
      UnderWorks(Lk(Errors), Does([NoteError]));
      DoesWorks([NoteError]);
      WorksConcat(one, Reports(errors - 1));
      assert Notes(errors) == [NoteError] + Notes(errors - 1);
    }
  }

  /** How the parts of a program contribute to its work. */
  lemma WorksOfParts()
    ensures Works([]) == []
    ensures forall p, q {:trigger Works(Then(p, q))} :: Works(Then(p, q)) == Works(p) + Works(q)
    ensures forall h, p {:trigger Works(Under(h, p))} :: Works(Under(h, p)) == Works(p)
    ensures forall c, p {:trigger Works(If(c, p))} :: Works(If(c, p)) == if c then Works(p) else []
    ensures forall ws {:trigger Works(Does(ws))} :: Works(Does(ws)) == ws
    ensures forall n: nat {:trigger Works(Reports(n))} :: Works(Reports(n)) == Notes(n)
    ensures forall d, b, p, q {:trigger Works(HandOver(d, b, p, q))} ::
              Works(HandOver(d, b, p, q)) == Works(p) + Works(q)
  {
    forall p, q
      ensures Works(Then(p, q)) == Works(p) + Works(q)
    {
      WorksConcat(p, q);
    }
    forall h, p
      ensures Works(Under(h, p)) == Works(p)
    {
      UnderWorks(h, p);
    }
    forall ws
      ensures Works(Does(ws)) == ws
    {
      DoesWorks(ws);
    }
    forall n: nat
      ensures Works(Reports(n)) == Notes(n)
    {
      ReportsWorks(n);
    }
    forall d, b, p, q
      ensures Works(HandOver(d, b, p, q)) == Works(p) + Works(q)
    {
      HandOverWorks(d, b, p, q);
    }
  }

  function Mirrored(file: nat, range: Range, inSession: bool, errors: nat): seq<Work> {
    [UseSession(true)] + if inSession then [MirrorIO(file, range)] + Notes(errors) else []
  }

  function PrepareWork(files: seq<Described>): seq<Work> {
    if files == [] then []
    else
      [UseName(files[0].file, true), UseDestination(files[0].file)] + Notes(files[0].errors) + PrepareWork(files[1..])
  }

  function DisableWork(files: seq<Described>): seq<Work> {
    if files == [] then []
    else [UseDestination(files[0].file)] + Notes(files[0].errors) + DisableWork(files[1..])
  }

  function PiecesWork(file: nat, pieces: seq<Piece>): seq<Work> {
    if pieces == [] then []
    else [UseFlags(file), CopyIO(file, pieces[0].range)] + Notes(pieces[0].errors) + PiecesWork(file, pieces[1..])
  }

  function EntryWork(entry: Entry): seq<Work> {
    match entry
    case Refused => []
    case Passed(errors) => Notes(errors)
    case Listing(errors) => [UseTodo] + Notes(errors)
    case Copy(file, found, pieces, detached, detachErrors, errors, dropErrors) =>
      [UseTable, UseFlags(file)]
      + (if found
         then [UseName(file, false), UseDestination(file)] + PiecesWork(file, pieces)
              + (if detached then [UseDestination(file)] + Notes(detachErrors) else [])
         else [])
      + Notes(errors) + [UseTable, UseDestination(file)] + Notes(dropErrors)
  }

  function RoundsWork(rounds: seq<Round>): seq<Work> {
    if rounds == [] then []
    else
      [UseTodo]
      + (if rounds[0].entry.Refused? then []
         else [UseTodo] + EntryWork(rounds[0].entry) + if rounds[0].done then [UseTodo] else [])
      + RoundsWork(rounds[1..])
  }

  function CopyWork(walks: seq<seq<Round>>): seq<Work> {
    if walks == [] then [] else [UseTodo] + RoundsWork(walks[0]) + [UseTodo] + CopyWork(walks[1..])
  }

  function OpenWork(file: nat, inSession: bool, errors: nat): seq<Work> {
    [UseTable, UseFlags(file), UseFmap, UseSession(true)]
    + if inSession then [UseFmap, UseName(file, true), UseDestination(file)] + Notes(errors) else []
  }

  function CapturedUnlinkWork(file: nat, errors: nat, created: bool, detachErrors: nat, dropErrors: nat): seq<Work> {
    [UseDestination(file)] + Notes(errors)
    + if !created then []
      else [UseName(file, false), UseDestination(file)] + Notes(detachErrors)
           + ([UseTable, UseDestination(file)] + Notes(dropErrors))
  }

  function CapturedRenameWork(file: nat, created: bool, errors: nat, dropErrors: nat): seq<Work> {
    [UseTable, UseDestination(file)]
    + if !created then []
      else [UseName(file, false), UseTable] + Notes(errors)
           + ([UseTable, UseDestination(file)] + Notes(dropErrors))
  }

  /** What each call does, in this order. */
  function WorkOf(call: Call): seq<Work> {
    match call
    case Open(creat, file, early, made, inSession, errors) =>
      (if creat then [RealNaming] else [])
      + (Notes(early) + if made then OpenWork(file, inSession, errors) else [])
    case Close(file, inSession, detachErrors, dropErrors) =>
      [UseFmap, UseSession(true)] + (if inSession then [UseDestination(file)] + Notes(detachErrors) else [])
      + [UseFmap, UseTable, UseDestination(file)] + Notes(dropErrors)
    case Write(fd, file, range, inSession, errors) =>
      [UseFmap, RealIO(file, range), MoveOffset(fd)] + Mirrored(file, range, inSession, errors)
    case Read(fd) => [UseFmap, MoveOffset(fd)]
    case PWrite(file, range, wrote, inSession, errors) =>
      [UseFmap, RealIO(file, range)] + if wrote then Mirrored(file, range, inSession, errors) else []
    case Seek(fd) => [UseFmap, MoveOffset(fd)]
    case Ftruncate(file, len, cut, inSession, errors) =>
      [UseFmap, RealIO(file, Range(len, LLONG_MAX))]
      + if cut then Mirrored(file, Range(len, LLONG_MAX), inSession, errors) else []
    case Unlink(file, early, unlinked, errors, created, detachErrors, dropErrors) =>
      Notes(early) + [RealNaming]
      + if unlinked
        then [UseTable, UseSession(true)] + CapturedUnlinkWork(file, errors, created, detachErrors, dropErrors)
        else []
    case Rename(file, early, renamed, inSession, both, created, errors, dropErrors, listed) =>
      Notes(early) + [RealNaming]
      + if !renamed then []
        else [UseSession(true)]
             + if !inSession then []
               else if !both then Notes(errors)
               else CapturedRenameWork(file, created, errors, dropErrors) + if listed then [UseTodo] else []
    case Mkdir(errors) => [UseSession(true)] + Notes(errors)
    case Backup(started, prepared, walks, disabled, errors) =>
      if !started then Notes(errors)
      else
        [UseSession(false), UseTodo, UseFmap] + PrepareWork(prepared) + CopyWork(walks) + Notes(errors)
        + [UseSession(false), UseFmap] + DisableWork(disabled) + [UseTodo]
  }

  lemma {:induction false} PrepareWorks(files: seq<Described>)
    ensures Works(PrepareAll(files)) == PrepareWork(files)
  {
    hide Works, Then, Under, Does, Reports, Notes;
    WorksOfParts();
    if files != [] {
      PrepareWorks(files[1..]);
    }
  }

  lemma {:induction false} DisableWorks(files: seq<Described>)
    ensures Works(DisableAll(files)) == DisableWork(files)
  {
    hide Works, Then, Under, Does, Reports, Notes;
    WorksOfParts();
    if files != [] {
      DisableWorks(files[1..]);
    }
  }

  lemma {:induction false} PiecesWorks(file: nat, pieces: seq<Piece>)
    ensures Works(CopyPieces(file, pieces)) == PiecesWork(file, pieces)
  {
    hide Works, Then, Under, Does, Reports, Notes;
    WorksOfParts();
    if pieces != [] {
      PiecesWorks(file, pieces[1..]);
    }
  }

  lemma EntryWorks(entry: Entry)
    ensures Works(CopyEntry(entry)) == EntryWork(entry)
  {
    hide Works, Then, Under, If, Does, Reports, Notes, CopyPieces, PiecesWork;
    WorksOfParts();
    if entry.Copy? {
      PiecesWorks(entry.file, entry.pieces);
    }
  }

  lemma {:induction false} RoundsWorks(rounds: seq<Round>)
    ensures Works(CopyRounds(rounds)) == RoundsWork(rounds)
  {
    hide Works, Then, Under, If, Does, Reports, Notes, CopyEntry, EntryWork;
    WorksOfParts();
    if rounds != [] {
      EntryWorks(rounds[0].entry);
      RoundsWorks(rounds[1..]);
    }
  }

  lemma {:induction false} CopyWorks(walks: seq<seq<Round>>)
    ensures Works(CopyAll(walks)) == CopyWork(walks)
  {
    hide Works, Then, Under, Does, CopyRounds, RoundsWork;
    WorksOfParts();
    if walks != [] {
      RoundsWorks(walks[0]);
      CopyWorks(walks[1..]);
    }
  }

  lemma OpenMadeWorks(file: nat, inSession: bool, errors: nat)
    ensures Works(OpenMade(file, inSession, errors)) == OpenWork(file, inSession, errors)
  {
    hide Works, Then, Under, If, Does, Reports, Notes;
    WorksOfParts();
  }

  lemma OpenWorks(call: Call)
    requires call.Open?
    ensures Works(ProgramOf(call)) == WorkOf(call)
  {
    hide Works, Then, Under, If, Does, Reports, Notes, OpenMade, OpenWork;
    WorksOfParts();
    OpenMadeWorks(call.file, call.inSession, call.errors);
  }

  lemma CloseWorks(call: Call)
    requires call.Close?
    ensures Works(ProgramOf(call)) == WorkOf(call)
  {
    hide Works, Then, Under, If, Does, HandOver, Reports, Notes;
    WorksOfParts();
  }

  lemma WriteWorks(call: Call)
    requires call.Write?
    ensures Works(ProgramOf(call)) == WorkOf(call)
  {
    hide Works, Then, Under, If, Does, HandOver, Reports, Notes;
    WorksOfParts();
  }

  lemma PWriteWorks(call: Call)
    requires call.PWrite?
    ensures Works(ProgramOf(call)) == WorkOf(call)
  {
    hide Works, Then, Under, If, Does, HandOver, Reports, Notes;
    WorksOfParts();
  }

  lemma FtruncateWorks(call: Call)
    requires call.Ftruncate?
    ensures Works(ProgramOf(call)) == WorkOf(call)
  {
    hide Works, Then, Under, If, Does, HandOver, Reports, Notes;
    WorksOfParts();
  }

  lemma CapturedUnlinkWorks(file: nat, errors: nat, created: bool, detachErrors: nat, dropErrors: nat)
    ensures Works(CapturedUnlink(file, errors, created, detachErrors, dropErrors))
         == CapturedUnlinkWork(file, errors, created, detachErrors, dropErrors)
  {
    hide Works, Then, Under, If, Does, Reports, Notes;
    WorksOfParts();
  }

  lemma UnlinkWorks(call: Call)
    requires call.Unlink?
    ensures Works(ProgramOf(call)) == WorkOf(call)
  {
    hide Works, Then, Under, If, Does, Reports, Notes, CapturedUnlink, CapturedUnlinkWork;
    WorksOfParts();
    CapturedUnlinkWorks(call.file, call.errors, call.created, call.detachErrors, call.dropErrors);
  }

  lemma CapturedRenameWorks(file: nat, created: bool, errors: nat, dropErrors: nat)
    ensures Works(CapturedRename(file, created, errors, dropErrors))
         == CapturedRenameWork(file, created, errors, dropErrors)
  {
    hide Works, Then, Under, If, Does, Reports, Notes;
    WorksOfParts();
  }

  lemma RenameWorks(call: Call)
    requires call.Rename?
    ensures Works(ProgramOf(call)) == WorkOf(call)
  {
    hide Works, Then, Under, If, Does, Reports, Notes, CapturedRename, CapturedRenameWork;
    WorksOfParts();
    CapturedRenameWorks(call.file, call.created, call.errors, call.dropErrors);
  }

  lemma BackupWorks(call: Call)
    requires call.Backup?
    ensures Works(ProgramOf(call)) == WorkOf(call)
  {
    hide Works, Then, Under, Does, Reports, Notes, PrepareAll, PrepareWork, DisableAll, DisableWork, CopyAll, CopyWork;
    WorksOfParts();
    PrepareWorks(call.prepared);
    DisableWorks(call.disabled);
    CopyWorks(call.walks);
  }

  /** No work is left out, and none is done twice. */
  lemma EveryCallDoesItsWork(call: Call)
    ensures Works(ProgramOf(call)) == WorkOf(call)
  {
    if call.Open? {
      OpenWorks(call);
    } else if call.Close? {
      CloseWorks(call);
    } else if call.Write? {
      WriteWorks(call);
    } else if call.PWrite? {
      PWriteWorks(call);
    } else if call.Ftruncate? {
      FtruncateWorks(call);
    } else if call.Unlink? {
      UnlinkWorks(call);
    } else if call.Rename? {
      RenameWorks(call);
    } else if call.Backup? {
      BackupWorks(call);
    } else {
      hide Works, Then, Under, Does, Reports, Notes;
      WorksOfParts();
    }
  }

  /** In particular: what the calls do on the files and their names, whenever they do it. */
  lemma CallsWork(call: Call)
    ensures call.Write? ==> RealIO(call.file, call.range) in Works(ProgramOf(call))
    ensures call.Write? && call.inSession ==> MirrorIO(call.file, call.range) in Works(ProgramOf(call))
    ensures call.PWrite? ==> RealIO(call.file, call.range) in Works(ProgramOf(call))
    ensures call.PWrite? && call.wrote && call.inSession ==> MirrorIO(call.file, call.range) in Works(ProgramOf(call))
    ensures call.Ftruncate? ==> RealIO(call.file, Range(call.len, LLONG_MAX)) in Works(ProgramOf(call))
    ensures call.Ftruncate? && call.cut && call.inSession ==>
      MirrorIO(call.file, Range(call.len, LLONG_MAX)) in Works(ProgramOf(call))
    ensures call.Write? || call.Read? || call.Seek? ==> MoveOffset(call.fd) in Works(ProgramOf(call))
    ensures (call.Open? && call.creat) || call.Unlink? || call.Rename? ==> RealNaming in Works(ProgramOf(call))
    ensures call.Open? && call.made && call.inSession ==>
      UseName(call.file, true) in Works(ProgramOf(call)) && UseDestination(call.file) in Works(ProgramOf(call))
    ensures call.Unlink? && call.unlinked && call.created ==>
      UseName(call.file, false) in Works(ProgramOf(call)) && UseDestination(call.file) in Works(ProgramOf(call))
    ensures call.Rename? && call.renamed && call.inSession && call.both && call.created ==>
      UseName(call.file, false) in Works(ProgramOf(call)) && UseTable in Works(ProgramOf(call))
  {
    EveryCallDoesItsWork(call);
    hide ProgramOf, Works, CopyWork, PrepareWork, DisableWork, Notes;
  }

  // ----- threads -----

  /** A thread inside a call: the locks it holds, and what is left of the call's program. */
  datatype Thread = Thread(call: Call, held: set<Hold>, rest: Program)

  type System = map<nat, Thread>

  /** Nobody else has what the thread asks for. */
  predicate Free(s: System, t: nat, h: Hold) {
    forall u, g :: u in s && u != t && g in s[u].held ==> !Conflict(g, h)
  }

  /** The permissive lock lets a reader pass a writer that is still waiting. */
  predicate CanStep(s: System, t: nat) {
    t in s && s[t].rest != [] && (s[t].rest[0].Acquire? ==> Free(s, t, s[t].rest[0].h))
  }

  predicate WaitsFor(s: System, u: nat, h: Hold) {
    u in s && s[u].rest != [] && s[u].rest[0] == Acquire(h)
  }

  /** The strict lock also keeps a reader waiting as long as a writer waits. */
  predicate CanStepStrictly(s: System, t: nat) {
    CanStep(s, t) &&
    (s[t].rest[0].Acquire? && s[t].rest[0].h.shared ==>
      forall u :: u in s && u != t ==> !WaitsFor(s, u, Lk(s[t].rest[0].h.lock)))
  }

  datatype Step = Begin(t: nat, call: Call) | Act(t: nat)

  predicate Enabled(s: System, step: Step) {
    match step
    case Begin(t, _) => t in s ==> s[t].rest == []
    case Act(t) => CanStep(s, t)
  }

  function Do(s: System, step: Step): System
    requires Enabled(s, step)
  {
    match step
    case Begin(t, call) => s[t := Thread(call, {}, ProgramOf(call))]
    case Act(t) => s[t := s[t].(held := Holding(s[t].held, s[t].rest[0]), rest := s[t].rest[1..])]
  }

  ghost predicate Reaches(s: System, steps: seq<Step>, t: System)
    decreases |steps|
  {
    if steps == [] then s == t
    else Enabled(s, steps[0]) && Reaches(Do(s, steps[0]), steps[1..], t)
  }

  /** `p` is what is left of `whole` at some point. */
  predicate Remains(p: Program, whole: Program) {
    |p| <= |whole| && p == whole[|whole| - |p|..]
  }

  ghost predicate Inv(s: System) {
    && (forall t :: t in s ==> Ordered(s[t].held, s[t].rest) && After(s[t].held, s[t].rest) == {})
    && (forall t :: t in s ==> Remains(s[t].rest, ProgramOf(s[t].call)))
    && (forall t, u, g, h :: t in s && u in s && t != u && g in s[t].held && h in s[u].held ==> !Conflict(g, h))
  }

  lemma ConflictIsSymmetric(a: Hold, b: Hold)
    ensures Conflict(a, b) == Conflict(b, a)
    ensures Conflict(a, b) ==> Rank(a.lock) == Rank(b.lock)
  {
  }

  lemma StepKeepsInv(s: System, step: Step)
    requires Inv(s) && Enabled(s, step)
    ensures Inv(Do(s, step))
  {
    hide ProgramOf, Guards;
    var s' := Do(s, step);
    match step
    case Begin(t, call) =>
      EveryCallIsBalanced(call);
      assert Remains(s'[t].rest, ProgramOf(call));
    case Act(t) =>
      assert Ordered(s[t].held, s[t].rest);
      assert Remains(s[t].rest, ProgramOf(s[t].call));
      assert Remains(s'[t].rest, ProgramOf(s[t].call));
      forall u, g, h | u in s' && u != t && g in s'[u].held && h in s'[t].held
        ensures !Conflict(g, h) && !Conflict(h, g)
      {
        ConflictIsSymmetric(g, h);
        assert g in s[u].held;
        if h !in s[t].held {
          assert s[t].rest[0] == Acquire(h) && Free(s, t, h);
        }
      }
  }

  lemma {:induction false} RunKeepsInv(s: System, steps: seq<Step>, t: System)
    requires Inv(s) && Reaches(s, steps, t)
    ensures Inv(t)
    decreases |steps|
  {
    if steps != [] {
      StepKeepsInv(s, steps[0]);
      RunKeepsInv(Do(s, steps[0]), steps[1..], t);
    }
  }

  /** Mutual exclusion: two threads never hold conflicting locks. */
  lemma NoConflictingHolders(steps: seq<Step>, s: System, t: nat, u: nat, g: Hold, h: Hold)
    requires Reaches(map[], steps, s) && t in s && u in s && t != u && g in s[t].held && h in s[u].held
    ensures !Conflict(g, h)
  {
    RunKeepsInv(map[], steps, s);
  }

  // ----- work under its lock -----

  predicate At(s: System, t: nat, w: Work) {
    t in s && s[t].rest != [] && s[t].rest[0] == Mark(w)
  }

  /** Wherever a thread is about to work, it holds the lock that guards the work. */
  lemma WorkIsGuarded(steps: seq<Step>, s: System, t: nat, w: Work)
    requires Reaches(map[], steps, s) && At(s, t, w)
    ensures Guards(s[t].held, w)
  {
    RunKeepsInv(map[], steps, s);
    assert Ordered(s[t].held, s[t].rest);
  }

  predicate HasRange(w: Work) {
    w.RealIO? || w.MirrorIO? || w.CopyIO?
  }

  /** Two pieces of work that must not go on at the same time. */
  predicate Clash(v: Work, w: Work) {
    || (HasRange(v) && HasRange(w) && v.file == w.file && Intersects(v.range, w.range))
    || (v.UseName? && w.UseName? && v.file == w.file && !(v.shared && w.shared))
    || (v.UseSession? && w.UseSession? && !(v.shared && w.shared))
    || (v.MirrorIO? && w == UseSession(false))
    || (v == w && (v.RealNaming? || v.UseFmap? || v.UseTable? || v.UseTodo? || v.NoteError? || v.MoveOffset?
                   || v.UseFlags?))
  }

  lemma ClashingLocksConflict(held: set<Hold>, v: Work, other: set<Hold>, w: Work) returns (g: Hold, h: Hold)
    requires Guards(held, v) && Guards(other, w) && Clash(v, w)
    ensures g in held && h in other && Conflict(g, h)
  {
    match v
    case RealIO(file, range) => g, h := Lk(Bytes(file, range)), Lk(Bytes(w.file, w.range));
    case MirrorIO(file, range) =>
      if w == UseSession(false) {
        g, h := Rd(Session), Lk(Session);
      } else {
        g, h := Lk(Bytes(file, range)), Lk(Bytes(w.file, w.range));
      }
    case CopyIO(file, range) => g, h := Lk(Bytes(file, range)), Lk(Bytes(w.file, w.range));
    case UseName(file, shared) => g, h := Hold(Name(file), shared), Hold(Name(file), w.shared);
    case UseSession(shared) => g, h := Hold(Session, shared), Hold(Session, w.shared);
    case MoveOffset(fd) => g, h := Lk(Description(fd)), Lk(Description(fd));
    case UseFlags(file) => g, h := Lk(FdOf(file)), Lk(FdOf(file));
    case RealNaming => g, h := Lk(FileOp), Lk(FileOp);
    case UseFmap => g, h := Lk(Fmap), Lk(Fmap);
    case UseTable => g, h := Lk(Table), Lk(Table);
    case UseTodo => g, h := Lk(Todo), Lk(Todo);
    case NoteError => g, h := Lk(Errors), Lk(Errors);
  }

  /** No two threads are ever at work that clashes. */
  lemma NoClash(steps: seq<Step>, s: System, t: nat, u: nat, v: Work, w: Work)
    requires Reaches(map[], steps, s) && t != u && At(s, t, v) && At(s, u, w)
    ensures !Clash(v, w)
  {
    WorkIsGuarded(steps, s, t, v);
    WorkIsGuarded(steps, s, u, w);
    hide Reaches, Guards, Clash, Conflict;
    if Clash(v, w) {
      var g, h := ClashingLocksConflict(s[t].held, v, s[u].held, w);
      NoConflictingHolders(steps, s, t, u, g, h);
    }
  }

  // ----- between the real call and the unlock -----

  /** What a write, pwrite or ftruncate writes to. */
  function Writes(call: Call): Option<(nat, Range)> {
    match call
    case Write(_, file, range, _, _) => Some((file, range))
    case PWrite(file, range, _, _, _) => Some((file, range))
    case Ftruncate(file, len, _, _, _) => Some((file, Range(len, LLONG_MAX)))
    case _ => None
  }

  /** The thread has come to the real call, or passed it, and has not unlocked the range. */
  predicate Between(th: Thread) {
    Writes(th.call).Some? &&
    var (file, range) := Writes(th.call).value;
    th.rest != [] && Mark(RealIO(file, range)) !in th.rest[1..] && Release(Lk(Bytes(file, range))) in th.rest
  }

  predicate Takes(p: Program, h: Hold) {
    Acquire(h) in p
  }

  lemma {:induction false} DoesTakesNothing(ws: seq<Work>, h: Hold)
    ensures !Takes(Does(ws), h)
  {
    if ws != [] {
      DoesTakesNothing(ws[1..], h);
    }
  }

  lemma {:induction false} ReportsTakeErrors(errors: nat, h: Hold)
    ensures Takes(Reports(errors), h) ==> h == Lk(Errors)
  {
    if errors > 0 {
      DoesTakesNothing([NoteError], h);
      ReportsTakeErrors(errors - 1, h);
    }
  }

  /** What the parts of a program lock. */
  lemma TakesOfParts(h: Hold)
    ensures !Takes([], h)
    ensures forall p, q {:trigger Takes(Then(p, q), h)} :: Takes(Then(p, q), h) <==> Takes(p, h) || Takes(q, h)
    ensures forall g, p {:trigger Takes(Under(g, p), h)} :: Takes(Under(g, p), h) <==> g == h || Takes(p, h)
    ensures forall c, p {:trigger Takes(If(c, p), h)} :: Takes(If(c, p), h) <==> c && Takes(p, h)
    ensures forall ws {:trigger Takes(Does(ws), h)} :: !Takes(Does(ws), h)
    ensures forall n: nat {:trigger Takes(Reports(n), h)} :: Takes(Reports(n), h) ==> h == Lk(Errors)
  {
    forall ws
      ensures !Takes(Does(ws), h)
    {
      DoesTakesNothing(ws, h);
    }
    forall n: nat
      ensures Takes(Reports(n), h) ==> h == Lk(Errors)
    {
      ReportsTakeErrors(n, h);
    }
  }

  lemma MirrorTakes(file: nat, range: Range, inSession: bool, errors: nat)
    ensures !Takes(MirrorHalf(file, range, inSession, errors), Lk(Bytes(file, range)))
  {
    hide Takes, Then, Under, If, Does, Reports;
    TakesOfParts(Lk(Bytes(file, range)));
  }

  lemma LocksBeforeWrite(call: Call) returns (before: Program, rest: Program)
    requires call.Write?
    ensures ProgramOf(call) == before + rest && Mark(RealIO(call.file, call.range)) in rest
    ensures !Takes(rest, Lk(Bytes(call.file, call.range)))
  {
    hide MirrorHalf, LookUp, Takes;
    var b, d, w := Lk(Bytes(call.file, call.range)), Lk(Description(call.fd)), RealIO(call.file, call.range);
    var work, mirror := Does([w, MoveOffset(call.fd)]), MirrorHalf(call.file, call.range, call.inSession, call.errors);
    MirrorTakes(call.file, call.range, call.inSession, call.errors);
    DoesTakesNothing([w, MoveOffset(call.fd)], b);
    assert work[0] == Mark(w);
    hide Does;
    before, rest := LookUp() + [Acquire(d)] + [Acquire(b)], work + [Release(d)] + mirror + [Release(b)];
    TakesSum(work, [Release(d)], b);
    TakesSum(work + [Release(d)], mirror, b);
    TakesSum(work + [Release(d)] + mirror, [Release(b)], b);
  }

  lemma LocksBeforePWrite(call: Call) returns (before: Program, rest: Program)
    requires Writes(call).Some? && !call.Write?
    ensures var (file, range) := Writes(call).value;
      ProgramOf(call) == before + rest && Mark(RealIO(file, range)) in rest && !Takes(rest, Lk(Bytes(file, range)))
  {
    hide MirrorHalf, LookUp, Takes;
    var (file, range) := Writes(call).value;
    var b, w, went := Lk(Bytes(file, range)), RealIO(file, range), if call.PWrite? then call.wrote else call.cut;
    var work, mirror := Does([w]), If(went, MirrorHalf(file, range, call.inSession, call.errors));
    MirrorTakes(file, range, call.inSession, call.errors);
    TakesOfParts(b);
    assert work[0] == Mark(w);
    hide Does, If;
    before, rest := LookUp() + [Acquire(b)], work + mirror + [Release(b)];
    TakesSum(work, mirror, b);
    TakesSum(work + mirror, [Release(b)], b);
  }

  lemma TakesSum(p: Program, q: Program, h: Hold)
    ensures Takes(p + q, h) <==> Takes(p, h) || Takes(q, h)
    ensures forall g :: !Takes([Release(g)], h)
  {
  }

  /** The program of a call that writes: from some point on the range is not locked again, and the real call follows. */
  lemma LocksBeforeItWrites(call: Call) returns (before: Program, rest: Program)
    requires Writes(call).Some?
    ensures var (file, range) := Writes(call).value;
      ProgramOf(call) == before + rest && Mark(RealIO(file, range)) in rest && !Takes(rest, Lk(Bytes(file, range)))
  {
    hide ProgramOf;
    if call.Write? {
      before, rest := LocksBeforeWrite(call);
    } else {
      before, rest := LocksBeforePWrite(call);
    }
  }

  lemma {:induction false} HeldUntilReleased(held: set<Hold>, p: Program, h: Hold)
    requires Ordered(held, p) && Release(h) in p && !Takes(p, h)
    ensures h in held
    decreases |p|
  {
    if p[0] != Release(h) {
      HeldUntilReleased(Holding(held, p[0]), p[1..], h);
    }
  }

  lemma StillThere(p: Program, before: Program, rest: Program, a: Action)
    requires Remains(p, before + rest) && |p| > |rest| && a in rest
    ensures a in p[1..]
  {
    assert p[1..][|p| - 1 - |rest|..] == rest;
  }

  /** Between the real call and the unlock, the range is locked all the time. */
  lemma HoldsItsRange(steps: seq<Step>, s: System, t: nat)
    requires Reaches(map[], steps, s) && t in s && Between(s[t])
    ensures var (file, range) := Writes(s[t].call).value; Lk(Bytes(file, range)) in s[t].held
  {
    RunKeepsInv(map[], steps, s);
    var p := s[t].rest;
    var (file, range) := Writes(s[t].call).value;
    var before, rest := LocksBeforeItWrites(s[t].call);
    if |p| > |rest| {
      StillThere(p, before, rest, Mark(RealIO(file, range)));
      assert false;
    }
    assert p == rest[|rest| - |p|..];
    HeldUntilReleased(s[t].held, p, Lk(Bytes(file, range)));
  }

  /** Two calls on ranges of one file that intersect are never both there, nor a call and the copier. */
  lemma CallsExclude(steps: seq<Step>, s: System, t: nat, u: nat)
    requires Reaches(map[], steps, s) && t in s && u in s && t != u && Between(s[t])
    ensures var (file, range) := Writes(s[t].call).value;
      && (Between(s[u]) ==>
            var (other, r) := Writes(s[u].call).value; !(other == file && Intersects(range, r)))
      && (forall r :: At(s, u, CopyIO(file, r)) ==> !Intersects(range, r))
  {
    var (file, range) := Writes(s[t].call).value;
    HoldsItsRange(steps, s, t);
    if Between(s[u]) {
      HoldsItsRange(steps, s, u);
      var (other, r) := Writes(s[u].call).value;
      NoConflictingHolders(steps, s, t, u, Lk(Bytes(file, range)), Lk(Bytes(other, r)));
    }
    forall r | At(s, u, CopyIO(file, r))
      ensures !Intersects(range, r)
    {
      WorkIsGuarded(steps, s, u, CopyIO(file, r));
      NoConflictingHolders(steps, s, t, u, Lk(Bytes(file, range)), Lk(Bytes(file, r)));
    }
  }

  // ----- names -----

  /** A creating open, an unlink or a rename. */
  predicate NamingCall(call: Call) {
    (call.Open? && call.creat) || call.Unlink? || call.Rename?
  }

  /** The thread is inside such a call: after its first action and before its last. */
  predicate Naming(th: Thread) {
    NamingCall(th.call) && th.rest != [] && th.rest != ProgramOf(th.call)
  }

  function NamingBody(call: Call): Program
    requires NamingCall(call)
  {
    match call
    case Open(_, file, early, made, inSession, errors) =>
      Then(Does([RealNaming]), OpenBody(file, early, made, inSession, errors))
    case Unlink(file, early, unlinked, errors, created, detachErrors, dropErrors) =>
      UnlinkBody(file, early, unlinked, errors, created, detachErrors, dropErrors)
    case Rename(file, early, renamed, inSession, both, created, errors, dropErrors, listed) =>
      RenameBody(file, early, renamed, inSession, both, created, errors, dropErrors, listed)
  }

  lemma NamingBodyTakes(call: Call)
    requires NamingCall(call)
    ensures ProgramOf(call) == Under(Lk(FileOp), NamingBody(call)) && !Takes(NamingBody(call), Lk(FileOp))
  {
    hide Takes, Then, Under, If, Does, Reports;
    TakesOfParts(Lk(FileOp));
  }

  lemma InsideSection(p: Program, h: Hold, body: Program)
    requires Remains(p, Under(h, body)) && p != [] && p != Under(h, body) && !Takes(body, h)
    ensures Release(h) in p && !Takes(p, h)
  {
    var whole := [Acquire(h)] + body + [Release(h)];
    assert whole[0..] == whole;
    assert p[|p| - 1] == Release(h);
  }

  /** Such a call holds the file operation lock from its first action to its last. */
  lemma HoldsFileOp(steps: seq<Step>, s: System, t: nat)
    requires Reaches(map[], steps, s) && t in s && Naming(s[t])
    ensures Lk(FileOp) in s[t].held
  {
    RunKeepsInv(map[], steps, s);
    var p, body := s[t].rest, NamingBody(s[t].call);
    NamingBodyTakes(s[t].call);
    hide ProgramOf, NamingBody, Guards, Takes, Reaches;
    InsideSection(p, Lk(FileOp), body);
    HeldUntilReleased(s[t].held, p, Lk(FileOp));
  }

  /** No two of them overlap: each is done on the source and on the backup before the next begins. */
  lemma NamingCallsExclude(steps: seq<Step>, s: System, t: nat, u: nat)
    requires Reaches(map[], steps, s) && t in s && u in s && t != u && Naming(s[t])
    ensures !Naming(s[u])
  {
    HoldsFileOp(steps, s, t);
    if Naming(s[u]) {
      HoldsFileOp(steps, s, u);
      NoConflictingHolders(steps, s, t, u, Lk(FileOp), Lk(FileOp));
    }
  }

  // ----- no deadlock -----

  predicate Unfinished(s: System, t: nat) {
    t in s && s[t].rest != []
  }

  function Wanted(s: System, t: nat): nat
    requires Unfinished(s, t)
  {
    if s[t].rest[0].Acquire? then Rank(s[t].rest[0].h.lock) else 100
  }

  lemma {:induction false} HighestWaiter(s: System, ts: set<nat>) returns (t: nat)
    requires ts != {} && forall u :: u in ts ==> Unfinished(s, u)
    ensures t in ts && forall u :: u in ts ==> Wanted(s, u) <= Wanted(s, t)
  {
    t :| t in ts;
    if ts != {t} {
      var rest := ts - {t};
      var u := HighestWaiter(s, rest);
      if Wanted(s, t) < Wanted(s, u) {
        t := u;
      }
    }
  }

  /** A thread that holds a lock is not finished, and wants only more. */
  lemma HolderWantsMore(s: System, u: nat, g: Hold)
    requires Inv(s) && u in s && g in s[u].held
    ensures Unfinished(s, u) && Rank(g.lock) < Wanted(s, u)
  {
    hide ProgramOf, Guards;
    assert Ordered(s[u].held, s[u].rest);
  }

  /** Nobody stands in the way of the highest waiter's lock. */
  lemma HighestIsFree(s: System, t: nat)
    requires Inv(s) && Unfinished(s, t) && (forall u :: Unfinished(s, u) ==> Wanted(s, u) <= Wanted(s, t))
    ensures CanStep(s, t)
  {
    if s[t].rest[0].Acquire? {
      var h := s[t].rest[0].h;
      forall u, g | u in s && u != t && g in s[u].held
        ensures !Conflict(g, h)
      {
        HolderWantsMore(s, u, g);
        ConflictIsSymmetric(g, h);
      }
    }
  }

  lemma SomeThreadCanStep(s: System, t: nat) returns (u: nat)
    requires Inv(s) && Unfinished(s, t)
    ensures CanStepStrictly(s, u)
  {
    hide Inv;
    var waiting := set v | v in s && s[v].rest != [];
    assert t in waiting;
    u := HighestWaiter(s, waiting);
    HighestIsFree(s, u);
    if !CanStepStrictly(s, u) {
      var h := s[u].rest[0].h;
      var w :| w in s && w != u && WaitsFor(s, w, Lk(h.lock));
      assert Wanted(s, w) == Wanted(s, u);
      HighestIsFree(s, w);
      u := w;
    }
  }

  /** In every reachable state in which some thread is not finished, one can step, even if readers wait for
      waiting writers. */
  lemma NoDeadlock(steps: seq<Step>, s: System, t: nat) returns (u: nat)
    requires Reaches(map[], steps, s) && Unfinished(s, t)
    ensures CanStepStrictly(s, u)
  {
    RunKeepsInv(map[], steps, s);
    u := SomeThreadCanStep(s, t);
  }

  /** The actions that the threads below `n` still have before them. */
  function Left(s: System, n: nat): nat {
    if n == 0 then 0 else Left(s, n - 1) + if n - 1 in s then |s[n - 1].rest| else 0
  }

  lemma {:induction false} OneFewerLeft(s: System, s': System, n: nat, u: nat)
    requires u in s && s'.Keys == s.Keys && |s[u].rest| == |s'[u].rest| + 1
    requires forall t :: t in s && t != u ==> s'[t].rest == s[t].rest
    ensures Left(s, n) == Left(s', n) + if u < n then 1 else 0
  {
    if n > 0 {
      OneFewerLeft(s, s', n - 1, u);
    }
  }

  lemma ActFacts(s: System, u: nat, n: nat)
    requires CanStep(s, u) && u < n
    ensures Enabled(s, Act(u)) && Do(s, Act(u)).Keys == s.Keys
    ensures Left(s, n) == Left(Do(s, Act(u)), n) + 1
    ensures forall t :: t in s ==> Do(s, Act(u))[t].call == s[t].call
  {
    OneFewerLeft(s, Do(s, Act(u)), n, u);
  }

  lemma AllFinished(s: System, n: nat)
    requires Inv(s) && forall t :: t in s ==> !Unfinished(s, t)
    ensures Left(s, n) == 0 && forall t :: t in s ==> s[t] == Thread(s[t].call, {}, [])
  {
    hide ProgramOf;
    NothingLeft(s, n);
    forall t | t in s
      ensures s[t].held == {}
    {
      assert After(s[t].held, s[t].rest) == {};
    }
  }

  /** All calls in progress can be brought to their ends, whatever the threads below `n` have begun. */
  lemma {:induction false} CallsEnd(s: System, n: nat) returns (steps: seq<Step>, s': System)
    requires Inv(s) && forall t :: t in s ==> t < n
    ensures Reaches(s, steps, s') && s'.Keys == s.Keys && |steps| == Left(s, n)
    ensures forall t :: t in s' ==> s'[t] == Thread(s[t].call, {}, [])
    decreases Left(s, n)
  {
    hide Inv, Do, Enabled, Unfinished, Left;
    if t :| t in s && Unfinished(s, t) {
      var u := SomeThreadCanStep(s, t);
      assert u in s;
      ActFacts(s, u, n);
      StepKeepsInv(s, Act(u));
      var rest;
      rest, s' := CallsEnd(Do(s, Act(u)), n);
      steps := [Act(u)] + rest;
      assert steps[1..] == rest;
    } else {
      steps, s' := [], s;
      AllFinished(s, n);
    }
  }

  lemma {:induction false} NothingLeft(s: System, n: nat)
    requires forall t :: t in s ==> s[t].rest == []
    ensures Left(s, n) == 0
  {
    if n > 0 {
      NothingLeft(s, n - 1);
    }
  }

  /** In every reachable state, the calls in progress can all be brought to their ends, and then no lock is held. */
  lemma EveryCallCanReturn(steps: seq<Step>, s: System, n: nat) returns (more: seq<Step>, s': System)
    requires Reaches(map[], steps, s) && forall t :: t in s ==> t < n
    ensures Reaches(s, more, s') && s'.Keys == s.Keys
    ensures forall t :: t in s' ==> s'[t] == Thread(s[t].call, {}, [])
  {
    RunKeepsInv(map[], steps, s);
    more, s' := CallsEnd(s, n);
  }
}
