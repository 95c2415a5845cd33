/** Reference counts with rename among the holders: who may hold a reference, and what the table still finds.

    The session protocol of Session has everything but rename, which changes names.  Here names change, and files,
    destinations and the backup are left out.  A step is an operation of the table under its lock: the calls of open(),
    close(), unlink(), rename() and the copier are sequences of such steps, in any interleaving. */
module References {
  import opened Basics

  type Path = string
  type Sid = nat

  datatype Ref = ByFd(fd: nat) | ByThread(t: nat) | ByCopier

  /** A source_file object.  Its name is NULL after a rename whose new name realpath cannot resolve; `leaked` is
      history: references that unlink() or rename() abandoned. */
  datatype Src = Src(name: Option<Path>, count: nat, leaked: nat)

  datatype State = State(
    holds: map<Ref, Sid>,
    srcs: map<Sid, Src>,
    table: set<Sid>,
    unfiled: bool,             // history: a rename that failed took an object out of the table
    crashed: bool)             // a NULL name was hashed

  /** How rename_locked ends once it has its reference. */
  datatype End = CannotCreate | NoRealpath | BackupFails | Succeeds

  datatype Step =
    | Get(r: Ref, path: Path, newId: Sid)           // open(), unlink(), the copier
    | Move(from: Ref, to: Ref)                      // into the fmap, and out of it
    | Drop(r: Ref)                                  // close(), unlink(), the copier
    | Abandon(r: Ref)                               // unlink() without a destination
    | Rename(path: Path, newPath: Path, newId: Sid, end: End)

  // ----- the table -----

  predicate Bears(s: State, sid: Sid, path: Path) {
    sid in s.table && sid in s.srcs && s.srcs[sid].name == Some(path)
  }

  function Bearers(s: State, path: Path): set<Sid> {
    set sid | sid in s.table && Bears(s, sid, path)
  }

  predicate InTable(s: State, path: Path) {
    Bearers(s, path) != {}
  }

  /** The entry that a name finds; there is one at most. */
  ghost function Entry(s: State, path: Path): Sid
    requires InTable(s, path)
  {
    var sid :| sid in Bearers(s, path);
    sid
  }

  // ----- steps -----

  ghost function SidFor(s: State, path: Path, newId: Sid): Sid {
    if InTable(s, path) then Entry(s, path) else newId
  }

  /** get_or_create, without the reference. */
  ghost function Created(s: State, path: Path, newId: Sid): State {
    if InTable(s, path) then s else s.(srcs := s.srcs[newId := Src(Some(path), 0, 0)], table := s.table + {newId})
  }

  ghost function Counted(s: State, sid: Sid): State
    requires sid in s.srcs
  {
    s.(srcs := s.srcs[sid := s.srcs[sid].(count := s.srcs[sid].count + 1)])
  }

  /** try_to_remove: with the last reference the object goes, and what bears its name leaves the table. */
  ghost function Uncounted(s: State, sid: Sid): State
    requires sid in s.srcs && s.srcs[sid].count > 0
  {
    var src := s.srcs[sid];
    if src.count > 1 then s.(srcs := s.srcs[sid := src.(count := src.count - 1)])
    else if src.name.None? then s.(crashed := true)
    else
      // remove() takes out what bears the name, which is one at most.
      s.(srcs := s.srcs - {sid}, table := s.table - Bearers(s, src.name.value))
  }

  /** A reference of `sid` will never be given back. */
  ghost function Abandoned(s: State, sid: Sid): State
    requires sid in s.srcs
  {
    s.(srcs := s.srcs[sid := s.srcs[sid].(leaked := s.srcs[sid].leaked + 1)])
  }

  /** rename: out of the table, a new name, and into it again. */
  ghost function Renamed(s: State, sid: Sid, newPath: Path, end: End): State
    requires sid in s.srcs
  {
    match end
    case NoRealpath => s.(srcs := s.srcs[sid := s.srcs[sid].(name := None)], table := s.table - {sid}, unfiled := true)
    case BackupFails =>
      s.(srcs := s.srcs[sid := s.srcs[sid].(name := Some(newPath))], table := s.table - {sid}, unfiled := true)
    case _ => s.(srcs := s.srcs[sid := s.srcs[sid].(name := Some(newPath))])
  }

  ghost function DoRename(s: State, path: Path, newPath: Path, newId: Sid, end: End): State
    requires !InTable(s, path) ==> newId !in s.srcs
  {
    var sid := SidFor(s, path, newId);
    var s1 := Counted(Created(s, path, newId), sid);
    if end == CannotCreate then Abandoned(s1, sid)
    else Uncounted(Renamed(s1, sid, newPath, end), sid)
  }

  ghost predicate Enabled(s: State, step: Step) {
    !s.crashed &&
    match step
    case Get(r, path, newId) => r !in s.holds && (!InTable(s, path) ==> newId !in s.srcs)
    case Move(from, to) => from in s.holds && to !in s.holds
    case Drop(r) => r in s.holds && s.holds[r] in s.srcs && s.srcs[s.holds[r]].count > 0
    case Abandon(r) => r in s.holds && s.holds[r] in s.srcs
    case Rename(path, newPath, newId, _) =>
      // The code needs the new name absent: put compares pointers only.
      (!InTable(s, path) ==> newId !in s.srcs) && (newPath == path || !InTable(s, newPath))
  }

  ghost function Do(s: State, step: Step): State
    requires Enabled(s, step)
  {
    match step
    case Get(r, path, newId) =>
      Counted(Created(s, path, newId), SidFor(s, path, newId)).(holds := s.holds[r := SidFor(s, path, newId)])
    case Move(from, to) => s.(holds := (s.holds - {from})[to := s.holds[from]])
    case Drop(r) => Uncounted(s, s.holds[r]).(holds := s.holds - {r})
    case Abandon(r) => Abandoned(s.(holds := s.holds - {r}), s.holds[r])
    case Rename(path, newPath, newId, end) => DoRename(s, path, newPath, newId, end)
  }

  predicate Init(s: State) {
    s.holds == map[] && s.srcs == map[] && s.table == {} && !s.unfiled && !s.crashed
  }

  ghost predicate Reaches(s: State, steps: seq<Step>, t: State)
    decreases |steps|
  {
    if steps == [] then s == t
    else Enabled(s, steps[0]) && Reaches(Do(s, steps[0]), steps[1..], t)
  }

  // ----- the invariant -----

  function Holders(holds: map<Ref, Sid>, sid: Sid): set<Ref> {
    set r | r in holds && holds[r] == sid
  }

  predicate CountIs(s: State, sid: Sid, extra: int)
    requires sid in s.srcs
  {
    s.srcs[sid].count == |Holders(s.holds, sid)| + s.srcs[sid].leaked + extra
  }

  ghost predicate CountsOk(s: State) {
    && (forall r :: r in s.holds ==> s.holds[r] in s.srcs)
    && (forall sid :: sid in s.srcs ==> CountIs(s, sid, 0) && s.srcs[sid].count > 0)
  }

  ghost predicate TableOk(s: State) {
    && (forall sid :: sid in s.table ==> sid in s.srcs && s.srcs[sid].name.Some?)
    && (forall x, y :: x in s.table && y in s.table && s.srcs[x].name == s.srcs[y].name ==> x == y)
    && (!s.unfiled ==> forall sid :: sid in s.srcs ==> sid in s.table)
  }

  ghost predicate Inv(s: State) {
    TableOk(s) && (!s.crashed ==> CountsOk(s)) && (s.crashed ==> s.unfiled)
  }

  lemma EntryIs(s: State, path: Path, sid: Sid)
    requires TableOk(s) && Bears(s, sid, path)
    ensures InTable(s, path) && Entry(s, path) == sid && Bearers(s, path) == {sid}
  {
    assert sid in Bearers(s, path);
  }

  lemma NotBorne(s: State, path: Path)
    requires TableOk(s)
    ensures !InTable(s, path) <==> forall x :: x in s.table ==> s.srcs[x].name != Some(path)
  {
    forall x | x in s.table && s.srcs[x].name == Some(path)
      ensures InTable(s, path)
    {
      EntryIs(s, path, x);
    }
    if InTable(s, path) {
      EntryBears(s, path);
    }
  }

  lemma EntryBears(s: State, path: Path)
    requires InTable(s, path)
    ensures Bears(s, Entry(s, path), path)
  {
  }

  // ----- holders -----

  lemma HoldersWith(holds: map<Ref, Sid>, r: Ref, sid: Sid, x: Sid)
    requires r !in holds
    ensures |Holders(holds[r := sid], x)| == |Holders(holds, x)| + if x == sid then 1 else 0
  {
    if x == sid {
      assert Holders(holds[r := sid], x) == Holders(holds, x) + {r};
    } else {
      assert Holders(holds[r := sid], x) == Holders(holds, x);
    }
  }

  lemma HoldersWithout(holds: map<Ref, Sid>, r: Ref, x: Sid)
    requires r in holds
    ensures |Holders(holds - {r}, x)| == |Holders(holds, x)| - if x == holds[r] then 1 else 0
  {
    if x == holds[r] {
      assert Holders(holds, x) == Holders(holds - {r}, x) + {r};
    } else {
      assert Holders(holds - {r}, x) == Holders(holds, x);
    }
  }

  lemma NoHolders(holds: map<Ref, Sid>, x: Sid)
    requires Holders(holds, x) == {}
    ensures forall r :: r in holds ==> holds[r] != x
  {
    forall r | r in holds
      ensures holds[r] != x
    {
      assert holds[r] == x ==> r in Holders(holds, x);
    }
  }

  // ----- the operations keep the table -----

  lemma CreatedTable(s: State, path: Path, newId: Sid)
    requires TableOk(s) && (!InTable(s, path) ==> newId !in s.srcs)
    ensures var s' := Created(s, path, newId); var sid := SidFor(s, path, newId);
      TableOk(s') && sid in s'.table && sid in s'.srcs && s'.srcs[sid].name == Some(path)
  {
    NotBorne(s, path);
    if InTable(s, path) {
      EntryBears(s, path);
    }
    hide InTable, Entry;
  }

  lemma CountedTable(s: State, sid: Sid, src: Src)
    requires TableOk(s) && sid in s.srcs && src.name == s.srcs[sid].name
    ensures TableOk(s.(srcs := s.srcs[sid := src]))
  {
  }

  /** An object leaves the table with its last reference, if it was in it. */
  lemma UncountedTable(s: State, sid: Sid)
    requires TableOk(s) && sid in s.srcs && s.srcs[sid].count > 0
    ensures TableOk(Uncounted(s, sid))
    ensures Uncounted(s, sid).crashed && !s.crashed ==> s.unfiled
  {
    var src := s.srcs[sid];
    if src.count > 1 {
      CountedTable(s, sid, src.(count := src.count - 1));
    } else if src.name.Some? {
      if sid in s.table {
        EntryIs(s, src.name.value, sid);
      }
      assert forall x :: x in s.table - Bearers(s, src.name.value) ==> x != sid;
    } else {
      assert sid !in s.table;
    }
  }

  lemma RenamedTable(s: State, sid: Sid, newPath: Path, end: End)
    requires TableOk(s) && sid in s.table && (s.srcs[sid].name == Some(newPath) || !InTable(s, newPath))
    ensures TableOk(Renamed(s, sid, newPath, end))
  {
    NotBorne(s, newPath);
    hide InTable;
  }

  // ----- the operations keep the counts -----

  /** All counts are right, but for `sid`, whose count is `extra` too large; it may be an object nobody holds yet. */
  ghost predicate CountsBut(s: State, sid: Sid, extra: int) {
    && (forall r :: r in s.holds ==> s.holds[r] in s.srcs)
    && (forall x :: x in s.srcs && x != sid ==> CountIs(s, x, 0) && s.srcs[x].count > 0)
    && (sid in s.srcs ==> CountIs(s, sid, extra))
  }

  lemma CreatedCounts(s: State, path: Path, newId: Sid)
    requires CountsOk(s) && (!InTable(s, path) ==> newId !in s.srcs)
    ensures CountsBut(Created(s, path, newId), SidFor(s, path, newId), 0) && Created(s, path, newId).holds == s.holds
  {
    if !InTable(s, path) {
      assert Holders(s.holds, newId) == {};
    }
  }

  lemma UncountedCounts(s: State, sid: Sid)
    requires CountsBut(s, sid, 1) && sid in s.srcs && s.srcs[sid].count > 0
    ensures !Uncounted(s, sid).crashed ==> CountsOk(Uncounted(s, sid))
  {
    var s' := Uncounted(s, sid);
    if s.srcs[sid].count == 1 && s.srcs[sid].name.Some? {
      assert Holders(s.holds, sid) == {};
      NoHolders(s.holds, sid);
    }
  }

  lemma RenamedCounts(s: State, sid: Sid, newPath: Path, end: End)
    requires CountsBut(s, sid, 1) && sid in s.srcs
    ensures var s' := Renamed(s, sid, newPath, end);
      CountsBut(s', sid, 1) && sid in s'.srcs && s'.srcs[sid].count == s.srcs[sid].count && s'.crashed == s.crashed
  {
  }

  // ----- steps keep the invariant -----

  lemma GetKeepsInv(s: State, r: Ref, path: Path, newId: Sid)
    requires Inv(s) && Enabled(s, Get(r, path, newId))
    ensures Inv(Do(s, Get(r, path, newId)))
  {
    TakenForRename(s, path, path, newId);
    var sid := SidFor(s, path, newId);
    var s1 := Counted(Created(s, path, newId), sid);
    hide Created, SidFor, Counted, InTable, Inv;
    HeldOnceMore(s1, r, sid);
  }

  lemma HeldOnceMore(s: State, r: Ref, sid: Sid)
    requires TableOk(s) && CountsBut(s, sid, 1) && sid in s.srcs && s.srcs[sid].count > 0 && !s.crashed && r !in s.holds
    ensures Inv(s.(holds := s.holds[r := sid]))
  {
    forall x
      ensures |Holders(s.holds[r := sid], x)| == |Holders(s.holds, x)| + if x == sid then 1 else 0
    {
      HoldersWith(s.holds, r, sid, x);
    }
    hide Holders;
  }

  lemma MoveKeepsInv(s: State, from: Ref, to: Ref)
    requires Inv(s) && Enabled(s, Move(from, to))
    ensures Inv(Do(s, Move(from, to)))
  {
    forall x | x in s.srcs
      ensures |Holders((s.holds - {from})[to := s.holds[from]], x)| == |Holders(s.holds, x)|
    {
      HoldersWithout(s.holds, from, x);
      HoldersWith(s.holds - {from}, to, s.holds[from], x);
    }
    hide Holders;
  }

  lemma DropKeepsInv(s: State, r: Ref)
    requires Inv(s) && Enabled(s, Drop(r))
    ensures Inv(Do(s, Drop(r)))
  {
    var sid, s1 := s.holds[r], s.(holds := s.holds - {r});
    Released(s, r);
    UncountedTable(s1, sid);
    UncountedCounts(s1, sid);
    SameRemoval(s, r);
    hide CountsOk, TableOk, CountsBut, Uncounted;
  }

  /** Who holds what plays no part in what try_to_remove does to the table. */
  lemma SameRemoval(s: State, r: Ref)
    requires r in s.holds && s.holds[r] in s.srcs && s.srcs[s.holds[r]].count > 0
    ensures var sid, s1 := s.holds[r], s.(holds := s.holds - {r});
      Uncounted(s, sid).(holds := s.holds - {r}) == Uncounted(s1, sid)
  {
    var s1, name := s.(holds := s.holds - {r}), s.srcs[s.holds[r]].name;
    assert name.Some? ==> Bearers(s, name.value) == Bearers(s1, name.value);
    hide Bearers;
  }

  lemma AbandonKeepsInv(s: State, r: Ref)
    requires Inv(s) && Enabled(s, Abandon(r))
    ensures Inv(Do(s, Abandon(r)))
  {
    Released(s, r);
    hide Inv, TableOk, CountsOk, CountsBut, InTable, Abandoned;
    AbandonedKeepsInv(s.(holds := s.holds - {r}), s.holds[r]);
  }

  /** Without its holder, an object counts one reference too many. */
  lemma Released(s: State, r: Ref)
    requires Inv(s) && !s.crashed && r in s.holds
    ensures var sid, s1 := s.holds[r], s.(holds := s.holds - {r});
      sid in s.srcs && s.srcs[sid].count > 0 && CountsBut(s1, sid, 1) && TableOk(s1)
  {
    forall x
      ensures |Holders(s.holds - {r}, x)| == |Holders(s.holds, x)| - if x == s.holds[r] then 1 else 0
    {
      HoldersWithout(s.holds, r, x);
    }
    hide Holders;
  }

  /** rename has its reference of `sid`, and nothing is renamed yet. */
  ghost predicate ReadyToRename(s: State, sid: Sid, newPath: Path) {
    && TableOk(s) && CountsBut(s, sid, 1) && sid in s.table && sid in s.srcs && s.srcs[sid].count > 0
    && (s.srcs[sid].name == Some(newPath) || !InTable(s, newPath))
  }

  lemma TakenForRename(s: State, path: Path, newPath: Path, newId: Sid)
    requires TableOk(s) && CountsOk(s) && (!InTable(s, path) ==> newId !in s.srcs)
    requires newPath == path || !InTable(s, newPath)
    ensures var sid := SidFor(s, path, newId); var s1 := Counted(Created(s, path, newId), sid);
      ReadyToRename(s1, sid, newPath) && s1.crashed == s.crashed && s1.holds == s.holds
  {
    var sid, s0 := SidFor(s, path, newId), Created(s, path, newId);
    CreatedTable(s, path, newId);
    CreatedCounts(s, path, newId);
    var s1 := Counted(s0, sid);
    CountedTable(s0, sid, s0.srcs[sid].(count := s0.srcs[sid].count + 1));
    NewNameIsFree(s, path, newPath, newId);
    hide TableOk, InTable, Entry, Bearers, Holders;
  }

  lemma NewNameIsFree(s: State, path: Path, newPath: Path, newId: Sid)
    requires TableOk(s) && (!InTable(s, path) ==> newId !in s.srcs) && (newPath == path || !InTable(s, newPath))
    ensures var sid := SidFor(s, path, newId); var s0 := Created(s, path, newId);
      sid in s0.srcs && (s0.srcs[sid].name == Some(newPath) || !InTable(Counted(s0, sid), newPath))
  {
    CreatedTable(s, path, newId);
    CreatedNames(s, path, newId);
    var sid, s0 := SidFor(s, path, newId), Created(s, path, newId);
    CountedTable(s0, sid, s0.srcs[sid].(count := s0.srcs[sid].count + 1));
    NotBorne(s, newPath);
    NotBorne(Counted(s0, sid), newPath);
    hide TableOk, InTable, Entry, Bearers, Created, SidFor;
  }

  lemma CreatedNames(s: State, path: Path, newId: Sid)
    requires TableOk(s) && (!InTable(s, path) ==> newId !in s.srcs)
    ensures var s' := Created(s, path, newId);
      forall x :: x in s'.table ==> s'.srcs[x].name == Some(path) || (x in s.table && s'.srcs[x] == s.srcs[x])
  {
    hide InTable;
  }

  lemma AbandonedKeepsInv(s: State, sid: Sid)
    requires TableOk(s) && CountsBut(s, sid, 1) && sid in s.srcs && s.srcs[sid].count > 0 && !s.crashed
    ensures Inv(Abandoned(s, sid))
  {
    CountedTable(s, sid, s.srcs[sid].(leaked := s.srcs[sid].leaked + 1));
    hide TableOk, Holders;
  }

  lemma RenameEnds(s: State, sid: Sid, newPath: Path, end: End)
    requires ReadyToRename(s, sid, newPath) && !s.crashed
    ensures Inv(Uncounted(Renamed(s, sid, newPath, end), sid))
  {
    RenamedTable(s, sid, newPath, end);
    RenamedCounts(s, sid, newPath, end);
    var s2 := Renamed(s, sid, newPath, end);
    UncountedTable(s2, sid);
    UncountedCounts(s2, sid);
    hide Renamed, TableOk, CountsOk, CountsBut, InTable;
  }

  lemma RenameKeepsInv(s: State, path: Path, newPath: Path, newId: Sid, end: End)
    requires Inv(s) && Enabled(s, Rename(path, newPath, newId, end))
    ensures Inv(DoRename(s, path, newPath, newId, end))
  {
    TakenForRename(s, path, newPath, newId);
    var sid := SidFor(s, path, newId);
    var s1 := Counted(Created(s, path, newId), sid);
    hide Inv, TableOk, CountsOk, CountsBut, InTable, Created, SidFor, Counted, Abandoned, Uncounted, Renamed;
    if end == CannotCreate {
      AbandonedKeepsInv(s1, sid);
    } else {
      RenameEnds(s1, sid, newPath, end);
    }
  }

  lemma StepKeepsInv(s: State, step: Step)
    requires Inv(s) && Enabled(s, step)
    ensures Inv(Do(s, step))
  {
    hide Inv;
    match step
    case Get(r, path, newId) => GetKeepsInv(s, r, path, newId);
    case Move(from, to) => MoveKeepsInv(s, from, to);
    case Drop(r) => DropKeepsInv(s, r);
    case Abandon(r) => AbandonKeepsInv(s, r);
    case Rename(path, newPath, newId, end) => RenameKeepsInv(s, path, newPath, newId, end);
  }

  lemma {:induction false} RunKeepsInv(s: State, steps: seq<Step>, t: State)
    requires Inv(s) && Reaches(s, steps, t)
    ensures Inv(t)
    decreases |steps|
  {
    hide Inv;
    if steps != [] {
      StepKeepsInv(s, steps[0]);
      RunKeepsInv(Do(s, steps[0]), steps[1..], t);
    }
  }

  // ----- what it means -----

  /** With renames, failed ones too: a count is the number of holders, plus the references that unlink() and rename()
      abandoned; and nobody's pointer, nor the table's, dangles. */
  lemma RefConservation(s0: State, steps: seq<Step>, s: State)
    requires Init(s0) && Reaches(s0, steps, s) && !s.crashed
    ensures forall sid :: sid in s.srcs ==>
      s.srcs[sid].count == |Holders(s.holds, sid)| + s.srcs[sid].leaked && s.srcs[sid].count > 0
    ensures forall r :: r in s.holds ==> s.holds[r] in s.srcs
    ensures forall sid :: sid in s.table ==> sid in s.srcs
  {
    RunKeepsInv(s0, steps, s);
  }

  /** The table finds the object under its name. */
  ghost predicate Found(s: State, sid: Sid)
    requires sid in s.srcs
  {
    s.srcs[sid].name.Some? && InTable(s, s.srcs[sid].name.value) && Entry(s, s.srcs[sid].name.value) == sid
  }

  ghost predicate AllFound(s: State) {
    forall sid :: sid in s.srcs ==> Found(s, sid)
  }

  ghost predicate Filed(s: State) {
    forall sid :: sid in s.srcs ==> sid in s.table
  }

  lemma FoundIfFiled(s: State)
    requires TableOk(s)
    ensures AllFound(s) <==> Filed(s)
  {
    forall sid | sid in s.srcs
      ensures Found(s, sid) <==> sid in s.table
    {
      if sid in s.table {
        EntryIs(s, s.srcs[sid].name.value, sid);
      }
    }
    hide Found, TableOk;
  }

  /** Until a rename fails, every object is found under its name; and as long as every one is, no two have one name. */
  lemma OneObjectPerName(s0: State, steps: seq<Step>, s: State)
    requires Init(s0) && Reaches(s0, steps, s)
    ensures !s.unfiled ==> AllFound(s)
    ensures AllFound(s) ==>
      forall x, y :: x in s.srcs && y in s.srcs && s.srcs[x].name == s.srcs[y].name ==> x == y
  {
    RunKeepsInv(s0, steps, s);
    FoundIfFiled(s);
    hide Found;
  }

  /** A NULL name is hashed exactly when the last reference to a nameless object is dropped. */
  lemma DropCrashesIff(s: State, r: Ref)
    requires Enabled(s, Drop(r))
    ensures var src := s.srcs[s.holds[r]]; Do(s, Drop(r)).crashed <==> src.count == 1 && src.name.None?
  {
  }

  /** rename_locked does not put the object back. */
  predicate LeavesTable(end: End) {
    end == NoRealpath || end == BackupFails
  }

  lemma DropFiled(s: State, r: Ref)
    requires TableOk(s) && Filed(s) && Enabled(s, Drop(r))
    ensures !Do(s, Drop(r)).crashed && Filed(Do(s, Drop(r)))
  {
    DropCrashesIff(s, r);
    var sid := s.holds[r];
    EntryIs(s, s.srcs[sid].name.value, sid);
  }

  /** What rename leaves of its object: one reference less, or nothing. */
  lemma RenameFiled(s: State, sid: Sid, newPath: Path, end: End)
    requires TableOk(s) && Filed(s) && !s.crashed && sid in s.srcs && s.srcs[sid].count > 0 && end != CannotCreate
    requires s.srcs[sid].name == Some(newPath) || !InTable(s, newPath)
    ensures var t := Uncounted(Renamed(s, sid, newPath, end), sid); var last := s.srcs[sid].count == 1;
      && (t.crashed <==> end == NoRealpath && last)
      && (!t.crashed ==> (Filed(t) <==> !LeavesTable(end) || last))
  {
    RenamedTable(s, sid, newPath, end);
    var s2 := Renamed(s, sid, newPath, end);
    if end == BackupFails {
      NotBorne(s, newPath);
      NotBorne(s2, newPath);
    } else if end == Succeeds {
      EntryIs(s2, newPath, sid);
    }
    hide InTable, Entry;
  }

  /** The step that breaks it: a rename that fails at realpath or in the backup, of a file that somebody else holds.
      When nobody does, the object goes, or at realpath the code dereferences NULL. */
  lemma RenameSplitsIff(s0: State, steps: seq<Step>, s: State, step: Step)
    requires Init(s0) && Reaches(s0, steps, s) && AllFound(s) && Enabled(s, step)
    ensures Do(s, step).crashed <==> step.Rename? && step.end == NoRealpath && !InTable(s, step.path)
    ensures !Do(s, step).crashed ==>
      (AllFound(Do(s, step)) <==> !(step.Rename? && LeavesTable(step.end) && InTable(s, step.path)))
  {
    RunKeepsInv(s0, steps, s);
    FoundIfFiled(s);
    StepKeepsInv(s, step);
    FoundIfFiled(Do(s, step));
    hide AllFound, Found;
    StepFiled(s, step);
  }

  lemma StepFiled(s: State, step: Step)
    requires Inv(s) && Filed(s) && Enabled(s, step)
    ensures Do(s, step).crashed <==> step.Rename? && step.end == NoRealpath && !InTable(s, step.path)
    ensures !Do(s, step).crashed ==>
      (Filed(Do(s, step)) <==> !(step.Rename? && LeavesTable(step.end) && InTable(s, step.path)))
  {
    match step
    case Rename(path, newPath, newId, end) =>
      TakenForRename(s, path, newPath, newId);
      TakenFiled(s, path, newId);
      var sid := SidFor(s, path, newId);
      var s1 := Counted(Created(s, path, newId), sid);
      hide Inv, TableOk, CountsOk, CountsBut, InTable, Created, SidFor, Counted, Uncounted, Renamed;
      if end != CannotCreate {
        RenameFiled(s1, sid, newPath, end);
      }
    case Drop(r) => DropFiled(s, r);
    case _ =>
      hide InTable, Entry;
  }

  /** rename holds the only reference when it had to make the object. */
  lemma TakenFiled(s: State, path: Path, newId: Sid)
    requires TableOk(s) && CountsOk(s) && Filed(s) && (!InTable(s, path) ==> newId !in s.srcs)
    ensures var sid := SidFor(s, path, newId); var s0 := Created(s, path, newId);
      && sid in s0.srcs && Filed(Counted(s0, sid))
      && (Counted(s0, sid).srcs[sid].count == 1 <==> !InTable(s, path))
  {
    if InTable(s, path) {
      EntryBears(s, path);
    }
    hide InTable, Entry;
  }

  // ----- what a step does to an object -----

  ghost predicate OthersAlone(s: State, s': State, sid: Sid) {
    forall x :: x != sid ==> (x in s'.srcs <==> x in s.srcs) && (x in s.srcs ==> s'.srcs[x] == s.srcs[x])
  }

  lemma AddAndRemove(m: map<Ref, Sid>, r: Ref, sid: Sid)
    requires r !in m
    ensures m[r := sid] - {r} == m
  {
  }

  /** A get counts a reference of the object that the name finds, or of a new one, which the name finds from then on. */
  lemma GetFinds(s: State, r: Ref, path: Path, newId: Sid)
    requires Inv(s) && Enabled(s, Get(r, path, newId))
    ensures var s' := Do(s, Get(r, path, newId));
      && r in s'.holds && s'.holds - {r} == s.holds
      && var sid := s'.holds[r];
         && Bears(s', sid, path) && OthersAlone(s, s', sid)
         && if InTable(s, path)
            then Bears(s, sid, path) && s'.srcs[sid] == s.srcs[sid].(count := s.srcs[sid].count + 1)
            else sid == newId && s'.srcs[sid] == Src(Some(path), 1, 0)
  {
    hide TableOk, CountsOk, Holders, Bearers, InTable, Entry;
    CreatedTable(s, path, newId);
    if InTable(s, path) {
      EntryBears(s, path);
    }
    AddAndRemove(s.holds, r, SidFor(s, path, newId));
  }

  /** A drop gives the reference back, and the last one takes the object with it. */
  lemma DropGivesBack(s: State, r: Ref)
    requires Inv(s) && Enabled(s, Drop(r)) && !Do(s, Drop(r)).crashed
    ensures var s', sid := Do(s, Drop(r)), s.holds[r];
      && s'.holds == s.holds - {r} && OthersAlone(s, s', sid)
      && if s.srcs[sid].count > 1 then sid in s'.srcs && s'.srcs[sid] == s.srcs[sid].(count := s.srcs[sid].count - 1)
         else sid !in s'.srcs && sid !in s'.table
  {
    var sid := s.holds[r];
    if s.srcs[sid].count == 1 && sid in s.table {
      EntryIs(s, s.srcs[sid].name.value, sid);
    }
  }

  /** A reference that moves is a reference to the same object, and counted as before. */
  lemma MoveKeepsObject(s: State, from: Ref, to: Ref)
    requires Inv(s) && Enabled(s, Move(from, to))
    ensures var s' := Do(s, Move(from, to));
      && s'.srcs == s.srcs && s'.table == s.table && from !in s'.holds && to in s'.holds
      && s'.holds[to] == s.holds[from] && s'.holds - {to} == s.holds - {from}
  {
  }

  lemma KnownIsRenamed(s: State, path: Path, newPath: Path, newId: Sid)
    requires Inv(s) && !s.crashed && InTable(s, path)
    ensures var sid := Entry(s, path);
      sid in s.srcs && DoRename(s, path, newPath, newId, Succeeds)
                    == s.(srcs := s.srcs[sid := s.srcs[sid].(name := Some(newPath))])
  {
    EntryBears(s, path);
    var sid := Entry(s, path);
    hide InTable, Entry, Holders, Bearers;
    assert s.srcs[sid].count > 0;
    var s1 := Counted(s, sid);
    assert Created(s, path, newId) == s && SidFor(s, path, newId) == sid;
    var s2 := Renamed(s1, sid, newPath, Succeeds);
    assert Uncounted(s2, sid).srcs == s.srcs[sid := s.srcs[sid].(name := Some(newPath))];
  }

  lemma NewIsRenamed(s: State, path: Path, newPath: Path, newId: Sid)
    requires Inv(s) && Enabled(s, Rename(path, newPath, newId, Succeeds)) && !InTable(s, path)
    ensures DoRename(s, path, newPath, newId, Succeeds) == s
  {
    NotBorne(s, path);
    NotBorne(s, newPath);
    var s1 := Counted(Created(s, path, newId), newId);
    var s2 := Renamed(s1, newId, newPath, Succeeds);
    hide InTable, Entry, Holders, CountsOk;
    assert s2.srcs == s.srcs[newId := Src(Some(newPath), 1, 0)] && s2.table == s.table + {newId};
    assert newId !in s.table;
    assert Bearers(s2, newPath) == {newId};
    assert Uncounted(s2, newId).srcs == s.srcs && Uncounted(s2, newId).table == s.table;
  }

  /** A rename that succeeds gives the object its new name and nothing else, and leaves nothing under the old one; if no
      object had that, nothing changes. */
  lemma RenameMovesTheName(s: State, path: Path, newPath: Path, newId: Sid)
    requires Inv(s) && Enabled(s, Rename(path, newPath, newId, Succeeds))
    ensures var s' := Do(s, Rename(path, newPath, newId, Succeeds));
      && (newPath != path ==> !InTable(s', path))
      && if InTable(s, path)
         then var sid := Entry(s, path);
              && Bears(s', sid, newPath) && sid in s.srcs
              && s' == s.(srcs := s.srcs[sid := s.srcs[sid].(name := Some(newPath))])
         else s' == s
  {
    var s' := Do(s, Rename(path, newPath, newId, Succeeds));
    StepKeepsInv(s, Rename(path, newPath, newId, Succeeds));
    if InTable(s, path) {
      EntryBears(s, path);
      KnownIsRenamed(s, path, newPath, newId);
      hide DoRename, InTable, Entry, CountsOk, Holders;
      NotBorne(s', path);
    } else {
      NewIsRenamed(s, path, newPath, newId);
    }
  }

  lemma CreatedLeaks(s: State, path: Path, newId: Sid, sid: Sid)
    requires Inv(s) && (!InTable(s, path) ==> newId !in s.srcs) && sid in s.srcs
    ensures SidFor(s, path, newId) in Created(s, path, newId).srcs
    ensures var s', x := Counted(Created(s, path, newId), SidFor(s, path, newId)), SidFor(s, path, newId);
      && x in s'.srcs && s'.srcs[x].count > 0 && (x == sid <==> Bears(s, sid, path))
      && sid in s'.srcs && s'.srcs[sid].leaked == s.srcs[sid].leaked
  {
    if InTable(s, path) {
      EntryBears(s, path);
      if Bears(s, sid, path) {
        EntryIs(s, path, sid);
      }
    } else {
      NotBorne(s, path);
    }
    hide InTable, Entry, Bearers, Holders;
  }

  lemma UncountedLeaks(s: State, x: Sid, newPath: Path, end: End, sid: Sid)
    requires x in s.srcs && s.srcs[x].count > 0 && sid in s.srcs
    ensures sid in Uncounted(s, x).srcs ==> Uncounted(s, x).srcs[sid].leaked == s.srcs[sid].leaked
    ensures x in Renamed(s, x, newPath, end).srcs && Renamed(s, x, newPath, end).srcs[x].count > 0
    ensures sid in Renamed(s, x, newPath, end).srcs
    ensures Renamed(s, x, newPath, end).srcs[sid].leaked == s.srcs[sid].leaked
  {
  }

  /** References are abandoned exactly by an unlink or a rename that cannot create the destination. */
  lemma LeaksIff(s: State, step: Step, sid: Sid)
    requires Inv(s) && Enabled(s, step) && sid in s.srcs && sid in Do(s, step).srcs
    ensures Do(s, step).srcs[sid].leaked != s.srcs[sid].leaked <==>
      || (step.Abandon? && s.holds[step.r] == sid)
      || (step.Rename? && step.end == CannotCreate && Bears(s, sid, step.path))
  {
    hide Inv, InTable, Entry, Bearers, Uncounted, Renamed, Counted, Created, SidFor;
    match step
    case Get(_, path, newId) => CreatedLeaks(s, path, newId, sid);
    case Move(_, _) =>
    case Drop(r) => UncountedLeaks(s, s.holds[r], "", Succeeds, sid);
    case Abandon(_) =>
    case Rename(path, newPath, newId, end) =>
      CreatedLeaks(s, path, newId, sid);
      var x := SidFor(s, path, newId);
      var s1 := Counted(Created(s, path, newId), x);
      UncountedLeaks(s1, x, newPath, end, sid);
      UncountedLeaks(Renamed(s1, x, newPath, end), x, newPath, end, sid);
  }

  // ----- the limits -----

  /** "a" is open, on descriptor 0. */
  function OpenA(): State {
    State(map[ByFd(0) := 0], map[0 := Src(Some("a"), 1, 0)], {0}, false, false)
  }

  lemma OpenARuns()
    ensures exists s0, steps :: Init(s0) && Reaches(s0, steps, OpenA())
  {
    var s0, steps := State(map[], map[], {}, false, false), [Get(ByFd(0), "a", 0)];
    assert !InTable(s0, "a");
    assert steps[1..] == [];
    assert Do(s0, steps[0]) == OpenA();
    assert Reaches(OpenA(), steps[1..], OpenA());
    assert Init(s0) && Reaches(s0, steps, OpenA());
  }

  lemma EntryOfA(s: State)
    requires s.table == {0} && 0 in s.srcs && s.srcs[0].name == Some("a")
    ensures InTable(s, "a") && Entry(s, "a") == 0 && !InTable(s, "b")
  {
    assert Bears(s, 0, "a");
    assert Bearers(s, "a") == {0};
    assert Bearers(s, "b") == {};
  }

  /** A rename whose backup half fails, with the file still open: the next open() of the new name does not find the
      object.  From then on one file has two, each with its own range locks. */
  lemma FailedRenameSplitsFile()
    ensures exists s0, steps :: Init(s0) && Reaches(s0, steps, OpenA())
    ensures var s1 := State(map[ByFd(0) := 0], map[0 := Src(Some("b"), 1, 0)], {}, true, false);
      && Enabled(OpenA(), Rename("a", "b", 1, BackupFails)) && Do(OpenA(), Rename("a", "b", 1, BackupFails)) == s1
      && Enabled(s1, Get(ByFd(1), "b", 1))
      && var s2 := Do(s1, Get(ByFd(1), "b", 1));
         s2.holds[ByFd(0)] == 0 && s2.holds[ByFd(1)] == 1 && s2.srcs[0].name == s2.srcs[1].name
  {
    OpenARuns();
    hide Init, Reaches;
    EntryOfA(OpenA());
    var s1 := State(map[ByFd(0) := 0], map[0 := Src(Some("b"), 1, 0)], {}, true, false);
    assert !InTable(s1, "b");
    assert DoRename(OpenA(), "a", "b", 1, BackupFails) == s1 by {
      hide InTable, Entry;
    }
  }

  /** Renaming onto a name in the table, which the code does not expect, leaves two entries of one name. */
  lemma ClashMakesTwins(s: State, x: Sid, y: Sid, path: Path, newPath: Path, newId: Sid)
    requires TableOk(s) && Bears(s, x, path) && Bears(s, y, newPath) && path != newPath && s.srcs[x].count > 0
    requires !InTable(s, path) ==> newId !in s.srcs
    ensures var s' := DoRename(s, path, newPath, newId, Succeeds);
      Bears(s', x, newPath) && Bears(s', y, newPath) && x != y
  {
    EntryIs(s, path, x);
    hide InTable, Entry, Bearers;
  }
}
