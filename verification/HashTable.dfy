/** The chained hash table of source files, with the chain links inside the files. */
module HashTable {
  import opened Basics

  class SourceFile {
    var name: string
    var next: SourceFile?
    var references: nat
    var named: bool                // whether m_full_path is a string; if not, `name` is what it was before
    var unlinked: bool
    var destination: bool          // whether there is a destination object
    ghost var deleted: bool

    constructor (name: string)
      ensures this.name == name && next == null && references == 0 && named && !unlinked && !destination && !deleted
    {
      this.name := name;
      next := null;
      references := 0;
      named, unlinked, destination, deleted := true, false, false, false;
    }

    method TryToRemoveDestination()
      modifies `destination
      ensures destination == (old(destination) && references > 1)
    {
      if references <= 1 {
        destination := false;
      }
    }
  }

  /** What a rename finds under the old name: nothing, or an object and what it says. */
  datatype Found = Nothing | Object(unlinked: bool, destination: bool)

  /** How rename_locked ends: the last two follow a NULL pointer. */
  datatype Outcome = Renamed | Failed | Leaked | NullDestination | NullName

  type Chains = seq<seq<SourceFile>>

  /** The node at a position of a chain; NULL follows the last. */
  function At(chain: seq<SourceFile>, j: nat): SourceFile? {
    if j < |chain| then chain[j] else null
  }

  /** The nodes of the chain, in order, end with NULL. */
  ghost predicate Linked(head: SourceFile?, chain: seq<SourceFile>)
    reads chain`next
  {
    && head == At(chain, 0)
    && forall j :: 0 <= j < |chain| ==> chain[j].next == At(chain, j + 1)
  }

  predicate Distinct(chain: seq<SourceFile>) {
    forall j, k :: 0 <= j < k < |chain| ==> chain[j] != chain[k]
  }

  function Index(hash: string -> nat, name: string, size: nat): (i: nat)
    requires size > 0
    ensures i < size
  {
    hash(name) % size
  }

  /** Every chain holds members only, without repetition. */
  ghost predicate WithinMembers(chains: Chains, members: set<SourceFile>) {
    && (forall i, x :: 0 <= i < |chains| && x in chains[i] ==> x in members)
    && (forall i :: 0 <= i < |chains| ==> Distinct(chains[i]))
  }

  /** Each member is in the chain of its hash, and in no other. */
  ghost predicate Filed(hash: string -> nat, chains: Chains, members: set<SourceFile>)
    requires |chains| > 0
    reads members`name
  {
    && (forall x :: x in members ==> x in chains[Index(hash, x.name, |chains|)])
    && (forall i, x :: 0 <= i < |chains| && x in chains[i] && x in members ==> i == Index(hash, x.name, |chains|))
  }

  /** The array and the links make up these chains of these members. */
  ghost predicate Holds(hash: string -> nat, a: array<SourceFile?>, chains: Chains, members: set<SourceFile>)
    reads a, members`name, members`next
  {
    && |chains| == a.Length > 0 && WithinMembers(chains, members)
    && (forall i :: 0 <= i < |chains| ==> Linked(a[i], chains[i]))
    && Filed(hash, chains, members)
  }

  lemma PushedWithin(chains: Chains, i: nat, file: SourceFile, members: set<SourceFile>)
    requires WithinMembers(chains, members) && file !in members && i < |chains|
    ensures WithinMembers(chains[i := [file] + chains[i]], members + {file})
  {
    var pushed := chains[i := [file] + chains[i]];
    forall k | 0 <= k < |pushed|
      ensures Distinct(pushed[k])
    {
      assert Distinct(chains[k]);
      if k == i {
        assert forall j :: 0 < j < |pushed[i]| ==> pushed[i][j] == chains[i][j - 1] && chains[i][j - 1] in chains[i];
      }
    }
  }

  lemma PushedFiled(hash: string -> nat, chains: Chains, i: nat, file: SourceFile, members: set<SourceFile>)
    requires |chains| > 0 && Filed(hash, chains, members) && WithinMembers(chains, members) && file !in members
    requires i == Index(hash, file.name, |chains|)
    ensures Filed(hash, chains[i := [file] + chains[i]], members + {file})
  {
    var pushed := chains[i := [file] + chains[i]];
    forall k, x | 0 <= k < |pushed| && x in pushed[k]
      ensures x in chains[k] || (x == file && k == i)
    {
    }
    forall x | x in members
      ensures x in pushed[Index(hash, x.name, |chains|)]
    {
      assert x in chains[Index(hash, x.name, |chains|)];
    }
  }

  /** A chain without the file at position `j`. */
  function Without(chain: seq<SourceFile>, j: nat): (r: seq<SourceFile>)
    requires j < |chain|
    ensures |r| == |chain| - 1 && forall k :: 0 <= k < |r| ==> r[k] == chain[if k < j then k else k + 1]
  {
    chain[..j] + chain[j + 1..]
  }

  lemma WithoutOne(chain: seq<SourceFile>, j: nat)
    requires j < |chain| && Distinct(chain)
    ensures Distinct(Without(chain, j)) && chain[j] !in Without(chain, j)
    ensures forall x :: x in chain <==> x == chain[j] || x in Without(chain, j)
  {
    forall x | x in chain && x != chain[j]
      ensures x in Without(chain, j)
    {
      var k :| 0 <= k < |chain| && chain[k] == x;
      assert Without(chain, j)[if k < j then k else k - 1] == x;
    }
  }

  lemma TakenOut(hash: string -> nat, chains: Chains, i: nat, j: nat, members: set<SourceFile>)
    requires WithinMembers(chains, members) && i < |chains| && j < |chains[i]| && Filed(hash, chains, members)
    ensures Filed(hash, chains[i := Without(chains[i], j)], members - {chains[i][j]})
    ensures WithinMembers(chains[i := Without(chains[i], j)], members - {chains[i][j]})
  {
    var file, rest := chains[i][j], chains[i := Without(chains[i], j)];
    WithoutOne(chains[i], j);
    hide Without, Distinct;
    forall k, x | 0 <= k < |rest| && x in rest[k]
      ensures x in chains[k] && x != file
    {
      assert file in chains[i] && file in members && x in chains[k] && x in members;
    }
    forall x | x in members - {file}
      ensures x in rest[Index(hash, x.name, |chains|)]
    {
      assert x in chains[Index(hash, x.name, |chains|)];
    }
  }

  lemma LinkedTail(chain: seq<SourceFile>)
    requires chain != [] && Linked(chain[0], chain)
    ensures Linked(chain[0].next, chain[1..])
  {
    forall j | 0 <= j < |chain[1..]|
      ensures chain[1..][j].next == At(chain[1..], j + 1)
    {
      assert chain[1..][j] == chain[j + 1];
    }
  }

  lemma LinkedFront(file: SourceFile, chain: seq<SourceFile>)
    requires Linked(At(chain, 0), chain) && file.next == At(chain, 0)
    ensures Linked(file, [file] + chain)
  {
    var all := [file] + chain;
    forall j | 0 <= j < |all|
      ensures all[j].next == At(all, j + 1)
    {
      assert j > 0 ==> all[j] == chain[j - 1];
    }
  }

  /** Put a file at the front of the chain of its hash. */
  method PushFront(ghost hash: string -> nat, a: array<SourceFile?>, i: nat, file: SourceFile,
                   ghost chains: Chains, ghost members: set<SourceFile>)
    returns (ghost pushed: Chains)
    requires Holds(hash, a, chains, members) && file !in members && i == Index(hash, file.name, a.Length)
    modifies a, file`next
    ensures Holds(hash, a, pushed, members + {file})
  {
    pushed := chains[i := [file] + chains[i]];
    PushedWithin(chains, i, file, members);
    PushedFiled(hash, chains, i, file, members);
    assert forall k :: 0 <= k < |chains| ==> Linked(a[k], chains[k]);
    assert a[i] == At(chains[i], 0);
    file.next := a[i];
    a[i] := file;
    assert Filed(hash, pushed, members + {file});
    assert forall k, x: SourceFile :: 0 <= k < |chains| && x in chains[k] ==> x.next == old(x.next);
    hide Filed, Distinct, WithinMembers;
    forall k | 0 <= k < |chains|
      ensures Linked(old(a[k]), chains[k])
    {
      assert old(Linked(a[k], chains[k]));
      assert forall j :: 0 <= j < |chains[k]| ==> chains[k][j] in chains[k];
    }
    LinkedFront(file, chains[i]);
  }

  /** Take the first file off a chain. */
  method PopFront(ghost hash: string -> nat, a: array<SourceFile?>, i: nat, ghost chains: Chains,
                  ghost members: set<SourceFile>)
    returns (head: SourceFile, ghost popped: Chains)
    requires Holds(hash, a, chains, members) && i < a.Length && a[i] != null
    modifies a
    ensures head == old(a[i]) && head in members && chains[i] != [] && popped == chains[i := chains[i][1..]]
    ensures Holds(hash, a, popped, members - {head})
  {
    assert Linked(a[i], chains[i]);
    LinkedTail(chains[i]);
    head := a[i];
    popped := chains[i := chains[i][1..]];
    assert Without(chains[i], 0) == chains[i][1..];
    TakenOut(hash, chains, i, 0, members);
    a[i] := head.next;
    assert Filed(hash, popped, members - {head}) && WithinMembers(popped, members - {head}) && head in chains[i];
    hide Filed, Distinct, Linked;
    assert forall k :: 0 <= k < |popped| ==> Linked(a[k], popped[k]);
  }

  /** Redirect the link that leads to position `j` of a chain to the position after it. */
  method Bypass(ghost hash: string -> nat, a: array<SourceFile?>, i: nat, previous: SourceFile?, current: SourceFile,
                ghost j: nat, ghost chains: Chains, ghost members: set<SourceFile>)
    returns (ghost rest: Chains)
    requires Holds(hash, a, chains, members) && i < a.Length && j < |chains[i]| && chains[i][j] == current
    requires previous == if j == 0 then null else chains[i][j - 1]
    modifies a, members`next
    ensures rest == chains[i := Without(chains[i], j)] && Holds(hash, a, rest, members - {current})
  {
    var chain := chains[i];
    rest := chains[i := Without(chain, j)];
    TakenOut(hash, chains, i, j, members);
    var next := current.next;
    assert Linked(a[i], chain) && current.next == At(chain, j + 1);
    assert j > 0 ==> previous in chain;
    forall k | 0 <= k < |chains| && k != i
      ensures previous == null || previous !in chains[k]
    {
      if previous != null {
        var x: SourceFile := previous;
        assert x in chains[i] && x in members && i == Index(hash, x.name, |chains|);
      }
    }
    if previous != null {
      previous.next := next;
    } else {
      a[i] := next;
    }
    assert Filed(hash, rest, members - {current}) && WithinMembers(rest, members - {current});
    assert Distinct(chain);
    hide Filed, WithinMembers;
    forall k | 0 <= k < |chains| && k != i
      ensures Linked(a[k], rest[k])
    {
      assert old(Linked(a[k], chains[k]));
      assert forall x: SourceFile :: x in chains[k] && x != previous ==> x.next == old(x.next);
    }
    assert Linked(a[i], Without(chain, j)) by {
      forall k | 0 <= k < |chain| - 1
        ensures Without(chain, j)[k].next == At(Without(chain, j), k + 1)
      {
        assert old(Linked(a[i], chain));
      }
    }
  }

  function Pow2(k: nat): nat {
    if k == 0 then 1 else 2 * Pow2(k - 1)
  }

  ghost predicate UniqueNames(members: set<SourceFile>)
    reads members`name
  {
    forall x, y :: x in members && y in members && x.name == y.name ==> x == y
  }

  ghost function ByName(members: set<SourceFile>): (m: map<string, SourceFile>)
    requires UniqueNames(members)
    reads members`name
  {
    map x | x in members :: x.name := x
  }

  lemma Named(members: set<SourceFile>, file: SourceFile)
    requires UniqueNames(members) && file in members
    ensures file.name in ByName(members) && ByName(members)[file.name] == file
  {
  }

  lemma Lookup(members: set<SourceFile>, name: string)
    requires UniqueNames(members) && name in ByName(members)
    ensures ByName(members)[name] in members && ByName(members)[name].name == name
  {
  }

  lemma Lengths(hash: string -> nat, a: array<SourceFile?>, chains: Chains, members: set<SourceFile>)
    requires Holds(hash, a, chains, members)
    ensures |chains| == a.Length > 0
  {
  }

  /** What a walk along a chain finds at position `j`. */
  lemma Walk(hash: string -> nat, a: array<SourceFile?>, chains: Chains, members: set<SourceFile>, i: nat, j: nat)
    requires Holds(hash, a, chains, members) && i < a.Length
    ensures a.Length == |chains| && a[i] == At(chains[i], 0)
    ensures j < |chains[i]| ==> chains[i][j] in members && chains[i][j].next == At(chains[i], j + 1)
  {
    assert Linked(a[i], chains[i]);
    assert j < |chains[i]| ==> chains[i][j] in chains[i];
  }

  lemma NotInChain(hash: string -> nat, a: array<SourceFile?>, chains: Chains, members: set<SourceFile>,
                   file: SourceFile)
    requires Holds(hash, a, chains, members) && file !in chains[Index(hash, file.name, |chains|)]
    ensures file !in members
  {
  }

  /** The chain that a name hashes to decides whether the name is in the table. */
  lemma NameNotInChain(hash: string -> nat, a: array<SourceFile?>, chains: Chains, members: set<SourceFile>,
                       name: string)
    requires Holds(hash, a, chains, members) && UniqueNames(members)
    requires forall j :: 0 <= j < |chains[Index(hash, name, |chains|)]| ==>
      chains[Index(hash, name, |chains|)][j].name != name
    ensures name !in ByName(members)
  {
  }

  lemma NothingHeld(hash: string -> nat, a: array<SourceFile?>, chains: Chains)
    requires a.Length == |chains| > 0 && forall i :: 0 <= i < a.Length ==> a[i] == null && chains[i] == []
    ensures Holds(hash, a, chains, {})
  {
  }

  lemma NothingLeft(hash: string -> nat, a: array<SourceFile?>, chains: Chains, members: set<SourceFile>)
    requires Holds(hash, a, chains, members) && forall i :: 0 <= i < |chains| ==> chains[i] == []
    ensures members == {}
  {
    assert forall x :: x in members ==> x in chains[Index(hash, x.name, |chains|)];
  }

  lemma Added(members: set<SourceFile>, file: SourceFile)
    requires UniqueNames(members) && file.name !in ByName(members)
    ensures UniqueNames(members + {file}) && ByName(members + {file}) == ByName(members)[file.name := file]
    ensures file !in members
  {
    var all := members + {file};
    forall x, y | x in all && y in all && x.name == y.name
      ensures x == y
    {
      assert x in members ==> x.name in ByName(members);
      assert y in members ==> y.name in ByName(members);
    }
  }

  lemma Removed(members: set<SourceFile>, file: SourceFile)
    requires UniqueNames(members) && file in members
    ensures UniqueNames(members - {file}) && ByName(members - {file}) == ByName(members) - {file.name}
  {
    assert forall x :: x in members && x != file ==> x.name != file.name;
  }

  /** `moves` of the files on the left have gone to the right. */
  ghost predicate Shifted(left: set<SourceFile>, right: set<SourceFile>,
                          left': set<SourceFile>, right': set<SourceFile>, moves: nat) {
    left' !! right' && left' <= left && left' + right' == left + right && |left'| + moves == |left|
  }

  lemma OneMore(left: set<SourceFile>, right: set<SourceFile>,
                left': set<SourceFile>, right': set<SourceFile>, moves: nat, file: SourceFile)
    requires Shifted(left, right, left', right', moves) && file in left'
    ensures file in left && file !in right' && Shifted(left, right, left' - {file}, right' + {file}, moves + 1)
  {
  }

  lemma SomeMore(left: set<SourceFile>, right: set<SourceFile>, left': set<SourceFile>, right': set<SourceFile>,
                 moves: nat, left'': set<SourceFile>, right'': set<SourceFile>, more: nat)
    requires Shifted(left, right, left', right', moves) && Shifted(left', right', left'', right'', more)
    ensures Shifted(left, right, left'', right'', moves + more)
  {
  }

  /** Move the files of one old bucket to their new buckets.  `moves` counts the insertions into the new table: as many
      as files leave the old one. */
  method MoveBucket(hash: string -> nat, from: array<SourceFile?>, i: nat, to: array<SourceFile?>,
                    ghost left: Chains, ghost leftMembers: set<SourceFile>,
                    ghost moved: Chains, ghost movedMembers: set<SourceFile>)
    returns (ghost left': Chains, ghost leftMembers': set<SourceFile>,
             ghost moved': Chains, ghost movedMembers': set<SourceFile>, ghost moves: nat)
    requires Holds(hash, from, left, leftMembers) && Holds(hash, to, moved, movedMembers)
    requires from != to && leftMembers !! movedMembers && i < |left| == from.Length && to.Length > 0
    modifies from, to, leftMembers`next
    ensures Holds(hash, from, left', leftMembers') && Holds(hash, to, moved', movedMembers')
    ensures left' == left[i := []] && moves == |left[i]|
    ensures Shifted(leftMembers, movedMembers, leftMembers', movedMembers', moves)
  {
    hide Holds, Linked, Filed, WithinMembers, Distinct;
    left', leftMembers', moved', movedMembers', moves := left, leftMembers, moved, movedMembers, 0;
    assert Shifted(leftMembers, movedMembers, leftMembers', movedMembers', moves);
    hide Shifted, At;
    while from[i] != null
      modifies from, to, leftMembers`next
      invariant Holds(hash, from, left', leftMembers') && Holds(hash, to, moved', movedMembers')
      invariant |left'| == |left| && |left'[i]| + moves == |left[i]|
      invariant forall k :: 0 <= k < |left| && k != i ==> left'[k] == left[k]
      invariant Shifted(leftMembers, movedMembers, leftMembers', movedMembers', moves)
      decreases |left'[i]|
    {
      var head;
      head, left' := PopFront(hash, from, i, left', leftMembers');
      OneMore(leftMembers, movedMembers, leftMembers', movedMembers', moves, head);
      leftMembers' := leftMembers' - {head};
      moved' := PushFront(hash, to, hash(head.name) % to.Length, head, moved', movedMembers');
      moves := moves + 1;
      movedMembers' := movedMembers' + {head};
    }
    Emptied(hash, from, left', leftMembers', i);
  }

  lemma Emptied(hash: string -> nat, a: array<SourceFile?>, chains: Chains, members: set<SourceFile>, i: nat)
    requires Holds(hash, a, chains, members) && i < a.Length && a[i] == null
    ensures |chains| == a.Length && chains[i] == []
  {
    Walk(hash, a, chains, members, i, 0);
  }

  /** Moves every file, and none twice: there are as many insertions as files. */
  method MoveAll(hash: string -> nat, from: array<SourceFile?>, to: array<SourceFile?>,
                 ghost chains: Chains, ghost members: set<SourceFile>)
    returns (ghost moved: Chains, ghost moves: nat)
    requires Holds(hash, from, chains, members) && |chains| == from.Length
    requires to.Length > 0 && to != from && Holds(hash, to, seq(to.Length, _ => []), {})
    modifies from, to, members`next
    ensures Holds(hash, to, moved, members) && moves == |members|
  {
    hide Holds, Linked, Filed, WithinMembers, Distinct;
    ghost var left, leftMembers, movedMembers := chains, members, {};
    moved, moves := seq(to.Length, _ => []), 0;
    for i := 0 to from.Length
      modifies from, to, members`next
      invariant Holds(hash, from, left, leftMembers) && Holds(hash, to, moved, movedMembers)
      invariant |left| == from.Length && forall k :: 0 <= k < i ==> left[k] == []
      invariant Shifted(members, {}, leftMembers, movedMembers, moves)
    {
      ghost var leftNow, movedNow, more := leftMembers, movedMembers, 0;
      left, leftMembers, moved, movedMembers, more :=
        MoveBucket(hash, from, i, to, left, leftMembers, moved, movedMembers);
      SomeMore(members, {}, leftNow, movedNow, moves, leftMembers, movedMembers, more);
      moves := moves + more;
    }
    NothingLeft(hash, from, left, leftMembers);
    assert movedMembers == members;
  }

  /** A map after the rename of one entry, whether the entry is in it again or not. */
  function Renaming<T>(m: map<string, T>, name: string, newName: Option<string>, target: T, back: bool): map<string,
                       T>
  {
    if back && newName.Some? then (m - {name})[newName.value := target] else m - {name}
  }

  lemma RenamingIs<T>(m: map<string, T>, name: string, newName: Option<string>, target: T, back: bool)
    ensures Renaming(m, name, newName, target, back)
         == if back && newName.Some? then (m - {name})[newName.value := target] else m - {name}
  {
  }

  function Dropping<T>(m: map<string, T>, name: string, gone: bool): map<string, T> {
    if gone then m - {name} else m
  }

  /** Taking the entry out again leaves what a failed rename leaves. */
  lemma RenamedAndDropped<T>(m: map<string, T>, name: string, newName: Option<string>, target: T, gone: bool)
    requires newName.Some? && (newName.value == name || newName.value !in m)
    ensures Dropping(Renaming(m, name, newName, target, true), newName.value, gone)
      == Renaming(m, name, newName, target, !gone)
  {
  }

  lemma NotEntered<T>(m: map<string, T>, name: string, newName: Option<string>, target: T)
    requires newName.Some? && (newName.value == name || newName.value !in m)
    ensures newName.value !in Renaming(m, name, newName, target, false)
  {
  }

  lemma EnteredAndRenamed<T>(m: map<string, T>, name: string, newName: Option<string>, target: T, back: bool)
    ensures Renaming(m[name := target], name, newName, target, back) == Renaming(m, name, newName, target, back)
  {
    assert m[name := target] - {name} == m - {name};
  }

  class FileHashTable {
    const hash: string -> nat      // the sum of the two halves of MurmurHash3_x64_128; any function will do
    var count: nat
    var buckets: array<SourceFile?>
    var size: nat

    ghost var chains: Chains
    ghost var members: set<SourceFile>
    // history
    ghost var inserted: nat        // files put into the table
    ghost var relinked: nat        // files moved by maybe_resize
    ghost var resizes: nat

    /** What holds between an insertion and the resize that follows it. */
    ghost predicate Core()
      reads this, buckets, members`name, members`next
    {
      && Holds(hash, buckets, chains, members) && UniqueNames(members) && Counted()
    }

    ghost predicate Counted()
      reads this
    {
      && size == buckets.Length && count == |members| <= inserted
      && size + 1 == Pow2(resizes + 1) && relinked == size - 1 && (size == 1 || size + 1 <= 2 * inserted)
    }

    ghost predicate Valid()
      reads this, buckets, members`name, members`next
    {
      Core() && count <= size
    }

    /** The table as a map: this is all its users can see. */
    ghost function Contents(): map<string, SourceFile>
      requires UniqueNames(members)
      reads this, members`name
    {
      ByName(members)
    }

    ghost function Known(name: string): Found
      requires UniqueNames(members)
      reads this, members
    {
      if name in Contents() && Contents()[name] in members
      then Object(Contents()[name].unlinked, Contents()[name].destination) else Nothing
    }

    lemma CoreIs()
      ensures Core() <==> Counted() && Holds(hash, buckets, chains, members) && UniqueNames(members)
      ensures UniqueNames(members) ==> Contents() == ByName(members)
    {
    }

    lemma NamesAreUnique()
      requires Valid()
      ensures UniqueNames(members)
    {
    }

    lemma CountFits()
      requires Valid()
      ensures Core()
    {
    }

    lemma Member(file: SourceFile)
      requires Valid() && file in members
      ensures UniqueNames(members) && file.name in Contents() && Contents()[file.name] == file
    {
      Named(members, file);
    }

    lemma Entry(name: string)
      requires Valid()
      ensures UniqueNames(members)
      ensures (name in Contents() ==> Contents()[name] in members && Contents()[name].name == name)
    {
      if name in Contents() {
        Lookup(members, name);
      }
    }

    constructor (hash: string -> nat)
      ensures Valid() && fresh(buckets) && this.hash == hash && members == {} && Contents() == map[]
      ensures inserted == relinked == 0
    {
      this.hash := hash;
      count, size := 0, 1;
      buckets := new SourceFile?[1](_ => null);
      chains, members, inserted, relinked, resizes := [[]], {}, 0, 0, 0;
    }

    method Get(name: string) returns (found: SourceFile?)
      requires Core()
      ensures found == if name in Contents() then Contents()[name] else null
    {
      hide Holds, Linked, Filed, WithinMembers, Distinct, UniqueNames, ByName, Pow2;
      ghost var i := Index(hash, name, size);
      Walk(hash, buckets, chains, members, i, 0);
      ghost var chain, j := chains[i], 0;
      found := buckets[hash(name) % size];
      while found != null
        invariant j <= |chain| && found == At(chain, j)
        invariant forall k :: 0 <= k < j ==> chain[k].name != name
        decreases |chain| - j
      {
        Walk(hash, buckets, chains, members, i, j);
        if found.name == name {
          Named(members, found);
          return;
        }
        found := found.next;
        j := j + 1;
      }
      NameNotInChain(hash, buckets, chains, members, name);
    }

    /** put, which is insert at the bucket of the file's name. */
    method Put(file: SourceFile)
      requires Valid() && (file in members || file.name !in Contents())
      modifies this, buckets, members`next, file`next
      ensures Valid() && members == old(members) + {file}
      ensures Contents() == old(Contents())[file.name := file]
      ensures inserted == old(inserted) + if file in old(members) then 0 else 1
      ensures buckets == old(buckets) || fresh(buckets)
    {
      hide Holds, Linked, Filed, WithinMembers, Distinct, UniqueNames, ByName, Pow2;
      var index := hash(file.name) % size;
      Walk(hash, buckets, chains, members, index, 0);
      ghost var chain, j := chains[index], 0;
      var current := buckets[index];
      while current != null
        modifies {}
        invariant j <= |chain| && current == At(chain, j) && file !in chain[..j]
        decreases |chain| - j
      {
        Walk(hash, buckets, chains, members, index, j);
        if current == file {
          Named(members, file);
          assert members == old(members) + {file};
          return;
        }
        assert chain[..j + 1] == chain[..j] + [chain[j]];
        current := current.next;
        j := j + 1;
      }
      assert chain[..j] == chain;
      NotInChain(hash, buckets, chains, members, file);
      Link(index, file);
      MaybeResize();
    }

    method Link(index: nat, file: SourceFile)
      requires Valid() && file !in members && file.name !in Contents() && index == Index(hash, file.name, size)
      modifies this, buckets, file`next
      ensures Core() && count <= size + 1 && members == old(members) + {file} && buckets == old(buckets)
      ensures size == old(size)
      ensures Contents() == old(Contents())[file.name := file] && inserted == old(inserted) + 1
      ensures relinked == old(relinked)
    {
      hide Holds, Linked, Filed, WithinMembers, Distinct, UniqueNames, ByName, Pow2, Core, Contents;
      CoreIs();
      Added(members, file);
      chains := PushFront(hash, buckets, index, file, chains, members);
      members, inserted := members + {file}, inserted + 1;
      count := count + 1;
      CoreIs();
    }

    /** Doubles the buckets when there are more files than buckets; every file is moved once.  `relinked` counts what
        the loops move. */
    method MaybeResize()
      requires Core() && count <= size + 1
      modifies this, buckets, members`next
      ensures Valid() && members == old(members) && inserted == old(inserted)
      ensures Contents() == old(Contents())
      ensures relinked == old(relinked) + if old(size) < count then count else 0
      ensures buckets == old(buckets) || fresh(buckets)
    {
      hide Holds, Linked, Filed, WithinMembers, Distinct, UniqueNames, ByName, Core, Contents;
      CoreIs();
      if size < count {
        var oldArray := buckets;
        size := size + count;
        var newArray := new SourceFile?[size](_ => null);
        buckets := newArray;
        NothingHeld(hash, newArray, seq(size, _ => []));
        Lengths(hash, oldArray, chains, members);
        ghost var moves;
        chains, moves := MoveAll(hash, oldArray, newArray, chains, members);
        resizes, relinked := resizes + 1, relinked + moves;
      }
      CoreIs();
    }

    method Remove(file: SourceFile)
      requires Valid()
      modifies this, members`next, buckets
      ensures Valid() && buckets == old(buckets) && inserted == old(inserted) && relinked == old(relinked)
      ensures Contents() == old(Contents()) - {file.name}
      ensures members == if file.name in old(Contents()) then old(members) - {old(Contents())[file.name]}
                         else old(members)
    {
      hide Holds, Linked, Filed, WithinMembers, Distinct, UniqueNames, ByName, Pow2;
      var index := hash(file.name) % size;
      Walk(hash, buckets, chains, members, index, 0);
      ghost var chain, j := chains[index], 0;
      var current, previous: SourceFile? := buckets[index], null;
      while current != null
        modifies {}
        invariant j <= |chain| && current == At(chain, j) && previous == if j == 0 then null else chain[j - 1]
        invariant forall k :: 0 <= k < j ==> chain[k].name != file.name
        decreases |chain| - j
      {
        Walk(hash, buckets, chains, members, index, j);
        if current.name == file.name {
          break;
        }
        previous := current;
        current := current.next;
        j := j + 1;
      }
      if current != null {
        Walk(hash, buckets, chains, members, index, j);
        Detach(index, previous, current, j);
      } else {
        NameNotInChain(hash, buckets, chains, members, file.name);
      }
    }

    method Detach(index: nat, previous: SourceFile?, current: SourceFile, ghost j: nat)
      requires Valid() && index < |chains| == size && j < |chains[index]| && chains[index][j] == current
      requires current in members
      requires previous == if j == 0 then null else chains[index][j - 1]
      modifies this, members`next, buckets
      ensures Valid() && buckets == old(buckets) && inserted == old(inserted) && relinked == old(relinked)
      ensures current.name in old(Contents()) && old(Contents())[current.name] == current
      ensures Contents() == old(Contents()) - {current.name} && members == old(members) - {current}
    {
      hide Holds, Linked, Filed, WithinMembers, Distinct, UniqueNames, ByName, Pow2;
      Named(members, current);
      Removed(members, current);
      chains := Bypass(hash, buckets, index, previous, current, j, chains, members);
      members := members - {current};
      count := count - 1;
    }

    method GetOrCreate(name: string) returns (source: SourceFile)
      requires Valid()
      modifies this, buckets, members`next, members`references
      ensures Valid() && Contents() == old(Contents())[name := source] && source.name == name
      ensures members == old(members) + {source}
      ensures if name in old(Contents())
              then source == old(Contents())[name] && source.references == old(source.references) + 1
              else fresh(source) && source.references == 1 && source.named
                   && !source.unlinked && !source.destination && !source.deleted
      ensures forall x :: x in old(members) && x != source ==> x.references == old(x.references)
      ensures buckets == old(buckets) || fresh(buckets)
    {
      hide Holds, Linked, Filed, WithinMembers, Distinct, UniqueNames, ByName, Pow2, Core, Valid, Contents;
      Entry(name);
      CountFits();
      var found := Get(name);
      if found == null {
        source := new SourceFile(name);
        Put(source);
      } else {
        source := found;
      }
      source.references := source.references + 1;
    }

    /** Drops a reference.  With the last one the file loses its destination, is deleted, and whatever bears its name
        leaves the table: the file itself, unless a failed rename has taken it out before.  `crashed` says that the file
        has no name to look for. */
    method TryToRemove(file: SourceFile) returns (crashed: bool)
      requires Valid() && file.references > 0 && (file in members ==> file.named)
      modifies this, buckets, members`next, file`references, file`destination, file`deleted
      ensures crashed == (file.references == 0 && !file.named)
      ensures Valid() && file.references == old(file.references) - 1 && buckets == old(buckets)
      ensures file.destination == (old(file.destination) && file.references > 0)
      ensures file.deleted == (old(file.deleted) || (file.references == 0 && !crashed))
      ensures Contents() == if file.references == 0 && !crashed then old(Contents()) - {file.name} else old(Contents())
      ensures members == if file.references == 0 && !crashed && file.name in old(Contents())
                         then old(members) - {old(Contents())[file.name]} else old(members)
      ensures old(file in members) ==> (file in members <==> file.references > 0)
      ensures old(file !in members) ==> file !in members
    {
      hide Holds, Linked, Filed, WithinMembers, Distinct, UniqueNames, ByName, Pow2;
      if file in members {
        Named(members, file);
      }
      file.references := file.references - 1;
      crashed := false;
      if file.references == 0 {
        file.TryToRemoveDestination();
        if !file.named {
          return true;
        }
        Remove(file);
        file.deleted := true;
      }
    }

    /** Rename inside a session.  `resolved` is what realpath says about the new name, and `destError` what the
        rename of the backup file answers.  Either failure leaves the file out of the table, the first without a name;
        and without a destination a NULL pointer is followed. */
    method Rename(target: SourceFile, resolved: Option<string>, destError: int) returns (ok: bool, crashed: bool)
      requires Valid() && target in members && target.named
      requires resolved.Some? ==> resolved.value == target.name || resolved.value !in Contents()
      modifies this, buckets, members`next, target`name, target`named
      ensures crashed == (resolved.Some? && !target.destination)
      ensures Valid() && ok == (resolved.Some? && !crashed && destError == 0) && target.named == resolved.Some?
      ensures resolved.Some? ==> target.name == resolved.value
      ensures members == if ok then old(members) else old(members) - {target}
      ensures Contents() == Renaming(old(Contents()), old(target.name), resolved, target, ok)
      ensures Contents() == if ok then (old(Contents()) - {old(target.name)})[target.name := target]
                            else old(Contents()) - {old(target.name)}
      ensures buckets == old(buckets) || fresh(buckets)
    {
      hide Holds, Linked, Filed, WithinMembers, Distinct, UniqueNames, ByName, Pow2, Core, Valid, Contents;
      Member(target);
      Remove(target);
      if resolved.None? {
        target.named := false;
        return false, false;
      }
      target.name := resolved.value;
      if !target.destination {
        return false, true;
      }
      if destError != 0 {
        return false, false;
      }
      Put(target);
      return true, false;
    }

    /** A reference to a file that a failed rename has left outside the table. */
    method DropUnfiled(file: SourceFile) returns (crashed: bool)
      requires Valid() && file.references > 0 && file !in members && (file.named ==> file.name !in Contents())
      modifies this, buckets, members`next, file`references, file`destination, file`deleted
      ensures crashed == (file.references == 0 && !file.named) && file.references == old(file.references) - 1
      ensures Valid() && members == old(members) && Contents() == old(Contents())
    {
      hide Holds, Linked, Filed, WithinMembers, Distinct, UniqueNames, ByName, Pow2;
      ghost var was, name := Contents(), file.name;
      crashed := TryToRemove(file);
      assert name !in was ==> was - {name} == was;
    }

    /** A reference to a file in the table. */
    method DropFiled(file: SourceFile)
      requires Valid() && file.references > 0 && file in members && file.named && !file.deleted
      modifies this, buckets, members`next, file`references, file`destination, file`deleted
      ensures file.references == old(file.references) - 1 && Valid() && !(file.deleted && file in members)
      ensures Contents() == Dropping(old(Contents()), file.name, file.references == 0)
    {
      hide Holds, Linked, Filed, WithinMembers, Distinct, UniqueNames, ByName, Pow2;
      var crashed := TryToRemove(file);
    }

    /** A rename that fails, and the reference is given back. */
    method RenameFails(target: SourceFile, resolved: Option<string>, destError: int) returns (outcome: Outcome)
      requires Valid() && target in members && target.named && target.references > 0
      requires resolved.None? || (target.destination && destError != 0)
      requires resolved.Some? ==> resolved.value == target.name || resolved.value !in Contents()
      modifies this, buckets, members`next, target`name, target`named, target`references, target`destination,
               target`deleted
      ensures outcome == if resolved.None? && target.references == 0 then NullName else Failed
      ensures target.references == old(target.references) - 1 && Valid() && target !in members
      ensures Contents() == Renaming(old(Contents()), old(target.name), resolved, target, false)
    {
      hide *;
      NamesAreUnique();
      ghost var was, name := Contents(), target.name;
      hide Renaming;
      var ok, followedNull := Rename(target, resolved, destError);
      if resolved.Some? {
        NotEntered(was, name, resolved, target);
      }
      var crashed := DropUnfiled(target);
      outcome := if crashed then NullName else Failed;
    }

    /** A rename that succeeds, and the reference is given back. */
    method RenameSucceeds(target: SourceFile, resolved: Option<string>)
      requires Valid() && target in members && target.named && target.references > 0 && !target.deleted
      requires resolved.Some? && target.destination && (resolved.value == target.name || resolved.value !in Contents())
      modifies this, buckets, members`next, target`name, target`named, target`references, target`destination,
               target`deleted
      ensures target.references == old(target.references) - 1 && Valid() && !(target.deleted && target in members)
      ensures Contents() == Renaming(old(Contents()), old(target.name), resolved, target, target.references > 0)
    {
      hide *;
      NamesAreUnique();
      ghost var was, name := Contents(), target.name;
      hide Renaming, Dropping;
      var ok, followedNull := Rename(target, resolved, 0);
      DropFiled(target);
      RenamedAndDropped(was, name, resolved, target, target.references == 0);
    }

    /** The end of rename_locked: the rename, and the reference it took is given back. */
    method RenameAndDrop(target: SourceFile, resolved: Option<string>, destError: int) returns (outcome: Outcome)
      requires Valid() && target in members && target.named && target.references > 0 && !target.deleted
      requires resolved.Some? ==> resolved.value == target.name || resolved.value !in Contents()
      modifies this, buckets, members`next, target`name, target`named, target`references, target`destination,
               target`deleted
      ensures outcome == if resolved.None? then if target.references == 0 then NullName else Failed
                         else if !old(target.destination) then NullDestination
                         else if destError != 0 then Failed else Renamed
      ensures target.references == old(target.references) - if outcome.NullDestination? then 0 else 1
      ensures Valid() && !(target.deleted && target in members)
      ensures Contents()
        == Renaming(old(Contents()), old(target.name), resolved, target, outcome.Renamed? && target.references > 0)
    {
      hide *;
      hide Renaming;
      if resolved.None? || (target.destination && destError != 0) {
        outcome := RenameFails(target, resolved, destError);
      } else if !target.destination {
        var ok, followedNull := Rename(target, resolved, destError);
        outcome := NullDestination;
      } else {
        RenameSucceeds(target, resolved);
        outcome := Renamed;
      }
    }

    /** rename_locked, with the table lock held: what becomes of the call, of the reference it took, and of the table.
        `createFails` says whether a backup file that has to be created cannot be. */
    method RenameLocked(oldName: string, createFails: bool, resolved: Option<string>, destError: int)
      returns (outcome: Outcome, target: SourceFile)
      requires Valid() && (forall x :: x in members ==> x.references > 0 && x.named && !x.deleted)
      requires resolved.Some? ==> resolved.value == oldName || resolved.value !in Contents()
      modifies this, buckets, members`next, members`references, members`name, members`named, members`destination,
               members`deleted
      ensures if oldName in old(Contents()) then target == old(Contents())[oldName] else fresh(target)
      ensures var found := old(Known(oldName));
        var bare := found.Object? && found.unlinked && !found.destination;   // no destination, and none is made
        var made := !createFails || (found.Object? && (found.unlinked || found.destination));
        && (outcome.Leaked? <==> !made)
        && (outcome.NullName? <==> made && resolved.None? && found.Nothing?)
        && (outcome.NullDestination? <==> made && resolved.Some? && bare)
        && (outcome.Renamed? <==> made && resolved.Some? && !bare && destError == 0)
      ensures Valid() && !(target.deleted && target in members)
      ensures target.references == (if oldName in old(Contents()) then old(target.references) else 0)
                                   + if outcome.Leaked? || outcome.NullDestination? then 1 else 0
      ensures Contents() == if outcome.Leaked? then old(Contents())[oldName := target]
                            else Renaming(old(Contents()), oldName, resolved, target,
                                          outcome.Renamed? && oldName in old(Contents()))
      ensures outcome.Renamed? && oldName in old(Contents()) ==>
        Contents() == (old(Contents()) - {oldName})[resolved.value := target]
      ensures !outcome.Leaked? && !(outcome.Renamed? && oldName in old(Contents())) ==>
        Contents() == old(Contents()) - {oldName}
    {
      hide Holds, Linked, Filed, WithinMembers, Distinct, UniqueNames, ByName, Pow2, Core, Valid, Contents, Renaming;
      Entry(oldName);
      ghost var was := Contents();
      target := GetOrCreate(oldName);
      if !target.unlinked && !target.destination {
        if createFails {
          return Leaked, target;
        }
        target.destination := true;
      }
      outcome := RenameAndDrop(target, resolved, destError);
      EnteredAndRenamed(was, oldName, resolved, target, outcome.Renamed? && target.references > 0);
      RenamingIs(was, oldName, resolved, target, outcome.Renamed? && target.references > 0);
    }

    /** Amortised cost: over any run of operations, resizing moves at most two files for each one inserted. */
    lemma ResizeCost()
      requires Valid()
      ensures relinked <= 2 * inserted && count <= size && exists k: nat :: size == Pow2(k) - 1
    {
      assert size == Pow2(resizes + 1) - 1;
    }
  }
}
