/** The copier's walk over a directory tree that does not change: a worklist, against the recursive sum that predicts
    how much there is to copy.  Any call may fail, the callback may say stop, and copying may be disabled. */
module Traversal {
  import opened Basics

  /** A file, a directory with its entries in the order of readdir, or anything else that is not a link. */
  datatype Node = File(size: nat) | Other(size: nat) | Dir(entries: seq<Entry>)

  /** The entries "." and ".." are listed too; what they stand for is never looked at. */
  datatype Entry = Entry(name: string, node: Node)

  /** The names that lead from the root of the copy to an entry. */
  type Path = seq<string>

  predicate IsDot(name: string) {
    name == ".." || name == "."
  }

  /** No directory lists a name twice. */
  predicate WellFormed(node: Node) {
    node.Dir? ==>
      && (forall i, j :: 0 <= i < j < |node.entries| ==> node.entries[i].name != node.entries[j].name)
      && (forall e :: e in node.entries ==> WellFormed(e.node))
  }

  // ----- dirsum -----

  function DirSum(node: Node): nat {
    if node.Dir? then EntriesSum(node.entries) else 0
  }

  function EntrySize(e: Entry): nat {
    if IsDot(e.name) then 0 else if e.node.Dir? then DirSum(e.node) else e.node.size
  }

  function EntriesSum(entries: seq<Entry>): nat {
    if entries == [] then 0 else EntrySize(entries[0]) + EntriesSum(entries[1..])
  }

  lemma {:induction false} EntriesSumLast(entries: seq<Entry>, k: nat)
    requires k < |entries|
    ensures EntriesSum(entries[..k + 1]) == EntriesSum(entries[..k]) + EntrySize(entries[k])
  {
    if k > 0 {
      EntriesSumLast(entries[1..], k - 1);
      assert entries[1..][..k - 1] == entries[..k][1..] && entries[1..][..k] == entries[..k + 1][1..];
    }
  }

  method Dirsum(node: Node) returns (sum: nat)
    ensures sum == DirSum(node)
    decreases node
  {
    if !node.Dir? {
      return 0;
    }
    sum := 0;
    var entries := node.entries;
    for i := 0 to |entries|
      invariant sum == EntriesSum(entries[..i])
    {
      EntriesSumLast(entries, i);
      var e := entries[i];
      if IsDot(e.name) {
        continue;
      }
      if e.node.Dir? {
        var subDirsum := Dirsum(e.node);
        sum := sum + subDirsum;
        continue;
      }
      sum := sum + e.node.size;
    }
    assert entries[..|entries|] == entries;
  }

  // ----- what a full walk handles -----

  /** The entries that a walk from `node` meets, each directory before what is in it. */
  function Reached(excluded: Path -> bool, node: Node, path: Path): seq<Path> {
    [path] + if excluded(path) || !node.Dir? then [] else ReachedIn(excluded, node.entries, path)
  }

  function ReachedIn(excluded: Path -> bool, entries: seq<Entry>, path: Path): seq<Path> {
    if entries == [] then []
    else
      (if IsDot(entries[0].name) then [] else Reached(excluded, entries[0].node, path + [entries[0].name]))
      + ReachedIn(excluded, entries[1..], path)
  }

  function Bytes(excluded: Path -> bool, node: Node, path: Path): nat {
    if excluded(path) then 0
    else match node
      case File(size) => size
      case Other(_) => 0
      case Dir(entries) => BytesIn(excluded, entries, path)
  }

  function BytesIn(excluded: Path -> bool, entries: seq<Entry>, path: Path): nat {
    if entries == [] then 0
    else
      (if IsDot(entries[0].name) then 0 else Bytes(excluded, entries[0].node, path + [entries[0].name]))
      + BytesIn(excluded, entries[1..], path)
  }

  /** What the sum counts and the walk does not copy: excluded entries, and those that are not regular files. */
  function LeftOut(excluded: Path -> bool, node: Node, path: Path): nat {
    match node
    case File(size) => if excluded(path) then size else 0
    case Other(size) => size
    case Dir(entries) => if excluded(path) then DirSum(node) else LeftOutIn(excluded, entries, path)
  }

  function LeftOutIn(excluded: Path -> bool, entries: seq<Entry>, path: Path): nat {
    if entries == [] then 0
    else
      (if IsDot(entries[0].name) then 0 else LeftOut(excluded, entries[0].node, path + [entries[0].name]))
      + LeftOutIn(excluded, entries[1..], path)
  }

  lemma {:induction false} BytesConserved(excluded: Path -> bool, node: Node, path: Path)
    requires node.Dir?
    ensures Bytes(excluded, node, path) + LeftOut(excluded, node, path) == DirSum(node)
    decreases node, 1
  {
    if !excluded(path) {
      BytesConservedIn(excluded, node.entries, path);
    }
  }

  lemma {:induction false} BytesConservedIn(excluded: Path -> bool, entries: seq<Entry>, path: Path)
    ensures BytesIn(excluded, entries, path) + LeftOutIn(excluded, entries, path) == EntriesSum(entries)
    decreases entries, 0
  {
    if entries != [] {
      BytesConservedIn(excluded, entries[1..], path);
      if !IsDot(entries[0].name) && entries[0].node.Dir? {
        BytesConserved(excluded, entries[0].node, path + [entries[0].name]);
      }
    }
  }

  lemma {:induction false} ReachedExtend(excluded: Path -> bool, node: Node, path: Path)
    ensures forall p :: p in Reached(excluded, node, path) ==> path <= p
    decreases node, 1
  {
    if !excluded(path) && node.Dir? {
      ReachedInExtend(excluded, node.entries, path);
    }
  }

  lemma {:induction false} ReachedInExtend(excluded: Path -> bool, entries: seq<Entry>, path: Path)
    ensures forall p :: p in ReachedIn(excluded, entries, path) ==>
      path < p && exists e :: e in entries && e.name == p[|path|]
    decreases entries, 0
  {
    if entries != [] {
      ReachedInExtend(excluded, entries[1..], path);
      if !IsDot(entries[0].name) {
        ReachedExtend(excluded, entries[0].node, path + [entries[0].name]);
      }
    }
  }

  predicate NoRepeats(paths: seq<Path>) {
    forall i, j :: 0 <= i < j < |paths| ==> paths[i] != paths[j]
  }

  lemma NoRepeatsConcat(a: seq<Path>, b: seq<Path>)
    requires NoRepeats(a) && NoRepeats(b) && forall p :: p in a ==> p !in b
    ensures NoRepeats(a + b)
  {
    forall i, j | 0 <= i < j < |a + b|
      ensures (a + b)[i] != (a + b)[j]
    {
      assert i < |a| <= j ==> a[i] in a && b[j - |a|] in b;
    }
  }

  /** In a tree without repeated names no path is met twice. */
  lemma {:induction false} ReachedOnce(excluded: Path -> bool, node: Node, path: Path)
    requires WellFormed(node)
    ensures NoRepeats(Reached(excluded, node, path))
    decreases node, 1
  {
    if !excluded(path) && node.Dir? {
      ReachedInOnce(excluded, node.entries, path);
      ReachedInExtend(excluded, node.entries, path);
      NoRepeatsConcat([path], ReachedIn(excluded, node.entries, path));
    }
  }

  lemma {:induction false} ReachedInOnce(excluded: Path -> bool, entries: seq<Entry>, path: Path)
    requires forall i, j :: 0 <= i < j < |entries| ==> entries[i].name != entries[j].name
    requires forall e :: e in entries ==> WellFormed(e.node)
    ensures NoRepeats(ReachedIn(excluded, entries, path))
    decreases entries, 0
  {
    if entries != [] {
      ReachedInOnce(excluded, entries[1..], path);
      if !IsDot(entries[0].name) {
        var first := Reached(excluded, entries[0].node, path + [entries[0].name]);
        var rest := ReachedIn(excluded, entries[1..], path);
        ReachedOnce(excluded, entries[0].node, path + [entries[0].name]);
        ReachedExtend(excluded, entries[0].node, path + [entries[0].name]);
        ReachedInExtend(excluded, entries[1..], path);
        forall p | p in first
          ensures p !in rest
        {
          assert p[|path|] == entries[0].name;
        }
        NoRepeatsConcat(first, rest);
      }
    }
  }

  // ----- the worklist -----

  function Child(entries: seq<Entry>, name: string): Option<Node> {
    if entries == [] then None
    else if entries[0].name == name then Some(entries[0].node)
    else Child(entries[1..], name)
  }

  /** What stat finds at a path below the root. */
  function Find(node: Node, path: Path): Option<Node>
    decreases |path|
  {
    if path == [] then Some(node)
    else if !node.Dir? then None
    else match Child(node.entries, path[0])
      case None => None
      case Some(child) => Find(child, path[1..])
  }

  /** A path that the walk is to reach: it is there, it leads over no dot entry, and through no excluded directory. */
  ghost predicate Reachable(excluded: Path -> bool, node: Node, path: Path, q: Path) {
    && Find(node, q).Some? && (forall n :: n in q ==> !IsDot(n))
    && forall k :: 0 <= k < |q| ==> !excluded(path + q[..k])
  }

  lemma ReachableStep(excluded: Path -> bool, entries: seq<Entry>, path: Path, q: Path, child: Node)
    requires q != [] && Child(entries, q[0]) == Some(child)
    ensures Reachable(excluded, Dir(entries), path, q) <==>
      !IsDot(q[0]) && !excluded(path) && Reachable(excluded, child, path + [q[0]], q[1..])
  {
    FirstAndRest(q);
    assert path + q[..0] == path;
    forall k | 0 <= k < |q| - 1
      ensures path + [q[0]] + q[1..][..k] == path + q[..k + 1]
    {
      assert q[..k + 1] == [q[0]] + q[1..][..k];
    }
    if forall k :: 0 <= k < |q| - 1 ==> !excluded(path + [q[0]] + q[1..][..k]) {
      forall k | 0 < k < |q|
        ensures !excluded(path + q[..k])
      {
        assert path + [q[0]] + q[1..][..k - 1] == path + q[..k - 1 + 1];
      }
    }
  }

  /** The reached paths are exactly those. */
  lemma {:induction false} ReachedIff(excluded: Path -> bool, node: Node, path: Path, q: Path)
    requires WellFormed(node)
    ensures path + q in Reached(excluded, node, path) <==> Reachable(excluded, node, path, q)
    decreases node, 1
  {
    if q == [] {
      assert path + q == path;
    } else if node.Dir? {
      assert path + q != path;
      ReachedInIff(excluded, node.entries, path, q);
      if Child(node.entries, q[0]).Some? {
        ReachableStep(excluded, node.entries, path, q, Child(node.entries, q[0]).value);
      }
    } else {
      assert path + q != path;
    }
  }

  lemma {:induction false} ReachedInIff(excluded: Path -> bool, entries: seq<Entry>, path: Path, q: Path)
    requires q != [] && forall i, j :: 0 <= i < j < |entries| ==> entries[i].name != entries[j].name
    requires forall e :: e in entries ==> WellFormed(e.node)
    ensures path + q in ReachedIn(excluded, entries, path) <==>
      && !IsDot(q[0]) && Child(entries, q[0]).Some?
      && Reachable(excluded, Child(entries, q[0]).value, path + [q[0]], q[1..])
    decreases entries, 0
  {
    hide Reachable;
    if entries != [] {
      var first := entries[0];
      ReachedInIff(excluded, entries[1..], path, q);
      ReachedExtend(excluded, first.node, path + [first.name]);
      ReachedInExtend(excluded, entries[1..], path);
      assert (path + q)[|path|] == q[0];
      if first.name == q[0] {
        assert path + q == path + [first.name] + q[1..];
        ReachedIff(excluded, first.node, path + [first.name], q[1..]);
        assert path + q !in ReachedIn(excluded, entries[1..], path);
      }
    }
  }

  lemma {:induction false} ChildIs(entries: seq<Entry>, k: nat)
    requires k < |entries| && forall i, j :: 0 <= i < j < |entries| ==> entries[i].name != entries[j].name
    ensures Child(entries, entries[k].name) == Some(entries[k].node)
  {
    if k > 0 {
      ChildIs(entries[1..], k - 1);
    }
  }

  lemma {:induction false} ChildIsEntry(entries: seq<Entry>, name: string)
    requires Child(entries, name).Some?
    ensures exists e :: e in entries && e.node == Child(entries, name).value
  {
    if entries[0].name != name {
      ChildIsEntry(entries[1..], name);
    } else {
      assert entries[0] in entries;
    }
  }

  lemma {:induction false} FindChild(root: Node, path: Path, entries: seq<Entry>, k: nat)
    requires WellFormed(root) && Find(root, path) == Some(Dir(entries)) && k < |entries|
    ensures Find(root, path + [entries[k].name]) == Some(entries[k].node)
    decreases |path|
  {
    if path == [] {
      ChildIs(entries, k);
      assert Find(entries[k].node, []) == Some(entries[k].node);
    } else {
      ChildIsEntry(root.entries, path[0]);
      FindChild(Child(root.entries, path[0]).value, path[1..], entries, k);
      assert (path + [entries[k].name])[1..] == path[1..] + [entries[k].name];
    }
  }

  /** The paths still to be met, given what the todo entries stand for. */
  function Pending(excluded: Path -> bool, todo: seq<Path>, nodes: seq<Node>): seq<Path>
    requires |todo| == |nodes|
  {
    if todo == [] then [] else Reached(excluded, nodes[0], todo[0]) + Pending(excluded, todo[1..], nodes[1..])
  }

  function PendingBytes(excluded: Path -> bool, todo: seq<Path>, nodes: seq<Node>): nat
    requires |todo| == |nodes|
  {
    if todo == [] then 0 else Bytes(excluded, nodes[0], todo[0]) + PendingBytes(excluded, todo[1..], nodes[1..])
  }

  lemma PendingFirst(excluded: Path -> bool, todo: seq<Path>, nodes: seq<Node>)
    requires |todo| == |nodes| > 0
    ensures Pending(excluded, todo, nodes)
      == Reached(excluded, nodes[0], todo[0]) + Pending(excluded, todo[1..], nodes[1..])
    ensures PendingBytes(excluded, todo, nodes)
      == Bytes(excluded, nodes[0], todo[0]) + PendingBytes(excluded, todo[1..], nodes[1..])
  {
  }

  lemma Associates(a: seq<Path>, b: seq<Path>, c: seq<Path>)
    ensures (a + b) + c == a + (b + c)
  {
  }

  lemma {:induction false} PendingConcat(excluded: Path -> bool, a: seq<Path>, m: seq<Node>, b: seq<Path>, n: seq<Node>)
    requires |a| == |m| && |b| == |n|
    ensures Pending(excluded, a + b, m + n) == Pending(excluded, a, m) + Pending(excluded, b, n)
    ensures PendingBytes(excluded, a + b, m + n) == PendingBytes(excluded, a, m) + PendingBytes(excluded, b, n)
  {
    if a == [] {
      assert a + b == b && m + n == n;
    } else {
      hide Reached, Bytes, Pending, PendingBytes;
      PendingConcat(excluded, a[1..], m[1..], b, n);
      PendingFirst(excluded, a, m);
      PendingFirst(excluded, a + b, m + n);
      RestOfConcat(a, b);
      RestOfConcat(m, n);
      Associates(Reached(excluded, m[0], a[0]), Pending(excluded, a[1..], m[1..]), Pending(excluded, b, n));
    }
  }

  lemma RestOfConcat<T>(a: seq<T>, b: seq<T>)
    requires a != []
    ensures (a + b)[1..] == a[1..] + b && (a + b)[0] == a[0]
  {
  }

  function ChildPaths(entries: seq<Entry>, path: Path): (r: seq<Path>)
    ensures |r| == |ChildNodes(entries)|
  {
    if entries == [] then []
    else (if IsDot(entries[0].name) then [] else [path + [entries[0].name]]) + ChildPaths(entries[1..], path)
  }

  function ChildNodes(entries: seq<Entry>): seq<Node> {
    if entries == [] then []
    else (if IsDot(entries[0].name) then [] else [entries[0].node]) + ChildNodes(entries[1..])
  }

  lemma PendingOne(excluded: Path -> bool, path: Path, node: Node)
    ensures Pending(excluded, [path], [node]) == Reached(excluded, node, path)
    ensures PendingBytes(excluded, [path], [node]) == Bytes(excluded, node, path)
  {
    assert [path][1..] == [] && [node][1..] == [];
    assert Pending(excluded, [], []) == [];
  }

  lemma {:induction false} PendingChildren(excluded: Path -> bool, entries: seq<Entry>, path: Path)
    ensures Pending(excluded, ChildPaths(entries, path), ChildNodes(entries)) == ReachedIn(excluded, entries, path)
    ensures PendingBytes(excluded, ChildPaths(entries, path), ChildNodes(entries)) == BytesIn(excluded, entries, path)
  {
    if entries != [] {
      PendingChildren(excluded, entries[1..], path);
      var paths, nodes := ChildPaths(entries[1..], path), ChildNodes(entries[1..]);
      if !IsDot(entries[0].name) {
        var p, n := path + [entries[0].name], entries[0].node;
        PendingOne(excluded, p, n);
        PendingConcat(excluded, [p], [n], paths, nodes);
        assert ChildPaths(entries, path) == [p] + paths && ChildNodes(entries) == [n] + nodes;
      } else {
        assert ChildPaths(entries, path) == paths && ChildNodes(entries) == nodes;
        assert [] + ReachedIn(excluded, entries[1..], path) == ReachedIn(excluded, entries[1..], path);
      }
    }
  }

  lemma {:induction false} ChildPathsLast(entries: seq<Entry>, path: Path, k: nat)
    requires k < |entries|
    ensures ChildPaths(entries[..k + 1], path) ==
      ChildPaths(entries[..k], path) + if IsDot(entries[k].name) then [] else [path + [entries[k].name]]
  {
    if k > 0 {
      ChildPathsLast(entries[1..], path, k - 1);
      assert entries[1..][..k - 1] == entries[..k][1..] && entries[1..][..k] == entries[..k + 1][1..];
    }
  }

  /** Each entry on the list is what stat will find there, and its directory has been handled. */
  ghost predicate Listed(root: Node, todo: seq<Path>, nodes: seq<Node>, visited: seq<Path>) {
    && |todo| == |nodes|
    && (forall k :: 0 <= k < |todo| ==> Find(root, todo[k]) == Some(nodes[k]))
    && (forall k :: 0 <= k < |todo| ==> todo[k] == [] || Parent(todo[k]) in visited)
  }

  function Parent(path: Path): Path
    requires path != []
  {
    path[..|path| - 1]
  }

  ghost predicate ParentsFirst(visited: seq<Path>) {
    forall i :: 0 <= i < |visited| && visited[i] != [] ==> Parent(visited[i]) in visited[..i]
  }

  lemma {:induction false} ChildrenListed(root: Node, path: Path, entries: seq<Entry>, from: nat, visited: seq<Path>)
    requires WellFormed(root) && Find(root, path) == Some(Dir(entries)) && from <= |entries| && path in visited
    ensures Listed(root, ChildPaths(entries[from..], path), ChildNodes(entries[from..]), visited)
    decreases |entries| - from
  {
    if from < |entries| {
      ChildrenListed(root, path, entries, from + 1, visited);
      FindChild(root, path, entries, from);
      assert entries[from..][1..] == entries[from + 1..] && Parent(path + [entries[from].name]) == path;
    }
  }

  // ----- the order of the walk -----

  function NextNodes(excluded: Path -> bool, path: Path, nodes: seq<Node>): seq<Node>
    requires nodes != []
  {
    nodes[1..] + if !excluded(path) && nodes[0].Dir? then ChildNodes(nodes[0].entries) else []
  }

  /** What handling an entry puts on the list. */
  function ToList(excluded: Path -> bool, path: Path, node: Node): seq<Path> {
    if !excluded(path) && node.Dir? then ChildPaths(node.entries, path) else []
  }

  function NextTodo(excluded: Path -> bool, todo: seq<Path>, node: Node): seq<Path>
    requires todo != []
  {
    todo[1..] + ToList(excluded, todo[0], node)
  }

  function FileBytes(excluded: Path -> bool, path: Path, node: Node): nat {
    if !excluded(path) && node.File? then node.size else 0
  }

  lemma MovesToTheEnd(path: Path, rest: seq<Path>, children: seq<Path>)
    ensures multiset([path] + children + rest) == multiset([path]) + multiset(rest + children)
    ensures |[path] + children + rest| == 1 + |rest + children|
  {
  }

  /** Handling the first entry moves it from what is pending to what has been visited, and nothing else. */
  lemma PendingMoves(excluded: Path -> bool, todo: seq<Path>, nodes: seq<Node>)
    requires |todo| == |nodes| > 0
    ensures var path, todo', nodes' := todo[0], NextTodo(excluded, todo, nodes[0]), NextNodes(excluded, todo[0], nodes);
      && |todo'| == |nodes'|
      && multiset(Pending(excluded, todo, nodes)) == multiset([path]) + multiset(Pending(excluded, todo', nodes'))
      && |Pending(excluded, todo, nodes)| == 1 + |Pending(excluded, todo', nodes')|
      && PendingBytes(excluded, todo, nodes)
           == FileBytes(excluded, path, nodes[0]) + PendingBytes(excluded, todo', nodes')
  {
    var path, rest, node, others := todo[0], todo[1..], nodes[0], nodes[1..];
    hide Pending, PendingBytes;
    PendingFirst(excluded, todo, nodes);
    if !excluded(path) && node.Dir? {
      var paths, kids := ChildPaths(node.entries, path), ChildNodes(node.entries);
      PendingChildren(excluded, node.entries, path);
      assert Reached(excluded, node, path) == [path] + ReachedIn(excluded, node.entries, path);
      assert Bytes(excluded, node, path) == BytesIn(excluded, node.entries, path);
      hide Reached, ReachedIn, Bytes, BytesIn, ChildPaths, ChildNodes;
      PendingConcat(excluded, rest, others, paths, kids);
      MovesToTheEnd(path, Pending(excluded, rest, others), ReachedIn(excluded, node.entries, path));
    } else {
      assert Reached(excluded, node, path) == [path];
      assert Bytes(excluded, node, path) == FileBytes(excluded, path, node);
      hide Reached, Bytes;
      assert rest + [] == rest && others + [] == others;
    }
  }

  /** The entries in the order of the list: first in, first out. */
  function Visits(excluded: Path -> bool, todo: seq<Path>, nodes: seq<Node>): (r: seq<Path>)
    requires |todo| == |nodes|
    ensures |r| == |Pending(excluded, todo, nodes)|
    decreases |Pending(excluded, todo, nodes)|
  {
    if todo == [] then []
    else
      PendingMoves(excluded, todo, nodes);
      [todo[0]] + Visits(excluded, NextTodo(excluded, todo, nodes[0]), NextNodes(excluded, todo[0], nodes))
  }

  /** The entry that the walk handles last. */
  function LastEntry(excluded: Path -> bool, root: Node): Path {
    var visits := Visits(excluded, [[]], [root]);
    assert |visits| > 0 by {
      PendingOne(excluded, [], root);
    }
    visits[|visits| - 1]
  }

  // ----- reports -----

  /** A report of progress: done + 1 bytes out of total + 1. */
  datatype Report = Report(done: nat, total: nat)

  /** What the walk meets at an entry: the callback's answer to the report before it, what the system calls answer and
      what copying its file does, and whether copying is still enabled when the loop comes back to its test. */
  datatype Fate = Fate(poll: int, stat: int, opendir: int, mkdir: int, closedir: int, copy: int, written: nat,
                       enabledAfter: bool)

  const ENOENT := 2
  const EEXIST := 17

  /** What copy_full_path returns for an entry that is there. */
  function EntryCode(excluded: Path -> bool, fate: Fate, path: Path, node: Node): int {
    if excluded(path) then 0
    else if fate.stat != 0 then fate.stat
    else match node
      case File(_) => fate.copy
      case Other(_) => 0
      case Dir(_) =>
        if fate.opendir != 0 then fate.opendir
        else if fate.mkdir != 0 && fate.mkdir != EEXIST then fate.mkdir
        else fate.closedir
  }

  predicate Copies(excluded: Path -> bool, fate: Fate, path: Path, node: Node) {
    !excluded(path) && fate.stat == 0 && node.File?
  }

  /** How many bytes of the entry are copied. */
  function CopiedBytes(excluded: Path -> bool, fate: Fate, path: Path, node: Node): nat {
    if Copies(excluded, fate, path, node) then fate.written else 0
  }

  /** The entry is handled to its end. */
  predicate Completes(excluded: Path -> bool, fate: Fate, path: Path, node: Node) {
    fate.poll == 0 && EntryCode(excluded, fate, path, node) == 0
  }

  /** The loop goes on behind it. */
  predicate GoesOn(excluded: Path -> bool, fate: Fate, path: Path, node: Node) {
    Completes(excluded, fate, path, node) && fate.enabledAfter
  }

  /** What the walk returns when it stops at this entry. */
  function StopCode(excluded: Path -> bool, fate: Fate, path: Path, node: Node): int {
    if fate.poll != 0 then fate.poll else EntryCode(excluded, fate, path, node)
  }

  /** What is answered about an entry, in the order in which it is asked; that the directory exists already is fine. */
  function Answers(excluded: Path -> bool, fate: Fate, path: Path, node: Node): seq<int> {
    [fate.poll] +
    if excluded(path) then []
    else
      [fate.stat] +
      match node
      case File(_) => [fate.copy]
      case Other(_) => []
      case Dir(_) => [fate.opendir, if fate.mkdir == EEXIST then 0 else fate.mkdir, fate.closedir]
  }

  function FirstError(answers: seq<int>): int {
    if answers == [] then 0 else if answers[0] != 0 then answers[0] else FirstError(answers[1..])
  }

  lemma FirstErrorOf(a: int, rest: seq<int>)
    ensures FirstError([a] + rest) == if a != 0 then a else FirstError(rest)
  {
    assert ([a] + rest)[1..] == rest;
  }

  /** The walk goes by the first answer that is an error. */
  lemma StopCodeIsFirstError(excluded: Path -> bool, fate: Fate, path: Path, node: Node)
    ensures StopCode(excluded, fate, path, node) == FirstError(Answers(excluded, fate, path, node))
  {
    if excluded(path) {
      FirstErrorOf(fate.poll, []);
    } else {
      var last := match node
        case File(_) => [fate.copy]
        case Other(_) => []
        case Dir(_) => [fate.opendir, if fate.mkdir == EEXIST then 0 else fate.mkdir, fate.closedir];
      FirstErrorOf(fate.poll, [fate.stat] + last);
      FirstErrorOf(fate.stat, last);
      match node
      case File(_) => FirstErrorOf(fate.copy, []);
      case Other(_) =>
      case Dir(_) =>
        var made := if fate.mkdir == EEXIST then 0 else fate.mkdir;
        assert last == [fate.opendir] + ([made] + ([fate.closedir] + []));
        FirstErrorOf(fate.opendir, [made] + ([fate.closedir] + []));
        FirstErrorOf(made, [fate.closedir] + []);
        FirstErrorOf(fate.closedir, []);
    }
  }

  lemma {:induction false} NoErrorIff(answers: seq<int>)
    ensures FirstError(answers) == 0 <==> forall a :: a in answers ==> a == 0
  {
    if answers != [] {
      FirstAndRest(answers);
      NoErrorIff(answers[1..]);
    }
  }

  predicate Increasing(polls: seq<nat>, written: nat) {
    forall i, j :: 0 <= i <= j < |polls| ==> polls[i] <= polls[j] <= written
  }

  /** How much of a file has been written at each report made while it is copied: one before the first write, none
      for an empty file, and in between whatever the kernel and the throttle decide. */
  predicate PollsOk(polls: seq<nat>, size: nat) {
    && (if size == 0 then polls == [] else polls != [] && polls[0] == 0)
    && Increasing(polls, size)
  }

  /** The tree does not change, so that what is there is found; and a file is copied completely unless an error says
      otherwise or copying has been disabled. */
  predicate LegalFate(excluded: Path -> bool, fate: Fate, polls: seq<nat>, path: Path, node: Node) {
    && fate.stat != ENOENT && fate.opendir != ENOENT
    && (node.File? ==>
          && fate.written <= node.size && Increasing(polls, fate.written)
          && (GoesOn(excluded, fate, path, node) ==> fate.written == node.size && PollsOk(polls, node.size)))
  }

  ghost predicate LegalFates(excluded: Path -> bool, fates: Path -> Fate, polls: Path -> seq<nat>, root: Node) {
    forall p :: Find(root, p).Some? ==> LegalFate(excluded, fates(p), polls(p), p, Find(root, p).value)
  }

  function FileReports(polls: seq<nat>, done: nat, total: nat): seq<Report> {
    seq(|polls|, k requires 0 <= k < |polls| => Report(done + polls[k], total))
  }

  /** What is reported about one entry. */
  function EntryReports(excluded: Path -> bool, fate: Fate, polls: seq<nat>, path: Path, node: Node, done: nat,
                        total: nat):
    seq<Report>
  {
    [Report(done, total)]
    + if fate.poll == 0 && Copies(excluded, fate, path, node) then FileReports(polls, done, total) else []
  }

  /** What the round of an entry copies. */
  function EntryBytes(excluded: Path -> bool, fate: Fate, path: Path, node: Node): nat {
    if fate.poll == 0 then CopiedBytes(excluded, fate, path, node) else 0
  }

  /** What is copied of an entry after the last report about it. */
  function Unreported(excluded: Path -> bool, polls: Path -> seq<nat>, path: Path, node: Node): (n: nat)
    requires node.File? ==> PollsOk(polls(path), node.size)
    ensures n <= FileBytes(excluded, path, node)
  {
    if !excluded(path) && node.File? && node.size > 0 then node.size - polls(path)[|polls(path)| - 1] else 0
  }

  // ----- a walk that may stop -----

  predicate CompletesAt(excluded: Path -> bool, fates: Path -> Fate, root: Node, path: Path) {
    Find(root, path).Some? && Completes(excluded, fates(path), path, Find(root, path).value)
  }

  predicate GoesOnAt(excluded: Path -> bool, fates: Path -> Fate, root: Node, path: Path) {
    Find(root, path).Some? && GoesOn(excluded, fates(path), path, Find(root, path).value)
  }

  function StopCodeAt(excluded: Path -> bool, fates: Path -> Fate, root: Node, path: Path): int {
    if Find(root, path).Some? then StopCode(excluded, fates(path), path, Find(root, path).value) else 0
  }

  function EntryBytesAt(excluded: Path -> bool, fates: Path -> Fate, root: Node, path: Path): nat {
    if Find(root, path).Some? then EntryBytes(excluded, fates(path), path, Find(root, path).value) else 0
  }

  function AnswersAt(excluded: Path -> bool, fates: Path -> Fate, root: Node, path: Path): seq<int> {
    if Find(root, path).Some? then Answers(excluded, fates(path), path, Find(root, path).value) else []
  }

  /** Nothing fails, and nobody stops the walk. */
  ghost predicate Undisturbed(excluded: Path -> bool, fates: Path -> Fate, root: Node) {
    forall p :: p in Visits(excluded, [[]], [root]) ==> GoesOnAt(excluded, fates, root, p)
  }

  /** In terms of the answers alone: the callback says 0 and copying stays enabled; and unless the entry is excluded,
      stat works, so does the copy of a file, and a directory can be opened and closed and is made or exists already. */
  predicate Well(excluded: Path -> bool, fate: Fate, path: Path, node: Node) {
    && fate.poll == 0 && fate.enabledAfter
    && (!excluded(path) ==>
          && fate.stat == 0
          && (node.File? ==> fate.copy == 0)
          && (node.Dir? ==> fate.opendir == 0 && (fate.mkdir == 0 || fate.mkdir == EEXIST) && fate.closedir == 0))
  }

  lemma WellIff(excluded: Path -> bool, fate: Fate, path: Path, node: Node)
    ensures Well(excluded, fate, path, node) <==> GoesOn(excluded, fate, path, node)
    ensures Well(excluded, fate, path, node) <==>
      fate.enabledAfter && forall a :: a in Answers(excluded, fate, path, node) ==> a == 0
  {
    StopCodeIsFirstError(excluded, fate, path, node);
    NoErrorIff(Answers(excluded, fate, path, node));
    hide Answers, FirstError;
  }

  /** All is well at every entry that the walk comes to. */
  ghost predicate AllWell(excluded: Path -> bool, fates: Path -> Fate, root: Node) {
    forall p :: p in Visits(excluded, [[]], [root]) ==>
      Find(root, p).Some? && Well(excluded, fates(p), p, Find(root, p).value)
  }

  lemma WellIsUndisturbed(excluded: Path -> bool, fates: Path -> Fate, root: Node)
    ensures AllWell(excluded, fates, root) <==> Undisturbed(excluded, fates, root)
  {
    hide Visits, Answers, EntryCode, Find, Well, GoesOn;
    forall p | p in Visits(excluded, [[]], [root]) && Find(root, p).Some?
      ensures GoesOnAt(excluded, fates, root, p) <==> Well(excluded, fates(p), p, Find(root, p).value)
    {
      WellIff(excluded, fates(p), p, Find(root, p).value);
    }
  }

  /** What a walk returns, in terms of the answers. */
  lemma HandlesByAnswers(excluded: Path -> bool, fates: Path -> Fate, root: Node, enabled: bool, visited: seq<Path>,
                         r: int)
    requires Handles(excluded, fates, root, enabled, visited, r)
    ensures var all := Visits(excluded, [[]], [root]);
      && visited <= all
      && (forall p :: p in visited ==> FirstError(AnswersAt(excluded, fates, root, p)) == 0)
      && (r != 0 ==> |visited| < |all| && r == FirstError(AnswersAt(excluded, fates, root, all[|visited|])))
  {
    hide Visits, Answers, EntryCode, Find;
    forall p | Find(root, p).Some?
      ensures FirstError(AnswersAt(excluded, fates, root, p)) == StopCodeAt(excluded, fates, root, p)
    {
      StopCodeIsFirstError(excluded, fates(p), p, Find(root, p).value);
    }
    forall p | p in visited
      ensures FirstError(AnswersAt(excluded, fates, root, p)) == 0
    {
      assert CompletesAt(excluded, fates, root, p);
    }
  }

  /** And when it ends without an error. */
  lemma HandlesWhileEnabled(excluded: Path -> bool, fates: Path -> Fate, root: Node, enabled: bool, visited: seq<Path>,
                            r: int)
    requires Handles(excluded, fates, root, enabled, visited, r)
    ensures visited != [] ==> enabled
    ensures forall k :: 0 <= k < |visited| - 1 ==> fates(visited[k]).enabledAfter
    ensures r == 0 <==>
      || visited == Visits(excluded, [[]], [root])
      || !(if visited == [] then enabled else fates(visited[|visited| - 1]).enabledAfter)
  {
    hide Visits, CompletesAt, StopCodeAt;
    var all := Visits(excluded, [[]], [root]);
    assert HandlesFirst(excluded, fates, root, enabled, all, visited);
    forall k | 0 <= k < |visited|
      ensures EnabledBefore(fates, enabled, all, k)
    {
      assert CompletesAt(excluded, fates, root, visited[k]);
    }
    assert visited != [] ==> EnabledBefore(fates, enabled, all, 0);
    assert |visited| == |all| ==> visited == all;
    assert visited != [] ==> all[|visited| - 1] == visited[|visited| - 1];
    forall k | 0 <= k < |visited| - 1
      ensures fates(visited[k]).enabledAfter
    {
      assert EnabledBefore(fates, enabled, all, k + 1);
    }
  }

  /** Whether copying is enabled when the walk comes to its k-th entry. */
  predicate EnabledBefore(fates: Path -> Fate, enabled: bool, all: seq<Path>, k: nat)
    requires k <= |all|
  {
    if k == 0 then enabled else fates(all[k - 1]).enabledAfter
  }

  /** The first entries of the walk are handled to their end, each with copying enabled. */
  ghost predicate HandlesFirst(excluded: Path -> bool, fates: Path -> Fate, root: Node, enabled: bool, all: seq<Path>,
                               visited: seq<Path>)
  {
    && visited <= all
    && forall k :: 0 <= k < |visited| ==>
         EnabledBefore(fates, enabled, all, k) && CompletesAt(excluded, fates, root, visited[k])
  }

  /** How a walk ends: all entries have been handled; or copying is disabled at the next one, which is not an error; or
      that one is answered or returns something else than 0. */
  ghost predicate Handles(excluded: Path -> bool, fates: Path -> Fate, root: Node, enabled: bool, visited: seq<Path>,
                          r: int)
  {
    var all := Visits(excluded, [[]], [root]);
    && HandlesFirst(excluded, fates, root, enabled, all, visited)
    && if |visited| == |all| || !EnabledBefore(fates, enabled, all, |visited|) then r == 0
       else r == StopCodeAt(excluded, fates, root, all[|visited|]) && r != 0
  }

  function SumCopied(excluded: Path -> bool, fates: Path -> Fate, root: Node, paths: seq<Path>): nat {
    if paths == [] then 0
    else
      SumCopied(excluded, fates, root, paths[..|paths| - 1])
      + EntryBytesAt(excluded, fates, root, paths[|paths| - 1])
  }

  /** The bytes of the entries that are handled, and of the one that is not handled to its end. */
  ghost function BytesUpTo(excluded: Path -> bool, fates: Path -> Fate, root: Node, enabled: bool,
                           visited: seq<Path>): nat
    requires visited <= Visits(excluded, [[]], [root])
  {
    var all := Visits(excluded, [[]], [root]);
    SumCopied(excluded, fates, root, visited)
    + if |visited| < |all| && EnabledBefore(fates, enabled, all, |visited|)
      then EntryBytesAt(excluded, fates, root, all[|visited|]) else 0
  }

  // ----- the copier -----

  class Copier {
    var excluded: Path -> bool        // what exclude_copy answers about the paths of this directory
    var polls: Path -> seq<nat>       // when progress is reported during the copy of a file
    var fates: Path -> Fate           // what else the walk meets
    var enabled: bool                 // whether copying is enabled; nobody enables it again during the walk
    var todo: seq<Path>
    var totalBytesToBackUp: nat
    var totalBytesBackedUp: nat
    var totalFilesBackedUp: nat
    var reports: seq<Report>

    constructor (excluded: Path -> bool, polls: Path -> seq<nat>, fates: Path -> Fate)
      ensures this.excluded == excluded && this.polls == polls && this.fates == fates
      ensures enabled && todo == [] && reports == []
      ensures totalBytesBackedUp == totalFilesBackedUp == 0
    {
      this.excluded, this.polls, this.fates, enabled := excluded, polls, fates, true;
      todo, totalBytesToBackUp, totalBytesBackedUp, totalFilesBackedUp, reports := [], 0, 0, 0, [];
    }

    method AddDirEntriesToTodo(entries: seq<Entry>, path: Path)
      modifies `todo
      ensures todo == old(todo) + ChildPaths(entries, path)
    {
      for i := 0 to |entries|
        invariant todo == old(todo) + ChildPaths(entries[..i], path)
      {
        ChildPathsLast(entries, path, i);
        if !IsDot(entries[i].name) {
          todo := todo + [path + [entries[i].name]];
        }
      }
      assert entries[..|entries|] == entries;
    }

    /** Handles one entry of the list.  What is not there, or is excluded, is skipped without an error. */
    method CopyFullPath(root: Node, path: Path) returns (r: int)
      modifies `todo, `totalBytesBackedUp, `reports
      ensures excluded(path) || Find(root, path).None? ==>
        r == 0 && todo == old(todo) && totalBytesBackedUp == old(totalBytesBackedUp) && reports == old(reports)
      ensures Find(root, path).Some? ==>
        var node, fate := Find(root, path).value, fates(path);
        && r == EntryCode(excluded, fate, path, node)
        && (fate.poll == 0 ==> r == FirstError(Answers(excluded, fate, path, node)))
        && (r == 0 ==> todo == old(todo) + ToList(excluded, path, node))
        && totalBytesBackedUp == old(totalBytesBackedUp) + CopiedBytes(excluded, fate, path, node)
        && totalBytesBackedUp == old(totalBytesBackedUp)
                                 + (if !excluded(path) && fate.stat == 0 && node.File? then fate.written else 0)
        && reports == old(reports) + if Copies(excluded, fate, path, node)
                                     then FileReports(polls(path), old(totalBytesBackedUp), totalBytesToBackUp) else []
    {
      if Find(root, path).Some? {
        StopCodeIsFirstError(excluded, fates(path), path, Find(root, path).value);
      }
      if excluded(path) || Find(root, path).None? {
        return 0;
      }
      var fate := fates(path);
      if fate.stat != 0 {
        return fate.stat;
      }
      match Find(root, path).value
      case File(_) =>
        reports := reports + FileReports(polls(path), totalBytesBackedUp, totalBytesToBackUp);
        totalBytesBackedUp := totalBytesBackedUp + fate.written;
        return fate.copy;
      case Dir(entries) =>
        if fate.opendir != 0 {
          return fate.opendir;
        }
        if fate.mkdir != 0 && fate.mkdir != EEXIST {
          return fate.mkdir;
        }
        AddDirEntriesToTodo(entries, path);
        return fate.closedir;
      case Other(_) =>
        return 0;
    }

    /** One round of the loop: report, pop the front of the list, and handle it.  A nonzero answer of the callback, or
        an error, is returned; otherwise the walk is one entry further. */
    method CopyNext(root: Node, ghost nodes: seq<Node>, ghost visited: seq<Path>, ghost full: int) returns (r: int)
      requires WellFormed(root) && todo != []
      requires Walking(excluded, root, todo, nodes, visited, full)
      modifies `todo, `totalBytesBackedUp, `totalFilesBackedUp, `reports
      ensures |nodes| == |old(todo)| && Find(root, old(todo)[0]) == Some(nodes[0])
      ensures
        var path, node := old(todo)[0], nodes[0];
        var fate, nodes' := fates(path), NextNodes(excluded, path, nodes);
        && r == StopCode(excluded, fate, path, node)
        && reports == old(reports)
             + EntryReports(excluded, fate, polls(path), path, node, old(totalBytesBackedUp), totalBytesToBackUp)
        && totalBytesBackedUp == old(totalBytesBackedUp) + EntryBytes(excluded, fate, path, node)
        && totalFilesBackedUp == old(totalFilesBackedUp) + (if r == 0 then 1 else 0)
        && (r == 0 ==> todo == NextTodo(excluded, old(todo), node) && |todo| == |nodes'|)
      ensures r == 0 ==>
        var path, nodes' := old(todo)[0], NextNodes(excluded, old(todo)[0], nodes);
        && |todo| == |nodes'| && |Pending(excluded, todo, nodes')| < |Pending(excluded, old(todo), nodes)|
        && Walking(excluded, root, todo, nodes', visited + [path], full + FileBytes(excluded, path, nodes[0]))
    {
      hide Walking, WellFormed, Pending, FileReports, EntryCode, CopiedBytes, Copies;
      WalkStep(excluded, root, todo, nodes, visited, full);
      var path := todo[0];
      reports := reports + [Report(totalBytesBackedUp, totalBytesToBackUp)];
      r := fates(path).poll;
      if r != 0 {
        return;
      }
      todo := todo[1..];
      r := CopyFullPath(root, path);
      ExcludedEntry(excluded, fates(path), path, nodes[0]);
      if r == 0 {
        assert todo == NextTodo(excluded, old(todo), nodes[0]);
        totalFilesBackedUp := totalFilesBackedUp + 1;
      }
    }

    /** The walk handles the entries in their order, up to the first at which it finds copying disabled, is told to stop
        or meets an error, and says which; it counts what it has copied, the beginning of a last file included, and its
        reports never decrease. */
    method DoCopy(root: Node) returns (r: int, ghost visited: seq<Path>)
      requires WellFormed(root) && root.Dir? && todo == [] && LegalFates(excluded, fates, polls, root)
      modifies this
      ensures excluded == old(excluded) && polls == old(polls) && fates == old(fates) && todo == []
      ensures enabled ==> old(enabled)
      ensures Handles(excluded, fates, root, old(enabled), visited, r)
      ensures NoRepeats(visited) && ParentsFirst(visited)
      ensures totalFilesBackedUp == old(totalFilesBackedUp) + |visited|
      ensures totalBytesBackedUp == old(totalBytesBackedUp) + BytesUpTo(excluded, fates, root, old(enabled), visited)
      ensures totalBytesToBackUp == DirSum(root)
      ensures ReportsOk(old(reports), reports, DirSum(root), old(totalBytesBackedUp), totalBytesBackedUp)
      ensures
        var all := Visits(excluded, [[]], [root]);
        && visited <= all
        && (forall p :: p in visited ==> FirstError(AnswersAt(excluded, fates, root, p)) == 0)
        && (r != 0 ==> |visited| < |all| && r == FirstError(AnswersAt(excluded, fates, root, all[|visited|])))
        && (visited != [] ==> old(enabled)) && (forall k :: 0 <= k < |visited| - 1 ==> fates(visited[k]).enabledAfter)
        && (r == 0 <==>
              visited == all || !(if visited == [] then old(enabled) else fates(visited[|visited| - 1]).enabledAfter))
      ensures old(enabled) && AllWell(excluded, fates, root) ==>
        && r == 0 && visited == Visits(excluded, [[]], [root])
        && totalBytesBackedUp == old(totalBytesBackedUp) + Bytes(excluded, root, [])
      ensures old(enabled) && Undisturbed(excluded, fates, root) ==>
        && enabled && r == 0 && visited == Visits(excluded, [[]], [root])
        && multiset(visited) == multiset(Reached(excluded, root, []))
        && totalBytesBackedUp == old(totalBytesBackedUp) + Bytes(excluded, root, [])
        && old(reports) < reports
        && reports[|reports| - 1].done == totalBytesBackedUp - UnreportedAtEnd(excluded, polls, root)
    {
      hide Walking, AtTest, ReportsOk, ParentsFirst, NoRepeats, Reached, Pending, Bytes, DirSum, WellFormed, Visits,
        EntryReports, LegalFates, UnreportedAtEnd, NextTodo, NextNodes, FileBytes, Find, Handles, BytesUpTo, EntryBytes,
        StopCode, Undisturbed, AllWell, AnswersAt, FirstError;
      totalBytesToBackUp := Dirsum(root);
      todo := todo + [[]];
      visited, r := [], 0;
      ghost var nodes, full := [root], 0;
      ghost var w := Walk(root, excluded, fates, polls, enabled, reports, totalBytesBackedUp);
      var nKnown := |todo|;
      assert todo == [[]];
      AtStart(w);
      while nKnown != 0
        modifies `todo, `totalBytesBackedUp, `totalFilesBackedUp, `reports, `enabled
        invariant nKnown == |todo| == |nodes| && (enabled ==> old(enabled))
        invariant r == 0 && AtTest(w, enabled, todo, nodes, visited, full, reports, totalBytesBackedUp)
        invariant totalFilesBackedUp == old(totalFilesBackedUp) + |visited|
        decreases |Pending(excluded, todo, nodes)|
      {
        if !enabled {
          EndsDisabled(w, todo, nodes, visited, full, reports, totalBytesBackedUp);
          break;
        }
        var path := todo[0];
        ghost var node, list, reported, done := nodes[0], todo, reports, totalBytesBackedUp;
        IsWalking(w, todo, nodes, visited, full, reports, totalBytesBackedUp);
        r := CopyNext(root, nodes, visited, full);
        if r != 0 {
          EndsHere(w, list, nodes, visited, full, reported, done, r);
          break;
        }
        enabled := fates(path).enabledAfter;
        NextTest(w, list, nodes, visited, full, reported, done);
        full := full + FileBytes(excluded, path, node);
        nodes := NextNodes(excluded, path, nodes);
        visited := visited + [path];
        nKnown := |todo|;
      }
      if nKnown == 0 {
        EndsWhole(w, enabled, todo, nodes, visited, full, reports, totalBytesBackedUp);
      }
      HandlesByAnswers(excluded, fates, root, old(enabled), visited, r);
      HandlesWhileEnabled(excluded, fates, root, old(enabled), visited, r);
      WellIsUndisturbed(excluded, fates, root);
      // cleanup
      todo := [];
    }

    /** backup_session::do_copy: the byte count goes on from directory to directory, the total to compare it with does
        not.  An error ends the loop; once copying is disabled nothing is copied any more, and that is no error. */
    method CopyDirectories(dirs: seq<Directory>) returns (r: int)
      requires todo == [] && forall d :: d in dirs ==> DirectoryOk(d)
      modifies this
      ensures todo == [] && old(reports) <= reports && totalBytesBackedUp >= old(totalBytesBackedUp)
      ensures !old(enabled) ==>
        r == 0 && totalBytesBackedUp == old(totalBytesBackedUp) && totalFilesBackedUp == old(totalFilesBackedUp)
      ensures old(enabled) && (forall d :: d in dirs ==> Undisturbed(d.excluded, d.fates, d.root)) ==>
        && r == 0 && totalBytesBackedUp == old(totalBytesBackedUp) + BytesOf(dirs)
        && (WithinTotals(reports[|old(reports)|..]) <==> ProgressOk(dirs, old(totalBytesBackedUp)))
    {
      hide DirectoryOk, WellFormed, DirSum, Bytes, NoRepeats, ParentsFirst, Reached, ReportsOk, BytesOf, WithinTotals,
        ProgressOk,
        Visits, UnreportedAtEnd, LegalFates, Undisturbed, Handles, BytesUpTo;
      ghost var before := reports;
      ghost var smooth := enabled && forall d :: d in dirs ==> Undisturbed(d.excluded, d.fates, d.root);
      NothingYet(dirs, totalBytesBackedUp);
      assert reports[|before|..] == [];
      r := 0;
      for i := 0 to |dirs|
        invariant todo == [] && before <= reports && r == 0 && totalBytesBackedUp >= old(totalBytesBackedUp)
        invariant !old(enabled) ==>
          && !enabled && totalBytesBackedUp == old(totalBytesBackedUp)
          && totalFilesBackedUp == old(totalFilesBackedUp)
        invariant smooth ==>
          && enabled && totalBytesBackedUp == old(totalBytesBackedUp) + BytesOf(dirs[..i])
          && (WithinTotals(reports[|before|..]) <==> ProgressOk(dirs[..i], old(totalBytesBackedUp)))
      {
        BytesOfLast(dirs, i);
        excluded, polls, fates := dirs[i].excluded, dirs[i].polls, dirs[i].fates;
        ghost var reported, start, was := reports, totalBytesBackedUp, enabled;
        IsOk(dirs[i]);
        ghost var visited;
        r, visited := DoCopy(dirs[i].root);
        ReportsPrefix(reported, reports, DirSum(dirs[i].root), start, totalBytesBackedUp);
        if !was {
          DisabledCopiesNothing(excluded, fates, dirs[i].root, visited, r);
        }
        if r != 0 {
          break;
        }
        if smooth {
          LastReportDecides(before, reported, reports, dirs, i, old(totalBytesBackedUp), totalBytesBackedUp);
        }
      }
      assert dirs[..|dirs|] == dirs;
    }
  }

  /** A source directory, what is excluded from it, when reports are made while its files are copied, and what else the
      walk meets. */
  datatype Directory = Directory(root: Node, excluded: Path -> bool, polls: Path -> seq<nat>, fates: Path -> Fate)

  ghost predicate DirectoryOk(d: Directory) {
    WellFormed(d.root) && d.root.Dir? && LegalFates(d.excluded, d.fates, d.polls, d.root)
  }

  lemma IsOk(d: Directory)
    requires DirectoryOk(d)
    ensures WellFormed(d.root) && d.root.Dir? && LegalFates(d.excluded, d.fates, d.polls, d.root)
  {
  }

  function BytesOf(dirs: seq<Directory>): nat {
    if dirs == [] then 0 else BytesOf(dirs[..|dirs| - 1]) + Bytes(dirs[|dirs| - 1].excluded, dirs[|dirs| - 1].root, [])
  }

  lemma BytesOfLast(dirs: seq<Directory>, i: nat)
    requires i < |dirs|
    ensures BytesOf(dirs[..i + 1]) == BytesOf(dirs[..i]) + Bytes(dirs[i].excluded, dirs[i].root, [])
  {
    assert dirs[..i + 1][..i] == dirs[..i];
  }

  predicate WithinTotals(reports: seq<Report>) {
    forall i :: 0 <= i < |reports| ==> reports[i].done <= reports[i].total
  }

  /** What has been copied before each directory is at most what the walk leaves out of the directory's sum, and what it
      copies after the last report. */
  ghost predicate ProgressOk(dirs: seq<Directory>, start: nat) {
    forall i :: 0 <= i < |dirs| ==> DirectoryProgressOk(dirs, i, start)
  }

  ghost predicate DirectoryProgressOk(dirs: seq<Directory>, i: nat, start: nat)
    requires i < |dirs|
  {
    var Directory(root, excluded, polls, _) := dirs[i];
    start + BytesOf(dirs[..i]) <= LeftOut(excluded, root, []) + UnreportedAtEnd(excluded, polls, root)
  }

  ghost function UnreportedAtEnd(excluded: Path -> bool, polls: Path -> seq<nat>, root: Node): nat {
    var last := LastEntry(excluded, root);
    var found := Find(root, last);
    if found.Some? && (found.value.File? ==> PollsOk(polls(last), found.value.size))
    then Unreported(excluded, polls, last, found.value) else 0
  }

  /** A single directory, copied first, never reports more than its total. */
  lemma OneDirectoryStaysWithin(d: Directory)
    ensures ProgressOk([d], 0)
  {
    assert [d][..0] == [];
  }

  /** With two directories, a large one before an empty one, some report exceeds its total. */
  lemma SecondDirectoryOverstates(size: nat, polls: Path -> seq<nat>, fates: Path -> Fate)
    requires size > 0
    ensures var none := (p: Path) => false;
      !ProgressOk([Directory(Dir([Entry("a", File(size))]), none, polls, fates),
                   Directory(Dir([]), none, polls, fates)], 0)
  {
    var none := (p: Path) => false;
    var entries := [Entry("a", File(size))];
    var dirs := [Directory(Dir(entries), none, polls, fates), Directory(Dir([]), none, polls, fates)];
    BytesOfLast(dirs, 0);
    assert entries[1..] == [] && !IsDot("a");
    assert BytesIn(none, entries, []) == Bytes(none, File(size), [] + ["a"]) + BytesIn(none, [], []);
    assert BytesOf(dirs[..1]) == size;
    LastOfEmpty(none);
    assert !DirectoryProgressOk(dirs, 1, 0);
  }

  lemma LastOfEmpty(excluded: Path -> bool)
    ensures LastEntry(excluded, Dir([])) == []
  {
    var root := Dir([]);
    PendingOne(excluded, [], root);
    var todo: seq<Path> := [[]];
    assert NextTodo(excluded, todo, root) == [] by {
      assert todo[1..] == [] && ChildPaths([], []) == [];
    }
    assert NextNodes(excluded, [], [root]) == [] by {
      assert [root][1..] == [] && ChildNodes([]) == [];
    }
    assert Visits(excluded, [], []) == [];
  }

  lemma NothingYet(dirs: seq<Directory>, start: nat)
    ensures BytesOf(dirs[..0]) == 0 && ProgressOk(dirs[..0], start) && WithinTotals([])
  {
  }

  lemma ProgressOkLast(dirs: seq<Directory>, i: nat, start: nat)
    requires i < |dirs|
    ensures ProgressOk(dirs[..i + 1], start) <==> ProgressOk(dirs[..i], start) && DirectoryProgressOk(dirs, i, start)
  {
    var now, was := dirs[..i + 1], dirs[..i];
    forall k | 0 <= k <= i
      ensures DirectoryProgressOk(now, k, start) == DirectoryProgressOk(dirs, k, start)
    {
      PrefixProgress(dirs, i + 1, k, start);
    }
    forall k | 0 <= k < i
      ensures DirectoryProgressOk(was, k, start) == DirectoryProgressOk(dirs, k, start)
    {
      PrefixProgress(dirs, i, k, start);
    }
    hide DirectoryProgressOk;
  }

  lemma PrefixProgress(dirs: seq<Directory>, n: nat, k: nat, start: nat)
    requires k < n <= |dirs|
    ensures DirectoryProgressOk(dirs[..n], k, start) == DirectoryProgressOk(dirs, k, start)
  {
    assert dirs[..n][..k] == dirs[..k];
  }

  /** The reports about a directory stay within its total exactly when the last one does. */
  lemma LastReportDecides(before: seq<Report>, reported: seq<Report>, reports: seq<Report>, dirs: seq<Directory>,
                          i: nat,
                          start: nat, now: nat)
    requires i < |dirs| && dirs[i].root.Dir? && before <= reported < reports
    requires var Directory(root, excluded, polls, _) := dirs[i]; var from := start + BytesOf(dirs[..i]);
      && ReportsOk(reported, reports, DirSum(root), from, now) && now == from + Bytes(excluded, root, [])
      && reports[|reports| - 1].done == now - UnreportedAtEnd(excluded, polls, root)
    requires WithinTotals(reported[|before|..]) <==> ProgressOk(dirs[..i], start)
    ensures WithinTotals(reports[|before|..]) <==> ProgressOk(dirs[..i + 1], start)
  {
    hide ReportsOk, WithinTotals, UnreportedAtEnd, BytesOf, Bytes, DirSum, ProgressOk, DirectoryProgressOk;
    LastIsLargest(reported, reports, DirSum(dirs[i].root), start + BytesOf(dirs[..i]), now);
    LastIsWithinIff(dirs, i, start);
    ProgressOkLast(dirs, i, start);
    WithinSplit(before, reported, reports);
  }

  lemma LastIsWithinIff(dirs: seq<Directory>, i: nat, start: nat)
    requires i < |dirs| && dirs[i].root.Dir?
    ensures var Directory(root, excluded, polls, _) := dirs[i];
      var now := start + BytesOf(dirs[..i]) + Bytes(excluded, root, []);
      now - UnreportedAtEnd(excluded, polls, root) <= DirSum(root) <==> DirectoryProgressOk(dirs, i, start)
  {
    BytesConserved(dirs[i].excluded, dirs[i].root, []);
    hide UnreportedAtEnd, BytesOf, Bytes, LeftOut, DirSum;
  }

  lemma LastIsLargest(reported: seq<Report>, reports: seq<Report>, total: nat, from: nat, now: nat)
    requires ReportsOk(reported, reports, total, from, now) && reported < reports
    ensures WithinTotals(reports[|reported|..]) <==> reports[|reports| - 1].done <= total
  {
    var news, last := reports[|reported|..], reports[|reports| - 1];
    assert forall k :: 0 <= k < |news| ==>
      news[k] == reports[|reported| + k] && news[k].done <= last.done && news[k].total == total;
    assert news[|news| - 1] == last;
  }

  lemma WithinSplit(before: seq<Report>, reported: seq<Report>, reports: seq<Report>)
    requires before <= reported <= reports
    ensures WithinTotals(reports[|before|..]) <==>
      WithinTotals(reported[|before|..]) && WithinTotals(reports[|reported|..])
  {
    var old', new', all := reported[|before|..], reports[|reported|..], reports[|before|..];
    assert all == old' + new';
    forall k | 0 <= k < |new'|
      ensures all[|old'| + k] == new'[k]
    {
    }
  }

  /** Halfway through: `bytes` have been copied, and the rest is what the list stands for. */
  ghost predicate Walking(excluded: Path -> bool, root: Node, todo: seq<Path>, nodes: seq<Node>, visited: seq<Path>,
                          bytes: int)
  {
    && Listed(root, todo, nodes, visited) && ParentsFirst(visited)
    && multiset(visited) + multiset(Pending(excluded, todo, nodes)) == multiset(Reached(excluded, root, []))
    && bytes + PendingBytes(excluded, todo, nodes) == Bytes(excluded, root, [])
  }

  lemma WalkStarts(excluded: Path -> bool, root: Node)
    ensures Walking(excluded, root, [[]], [root], [], 0)
  {
    PendingOne(excluded, [], root);
  }

  lemma WalkEnds(excluded: Path -> bool, root: Node, todo: seq<Path>, nodes: seq<Node>, visited: seq<Path>, bytes: int)
    requires Walking(excluded, root, todo, nodes, visited, bytes) && todo == [] && WellFormed(root)
    ensures multiset(visited) == multiset(Reached(excluded, root, [])) && NoRepeats(visited) && ParentsFirst(visited)
    ensures bytes == Bytes(excluded, root, []) && visited != []
  {
    var all := Reached(excluded, root, []);
    ReachedOnce(excluded, root, []);
    assert all != [];
    assert multiset(visited) == multiset(all) by {
      assert Pending(excluded, todo, nodes) == [];
    }
    hide Reached, WellFormed;
    NoRepeatsCounts(all);
    NoRepeatsCounts(visited);
    hide NoRepeats;
    assert |all| == |multiset(all)| == |multiset(visited)| == |visited|;
  }

  /** The reports made since `before`: never decreasing, and between what was copied at the start and by now. */
  ghost predicate ReportsOk(before: seq<Report>, reports: seq<Report>, total: nat, start: nat, now: nat) {
    && before <= reports && start <= now
    && (before < reports ==> reports[|before|] == Report(start, total))
    && (forall i :: |before| <= i < |reports| ==> reports[i].total == total && start <= reports[i].done <= now)
    && (forall i, j :: |before| <= i <= j < |reports| ==> reports[i].done <= reports[j].done)
  }

  lemma NoReports(before: seq<Report>, total: nat, start: nat)
    ensures ReportsOk(before, before, total, start, start)
  {
  }

  /** The last report tells what has been copied, but for what is still unreported of the entry. */
  ghost predicate UpTo(excluded: Path -> bool, polls: Path -> seq<nat>, root: Node, path: Path, reported: nat,
                       now: nat)
  {
    && Find(root, path).Some?
    && var node := Find(root, path).value;
       (node.File? ==> PollsOk(polls(path), node.size)) && reported == now - Unreported(excluded, polls, path, node)
  }

  lemma UpToNow(excluded: Path -> bool, polls: Path -> seq<nat>, root: Node, path: Path, node: Node, now: nat)
    requires Find(root, path) == Some(node) && (node.File? ==> PollsOk(polls(path), node.size))
    requires FileBytes(excluded, path, node) <= now
    ensures UpTo(excluded, polls, root, path, now - Unreported(excluded, polls, path, node), now)
  {
    hide PollsOk, Find, FileBytes, Unreported;
  }

  lemma UpToEnd(excluded: Path -> bool, polls: Path -> seq<nat>, root: Node, reported: nat, now: nat)
    ensures UpTo(excluded, polls, root, LastEntry(excluded, root), reported, now) ==>
      reported == now - UnreportedAtEnd(excluded, polls, root)
  {
    hide PollsOk, Find, FileBytes, Unreported, LastEntry;
  }

  lemma FateAt(excluded: Path -> bool, fates: Path -> Fate, polls: Path -> seq<nat>, root: Node, path: Path, node: Node)
    requires LegalFates(excluded, fates, polls, root) && Find(root, path) == Some(node)
    ensures LegalFate(excluded, fates(path), polls(path), path, node)
  {
  }

  lemma ReportsGrow(before: seq<Report>, reports: seq<Report>, total: nat, start: nat, now: nat,
                    excluded: Path -> bool, fate: Fate, polls: seq<nat>, path: Path, node: Node)
    requires ReportsOk(before, reports, total, start, now) && (reports == before ==> now == start)
    requires LegalFate(excluded, fate, polls, path, node)
    ensures var later, all := now + EntryBytes(excluded, fate, path, node),
                              reports + EntryReports(excluded, fate, polls, path, node, now, total);
      ReportsOk(before, all, total, start, later) && before < all
  {
    var news := EntryReports(excluded, fate, polls, path, node, now, total);
    var later, all := now + EntryBytes(excluded, fate, path, node), reports + news;
    assert news[0] == Report(now, total);
    assert forall k :: 0 < k < |news| ==> news[k] == Report(now + polls[k - 1], total);
    assert forall k :: 0 <= k < |news| ==>
      all[|reports| + k] == news[k] && now <= news[k].done <= later && news[k].total == total;
    forall i, j | |before| <= i <= j < |all|
      ensures all[i].done <= all[j].done
    {
      if i >= |reports| {
        assert all[i] == news[i - |reports|] && all[j] == news[j - |reports|];
      }
    }
  }

  /** Where the walk goes on, the last report about an entry tells how much of it is copied but not reported. */
  lemma LastOfEntry(reports: seq<Report>, total: nat, now: nat,
                    excluded: Path -> bool, fate: Fate, polls: Path -> seq<nat>, path: Path, node: Node)
    requires LegalFate(excluded, fate, polls(path), path, node) && GoesOn(excluded, fate, path, node)
    ensures EntryBytes(excluded, fate, path, node) == FileBytes(excluded, path, node)
    ensures node.File? ==> PollsOk(polls(path), node.size)
    ensures var all := reports + EntryReports(excluded, fate, polls(path), path, node, now, total);
      all[|all| - 1].done == now + FileBytes(excluded, path, node) - Unreported(excluded, polls, path, node)
  {
    var news := EntryReports(excluded, fate, polls(path), path, node, now, total);
    assert news[0] == Report(now, total);
    assert forall k :: 0 < k < |news| ==> news[k] == Report(now + polls(path)[k - 1], total);
  }

  lemma ExcludedEntry(excluded: Path -> bool, fate: Fate, path: Path, node: Node)
    ensures excluded(path) ==>
      && EntryCode(excluded, fate, path, node) == 0 && CopiedBytes(excluded, fate, path, node) == 0
      && !Copies(excluded, fate, path, node)
  {
  }

  lemma ReportsPrefix(before: seq<Report>, reports: seq<Report>, total: nat, start: nat, now: nat)
    requires ReportsOk(before, reports, total, start, now)
    ensures before <= reports && start <= now
  {
  }

  // ----- how a walk ends -----

  /** What does not change during a walk, and what is so when it starts. */
  datatype Walk = Walk(root: Node, excluded: Path -> bool, fates: Path -> Fate, polls: Path -> seq<nat>, enabled: bool,
                       reports: seq<Report>, start: nat)

  /** The walk is at the test of its loop, with `visited` behind it. */
  ghost predicate AtTest(w: Walk, enabled: bool, todo: seq<Path>, nodes: seq<Node>, visited: seq<Path>, full: int,
                         reports: seq<Report>, now: nat)
  {
    var all := Visits(w.excluded, [[]], [w.root]);
    && |todo| == |nodes| && Walking(w.excluded, w.root, todo, nodes, visited, full)
    && visited + Visits(w.excluded, todo, nodes) == all
    && HandlesFirst(w.excluded, w.fates, w.root, w.enabled, all, visited)
    && |visited| <= |all| && enabled == EnabledBefore(w.fates, w.enabled, all, |visited|)
    && now == w.start + SumCopied(w.excluded, w.fates, w.root, visited)
    && ReportsOk(w.reports, reports, DirSum(w.root), w.start, now)
    && (if visited == [] then reports == w.reports && now == w.start else w.reports < reports)
    && Smooth(w.excluded, w.fates, w.polls, w.root, visited, full, reports, w.start, now)
  }

  /** The walk has returned `r`. */
  ghost predicate Ended(w: Walk, enabled: bool, visited: seq<Path>, r: int, reports: seq<Report>, now: nat) {
    && Handles(w.excluded, w.fates, w.root, w.enabled, visited, r) && visited <= Visits(w.excluded, [[]], [w.root])
    && NoRepeats(visited) && ParentsFirst(visited)
    && now == w.start + BytesUpTo(w.excluded, w.fates, w.root, w.enabled, visited)
    && ReportsOk(w.reports, reports, DirSum(w.root), w.start, now)
    && (w.enabled && Undisturbed(w.excluded, w.fates, w.root) ==> EndedWhole(w, enabled, visited, r, reports, now))
  }

  ghost predicate EndedWhole(w: Walk, enabled: bool, visited: seq<Path>, r: int, reports: seq<Report>, now: nat) {
    && enabled && r == 0 && visited == Visits(w.excluded, [[]], [w.root])
    && multiset(visited) == multiset(Reached(w.excluded, w.root, []))
    && now == w.start + Bytes(w.excluded, w.root, [])
    && w.reports < reports && reports[|reports| - 1].done == now - UnreportedAtEnd(w.excluded, w.polls, w.root)
  }

  lemma AtStart(w: Walk)
    ensures AtTest(w, w.enabled, [[]], [w.root], [], 0, w.reports, w.start)
  {
    var all := Visits(w.excluded, [[]], [w.root]);
    assert [] + all == all;
    hide Visits, Walking, DirSum, ReportsOk, HandlesFirst, SumCopied, Smooth;
    WalkStarts(w.excluded, w.root);
    NothingHandled(w.excluded, w.fates, w.polls, w.root, w.enabled, all, w.reports, w.start);
    NoReports(w.reports, DirSum(w.root), w.start);
  }

  lemma IsWalking(w: Walk, todo: seq<Path>, nodes: seq<Node>, visited: seq<Path>, full: int, reports: seq<Report>,
                  now: nat)
    requires AtTest(w, true, todo, nodes, visited, full, reports, now)
    ensures Walking(w.excluded, w.root, todo, nodes, visited, full) && |todo| == |nodes|
  {
  }

  lemma EndsDisabled(w: Walk, todo: seq<Path>, nodes: seq<Node>, visited: seq<Path>, full: int, reports: seq<Report>,
                     now: nat)
    requires AtTest(w, false, todo, nodes, visited, full, reports, now) && todo != [] && WellFormed(w.root)
    ensures Ended(w, false, visited, 0, reports, now)
  {
    hide Visits, Walking, DirSum, ReportsOk, HandlesFirst, SumCopied, Smooth, NoRepeats, ParentsFirst, Handles,
      BytesUpTo,
      Undisturbed, EnabledBefore, EndedWhole, WellFormed;
    WalkedOnce(w.excluded, w.root, todo, nodes, visited, full);
    NextIsFirst(w.excluded, Visits(w.excluded, [[]], [w.root]), visited, todo, nodes);
    StopsDisabled(w.excluded, w.fates, w.root, w.enabled, visited, todo, nodes);
  }

  lemma EndsHere(w: Walk, todo: seq<Path>, nodes: seq<Node>, visited: seq<Path>, full: int, reports: seq<Report>,
                 now: nat, r: int)
    requires AtTest(w, true, todo, nodes, visited, full, reports, now) && todo != [] && WellFormed(w.root)
    requires LegalFates(w.excluded, w.fates, w.polls, w.root) && Find(w.root, todo[0]) == Some(nodes[0])
    requires r == StopCode(w.excluded, w.fates(todo[0]), todo[0], nodes[0]) && r != 0
    ensures var path, node := todo[0], nodes[0]; var fate := w.fates(path);
      Ended(w, true, visited, r,
            reports + EntryReports(w.excluded, fate, w.polls(path), path, node, now, DirSum(w.root)),
            now + EntryBytes(w.excluded, fate, path, node))
  {
    hide Visits, Walking, DirSum, ReportsOk, HandlesFirst, SumCopied, Smooth, NoRepeats, ParentsFirst, Handles,
      BytesUpTo,
      Undisturbed, EnabledBefore, EndedWhole, WellFormed, LegalFates, LegalFate, Find, EntryReports, EntryBytes,
      StopCode;
    var path, node := todo[0], nodes[0];
    FateAt(w.excluded, w.fates, w.polls, w.root, path, node);
    WalkedOnce(w.excluded, w.root, todo, nodes, visited, full);
    NextIsFirst(w.excluded, Visits(w.excluded, [[]], [w.root]), visited, todo, nodes);
    ReportsGrow(w.reports, reports, DirSum(w.root), w.start, now, w.excluded, w.fates(path), w.polls(path), path, node);
    StopsHere(w.excluded, w.fates, w.root, w.enabled, visited, todo, nodes, r);
  }

  lemma NextTest(w: Walk, todo: seq<Path>, nodes: seq<Node>, visited: seq<Path>, full: int, reports: seq<Report>,
                 now: nat)
    requires AtTest(w, true, todo, nodes, visited, full, reports, now) && todo != [] && WellFormed(w.root)
    requires LegalFates(w.excluded, w.fates, w.polls, w.root) && Find(w.root, todo[0]) == Some(nodes[0])
    requires StopCode(w.excluded, w.fates(todo[0]), todo[0], nodes[0]) == 0
    ensures var path, node := todo[0], nodes[0]; var fate := w.fates(path);
      AtTest(w, fate.enabledAfter, NextTodo(w.excluded, todo, node), NextNodes(w.excluded, path, nodes),
             visited + [path], full + FileBytes(w.excluded, path, node),
             reports + EntryReports(w.excluded, fate, w.polls(path), path, node, now, DirSum(w.root)),
             now + EntryBytes(w.excluded, fate, path, node))
  {
    hide Visits, Walking, DirSum, ReportsOk, HandlesFirst, SumCopied, Smooth, EnabledBefore, WellFormed, LegalFates,
      LegalFate, Find, EntryReports, EntryBytes, StopCode, NextTodo, NextNodes, FileBytes, Pending;
    var path, node, all := todo[0], nodes[0], Visits(w.excluded, [[]], [w.root]);
    FateAt(w.excluded, w.fates, w.polls, w.root, path, node);
    WalkStep(w.excluded, w.root, todo, nodes, visited, full);
    VisitsNext(w.excluded, todo, nodes, visited);
    ReportsGrow(w.reports, reports, DirSum(w.root), w.start, now, w.excluded, w.fates(path), w.polls(path), path, node);
    OneMoreHandled(w.excluded, w.fates, w.root, w.enabled, all, visited, todo, nodes);
    StaysSmooth(w.excluded, w.fates, w.polls, w.root, visited, path, node, full, reports, DirSum(w.root), w.start, now);
  }

  lemma EndsWhole(w: Walk, enabled: bool, todo: seq<Path>, nodes: seq<Node>, visited: seq<Path>, full: int,
                  reports: seq<Report>, now: nat)
    requires AtTest(w, enabled, todo, nodes, visited, full, reports, now) && todo == [] && WellFormed(w.root)
    ensures Ended(w, enabled, visited, 0, reports, now)
  {
    hide Visits, Walking, DirSum, ReportsOk, HandlesFirst, SumCopied, Smooth, NoRepeats, ParentsFirst, Handles,
      BytesUpTo,
      Undisturbed, EnabledBefore, WellFormed, UpTo, GoesOnAt, LastEntry, UnreportedAtEnd, Reached, Bytes;
    NoVisits(w.excluded, nodes, visited);
    WalkEnds(w.excluded, w.root, todo, nodes, visited, full);
    Finishes(w.excluded, w.fates, w.root, w.enabled, visited);
    LastIs(w.excluded, w.root);
    SmoothToTheEnd(w.excluded, w.fates, w.polls, w.root, visited, full, reports, w.start, now);
    UpToEnd(w.excluded, w.polls, w.root, reports[|reports| - 1].done, now);
  }

  /** As long as the walk goes on, it copies all there is, and its last report says so. */
  ghost predicate Smooth(excluded: Path -> bool, fates: Path -> Fate, polls: Path -> seq<nat>, root: Node,
                         visited: seq<Path>,
                         full: int, reports: seq<Report>, start: nat, now: nat)
  {
    (forall p :: p in visited ==> GoesOnAt(excluded, fates, root, p)) ==>
      && now == start + full
      && (visited != [] ==>
            && reports != []
            && UpTo(excluded, polls, root, visited[|visited| - 1], reports[|reports| - 1].done, now))
  }

  lemma StaysSmooth(excluded: Path -> bool, fates: Path -> Fate, polls: Path -> seq<nat>, root: Node,
                    visited: seq<Path>,
                    path: Path, node: Node, full: int, reported: seq<Report>, total: nat, start: nat, now: nat)
    requires Smooth(excluded, fates, polls, root, visited, full, reported, start, now)
    requires Find(root, path) == Some(node) && LegalFate(excluded, fates(path), polls(path), path, node)
    ensures Smooth(excluded, fates, polls, root, visited + [path], full + FileBytes(excluded, path, node),
                   reported + EntryReports(excluded, fates(path), polls(path), path, node, now, total), start,
                   now + EntryBytes(excluded, fates(path), path, node))
  {
    var later := visited + [path];
    if forall p :: p in later ==> GoesOnAt(excluded, fates, root, p) {
      assert path in later && forall p :: p in visited ==> p in later;
      assert GoesOn(excluded, fates(path), path, node);
      LastOfEntry(reported, total, now, excluded, fates(path), polls, path, node);
      hide GoesOnAt, LegalFate, GoesOn, EntryReports, EntryBytes, FileBytes, Unreported, PollsOk, Find;
      UpToNow(excluded, polls, root, path, node, now + FileBytes(excluded, path, node));
    }
  }

  lemma SmoothToTheEnd(excluded: Path -> bool, fates: Path -> Fate, polls: Path -> seq<nat>, root: Node,
                       visited: seq<Path>,
                       full: int, reports: seq<Report>, start: nat, now: nat)
    requires Smooth(excluded, fates, polls, root, visited, full, reports, start, now) && visited != []
    ensures (forall p :: p in visited ==> GoesOnAt(excluded, fates, root, p)) ==>
      && now == start + full && reports != []
      && UpTo(excluded, polls, root, visited[|visited| - 1], reports[|reports| - 1].done, now)
  {
  }

  lemma NothingHandled(excluded: Path -> bool, fates: Path -> Fate, polls: Path -> seq<nat>, root: Node, enabled: bool,
                       all: seq<Path>, reports: seq<Report>, start: nat)
    ensures HandlesFirst(excluded, fates, root, enabled, all, []) && EnabledBefore(fates, enabled, all, 0) == enabled
    ensures SumCopied(excluded, fates, root, []) == 0
    ensures Smooth(excluded, fates, polls, root, [], 0, reports, start, start)
  {
  }

  /** The next entry of the walk is the first on the list. */
  lemma NextIsFirst(excluded: Path -> bool, all: seq<Path>, visited: seq<Path>, todo: seq<Path>, nodes: seq<Node>)
    requires |todo| == |nodes| > 0 && visited + Visits(excluded, todo, nodes) == all
    ensures |visited| < |all| && all[|visited|] == todo[0] && visited + [todo[0]] <= all && visited <= all
  {
    var rest := Visits(excluded, todo, nodes);
    assert rest != [] && rest[0] == todo[0];
    assert all[|visited|] == rest[0];
    hide Visits;
    assert (visited + [todo[0]]) == all[..|visited| + 1];
  }

  lemma StopsDisabled(excluded: Path -> bool, fates: Path -> Fate, root: Node, enabled: bool, visited: seq<Path>,
                      todo: seq<Path>, nodes: seq<Node>)
    requires |todo| == |nodes| > 0 && visited + Visits(excluded, todo, nodes) == Visits(excluded, [[]], [root])
    requires var all := Visits(excluded, [[]], [root]);
      HandlesFirst(excluded, fates, root, enabled, all, visited) && !EnabledBefore(fates, enabled, all, |visited|)
    ensures Handles(excluded, fates, root, enabled, visited, 0) && !(enabled && Undisturbed(excluded, fates, root))
    ensures BytesUpTo(excluded, fates, root, enabled, visited) == SumCopied(excluded, fates, root, visited)
  {
    var all := Visits(excluded, [[]], [root]);
    NextIsFirst(excluded, all, visited, todo, nodes);
    if visited != [] {
      assert all[|visited| - 1] in all;
    }
    hide Visits, HandlesFirst, SumCopied, Find;
  }

  lemma StopsHere(excluded: Path -> bool, fates: Path -> Fate, root: Node, enabled: bool, visited: seq<Path>,
                  todo: seq<Path>, nodes: seq<Node>, r: int)
    requires |todo| == |nodes| > 0 && visited + Visits(excluded, todo, nodes) == Visits(excluded, [[]], [root])
    requires Find(root, todo[0]) == Some(nodes[0]) && r == StopCode(excluded, fates(todo[0]), todo[0], nodes[0])
    requires r != 0
    requires var all := Visits(excluded, [[]], [root]);
      HandlesFirst(excluded, fates, root, enabled, all, visited) && EnabledBefore(fates, enabled, all, |visited|)
    ensures Handles(excluded, fates, root, enabled, visited, r) && !Undisturbed(excluded, fates, root)
    ensures BytesUpTo(excluded, fates, root, enabled, visited)
      == SumCopied(excluded, fates, root, visited) + EntryBytes(excluded, fates(todo[0]), todo[0], nodes[0])
  {
    var all := Visits(excluded, [[]], [root]);
    NextIsFirst(excluded, all, visited, todo, nodes);
    assert todo[0] in all && !GoesOnAt(excluded, fates, root, todo[0]);
    hide Visits, HandlesFirst, SumCopied, Find;
  }

  lemma OneMoreSummed(excluded: Path -> bool, fates: Path -> Fate, root: Node, visited: seq<Path>, path: Path,
                      node: Node)
    requires Find(root, path) == Some(node)
    ensures SumCopied(excluded, fates, root, visited + [path])
      == SumCopied(excluded, fates, root, visited) + EntryBytes(excluded, fates(path), path, node)
  {
    var now := visited + [path];
    assert now[..|now| - 1] == visited && now[|now| - 1] == path;
    hide Find, EntryBytes;
  }

  lemma HandlesOneMore(excluded: Path -> bool, fates: Path -> Fate, root: Node, enabled: bool, all: seq<Path>,
                       visited: seq<Path>, path: Path)
    requires visited + [path] <= all && CompletesAt(excluded, fates, root, path)
    requires HandlesFirst(excluded, fates, root, enabled, all, visited) && EnabledBefore(fates, enabled, all, |visited|)
    ensures HandlesFirst(excluded, fates, root, enabled, all, visited + [path])
    ensures EnabledBefore(fates, enabled, all, |visited| + 1) == fates(path).enabledAfter
  {
    var now := visited + [path];
    assert all[|visited|] == now[|visited|];
    hide CompletesAt;
    forall k | 0 <= k < |now|
      ensures EnabledBefore(fates, enabled, all, k) && CompletesAt(excluded, fates, root, now[k])
    {
      if k < |visited| {
        assert now[k] == visited[k];
      }
    }
  }

  lemma OneMoreHandled(excluded: Path -> bool, fates: Path -> Fate, root: Node, enabled: bool, all: seq<Path>,
                       visited: seq<Path>, todo: seq<Path>, nodes: seq<Node>)
    requires |todo| == |nodes| > 0 && visited + Visits(excluded, todo, nodes) == all
    requires Find(root, todo[0]) == Some(nodes[0]) && StopCode(excluded, fates(todo[0]), todo[0], nodes[0]) == 0
    requires HandlesFirst(excluded, fates, root, enabled, all, visited) && EnabledBefore(fates, enabled, all, |visited|)
    ensures var now := visited + [todo[0]];
      && HandlesFirst(excluded, fates, root, enabled, all, now)
      && |now| <= |all| && EnabledBefore(fates, enabled, all, |now|) == fates(todo[0]).enabledAfter
      && SumCopied(excluded, fates, root, now)
           == SumCopied(excluded, fates, root, visited) + EntryBytes(excluded, fates(todo[0]), todo[0], nodes[0])
  {
    assert CompletesAt(excluded, fates, root, todo[0]);
    hide Visits, Find, EntryCode, CompletesAt, HandlesFirst, SumCopied, EntryBytes, EnabledBefore, StopCode;
    NextIsFirst(excluded, all, visited, todo, nodes);
    OneMoreSummed(excluded, fates, root, visited, todo[0], nodes[0]);
    HandlesOneMore(excluded, fates, root, enabled, all, visited, todo[0]);
  }

  lemma Finishes(excluded: Path -> bool, fates: Path -> Fate, root: Node, enabled: bool, visited: seq<Path>)
    requires visited == Visits(excluded, [[]], [root]) && visited != []
    requires HandlesFirst(excluded, fates, root, enabled, visited, visited)
    ensures Handles(excluded, fates, root, enabled, visited, 0)
    ensures BytesUpTo(excluded, fates, root, enabled, visited) == SumCopied(excluded, fates, root, visited)
    ensures Undisturbed(excluded, fates, root) ==>
      && EnabledBefore(fates, enabled, visited, |visited|)
      && forall p :: p in visited ==> GoesOnAt(excluded, fates, root, p)
  {
    assert visited[|visited| - 1] in visited;
    hide Visits, SumCopied, Find;
  }

  lemma DisabledCopiesNothing(excluded: Path -> bool, fates: Path -> Fate, root: Node, visited: seq<Path>, r: int)
    requires Handles(excluded, fates, root, false, visited, r)
    ensures visited == [] && r == 0 && BytesUpTo(excluded, fates, root, false, visited) == 0
  {
    hide Visits;
    assert !EnabledBefore(fates, false, Visits(excluded, [[]], [root]), 0);
  }

  lemma WalkedOnce(excluded: Path -> bool, root: Node, todo: seq<Path>, nodes: seq<Node>, visited: seq<Path>, full: int)
    requires Walking(excluded, root, todo, nodes, visited, full) && WellFormed(root)
    ensures NoRepeats(visited) && ParentsFirst(visited)
  {
    var all := Reached(excluded, root, []);
    ReachedOnce(excluded, root, []);
    assert multiset(visited) + multiset(Pending(excluded, todo, nodes)) == multiset(all);
    hide Reached, WellFormed, Pending;
    NoRepeatsCounts(all);
    NoRepeatsCounts(visited);
    hide NoRepeats;
    forall p
      ensures multiset(visited)[p] <= 1
    {
      assert multiset(all)[p] <= 1;
    }
  }

  lemma VisitsNext(excluded: Path -> bool, todo: seq<Path>, nodes: seq<Node>, visited: seq<Path>)
    requires |todo| == |nodes| > 0
    ensures |NextTodo(excluded, todo, nodes[0])| == |NextNodes(excluded, todo[0], nodes)|
    ensures visited + Visits(excluded, todo, nodes) ==
      visited + [todo[0]] + Visits(excluded, NextTodo(excluded, todo, nodes[0]), NextNodes(excluded, todo[0], nodes))
  {
    PendingMoves(excluded, todo, nodes);
    hide NextTodo, NextNodes, Pending, PendingBytes, FileBytes;
    var rest := Visits(excluded, NextTodo(excluded, todo, nodes[0]), NextNodes(excluded, todo[0], nodes));
    assert Visits(excluded, todo, nodes) == [todo[0]] + rest;
    hide Visits;
    Associates(visited, [todo[0]], rest);
  }

  lemma NoVisits(excluded: Path -> bool, nodes: seq<Node>, visited: seq<Path>)
    requires nodes == []
    ensures visited + Visits(excluded, [], nodes) == visited
  {
  }

  lemma LastIs(excluded: Path -> bool, root: Node)
    ensures var visits := Visits(excluded, [[]], [root]);
      visits != [] ==> LastEntry(excluded, root) == visits[|visits| - 1]
  {
  }

  lemma PoppedParents(path: Path, visited: seq<Path>)
    requires ParentsFirst(visited) && (path == [] || Parent(path) in visited)
    ensures ParentsFirst(visited + [path])
  {
    var all := visited + [path];
    forall i | 0 <= i < |all| && all[i] != []
      ensures Parent(all[i]) in all[..i]
    {
      if i < |visited| {
        assert all[..i] == visited[..i];
      } else {
        assert all[..i] == visited;
      }
    }
  }

  lemma StillListed(root: Node, todo: seq<Path>, nodes: seq<Node>, visited: seq<Path>, path: Path)
    requires Listed(root, todo, nodes, visited)
    ensures Listed(root, todo, nodes, visited + [path])
  {
    forall k | 0 <= k < |todo|
      ensures todo[k] == [] || Parent(todo[k]) in visited + [path]
    {
      assert todo[k] == [] || Parent(todo[k]) in visited;
    }
  }

  lemma PoppedListed(root: Node, todo: seq<Path>, nodes: seq<Node>, visited: seq<Path>)
    requires Listed(root, todo, nodes, visited) && todo != []
    ensures |nodes| == |todo| && Find(root, todo[0]) == Some(nodes[0]) && (todo[0] == [] || Parent(todo[0]) in visited)
    ensures Listed(root, todo[1..], nodes[1..], visited)
  {
  }

  lemma ListedConcat(root: Node, a: seq<Path>, m: seq<Node>, b: seq<Path>, n: seq<Node>, visited: seq<Path>)
    requires Listed(root, a, m, visited) && Listed(root, b, n, visited)
    ensures Listed(root, a + b, m + n, visited)
  {
  }

  lemma WalkLists(excluded: Path -> bool, root: Node, todo: seq<Path>, nodes: seq<Node>, visited: seq<Path>)
    requires WellFormed(root) && Listed(root, todo, nodes, visited) && ParentsFirst(visited) && todo != []
    ensures Listed(root, NextTodo(excluded, todo, nodes[0]), NextNodes(excluded, todo[0], nodes), visited + [todo[0]])
    ensures ParentsFirst(visited + [todo[0]])
  {
    PoppedListed(root, todo, nodes, visited);
    var path, rest, node, others := todo[0], todo[1..], nodes[0], nodes[1..];
    hide Listed, ParentsFirst, WellFormed;
    PoppedParents(path, visited);
    StillListed(root, rest, others, visited, path);
    if !excluded(path) && node.Dir? {
      assert node.entries[0..] == node.entries;
      ChildrenListed(root, path, node.entries, 0, visited + [path]);
      ListedConcat(root, rest, others, ChildPaths(node.entries, path), ChildNodes(node.entries), visited + [path]);
    } else {
      assert rest + [] == rest && others + [] == others;
    }
  }

  lemma WalkStep(excluded: Path -> bool, root: Node, todo: seq<Path>, nodes: seq<Node>, visited: seq<Path>, bytes: int)
    requires WellFormed(root) && Walking(excluded, root, todo, nodes, visited, bytes) && todo != []
    ensures |nodes| == |todo| && Find(root, todo[0]) == Some(nodes[0])
    ensures var todo', nodes' := NextTodo(excluded, todo, nodes[0]), NextNodes(excluded, todo[0], nodes);
      && Walking(excluded, root, todo', nodes', visited + [todo[0]], bytes + FileBytes(excluded, todo[0], nodes[0]))
      && |todo'| == |nodes'| && |Pending(excluded, todo', nodes')| < |Pending(excluded, todo, nodes)|
  {
    hide WellFormed, Listed, ParentsFirst, Pending, PendingBytes, NextTodo, NextNodes, FileBytes, Reached, Bytes,
      Find, Parent;
    PoppedListed(root, todo, nodes, visited);
    PendingMoves(excluded, todo, nodes);
    WalkLists(excluded, root, todo, nodes, visited);
    Regroup(visited, todo[0], Pending(excluded, todo, nodes),
            Pending(excluded, NextTodo(excluded, todo, nodes[0]), NextNodes(excluded, todo[0], nodes)));
  }

  lemma Regroup(visited: seq<Path>, path: Path, before: seq<Path>, after: seq<Path>)
    requires multiset(before) == multiset([path]) + multiset(after)
    ensures multiset(visited + [path]) + multiset(after) == multiset(visited) + multiset(before)
  {
  }

  lemma {:induction false} NoRepeatsCounts(paths: seq<Path>)
    ensures NoRepeats(paths) <==> forall p :: multiset(paths)[p] <= 1
  {
    if paths != [] {
      var first, rest := paths[0], paths[1..];
      NoRepeatsCounts(rest);
      assert paths == [first] + rest;
      if NoRepeats(paths) {
        assert first !in rest;
      } else if forall p :: multiset(paths)[p] <= 1 {
        assert multiset(paths)[first] <= 1;
        assert first !in multiset(rest);
        forall p
          ensures multiset(rest)[p] <= 1
        {
          assert multiset(paths)[p] <= 1;
        }
        NoRepeatsConcat([first], rest);
      }
    }
  }
}
