/** The table of locked ranges of one source file, and the threads that wait on it. */
module RangeLocks {
  import opened Basics
  import opened Ranges

  const EINVAL := 22

  ghost predicate PairwiseDisjoint(held: seq<Range>) {
    forall i, j :: 0 <= i < j < |held| ==> !Intersects(held[i], held[j])
  }

  ghost predicate WouldBlock(held: seq<Range>, r: Range) {
    exists i :: 0 <= i < |held| && Intersects(held[i], r)
  }

  /** The vector after `unlock_range` found `r`: the last entry takes the place of the first match. */
  function Unlocked(held: seq<Range>, r: Range): seq<Range>
    requires r in held
  {
    held[FirstIndex(held, r) := held[|held| - 1]][..|held| - 1]
  }

  function FirstIndex(held: seq<Range>, r: Range): (i: nat)
    requires r in held
    ensures i < |held| && held[i] == r && r !in held[..i]
  {
    if held[0] == r then 0 else 1 + FirstIndex(held[1..], r)
  }

  lemma {:induction false} FirstIndexIs(held: seq<Range>, r: Range, i: nat)
    requires i < |held| && held[i] == r && r !in held[..i]
    ensures FirstIndex(held, r) == i
  {
    if i > 0 {
      assert held[0] in held[..i];
      assert held[1..][..i - 1] == held[..i][1..];
      FirstIndexIs(held[1..], r, i - 1);
    }
  }

  /** Swapping with the last entry removes exactly one occurrence of the range and moves no other. */
  lemma UnlockedRemovesOne(held: seq<Range>, r: Range)
    requires r in held
    ensures multiset(Unlocked(held, r)) == multiset(held) - multiset{r}
  {
    var i, last := FirstIndex(held, r), |held| - 1;
    assert held == held[..last] + [held[last]];
    if i < last {
      assert Unlocked(held, r) == held[..last][i := held[last]];
      assert multiset(held[..last][i := held[last]]) == multiset(held[..last]) - multiset{r} + multiset{held[last]};
    } else {
      assert Unlocked(held, r) == held[..last];
    }
  }

  lemma UnlockedStaysDisjoint(held: seq<Range>, r: Range)
    requires r in held && PairwiseDisjoint(held)
    ensures PairwiseDisjoint(Unlocked(held, r))
  {
    var i, last := FirstIndex(held, r), |held| - 1;
    forall a, b | 0 <= a < b < last
      ensures !Intersects(Unlocked(held, r)[a], Unlocked(held, r)[b])
    {
      IntersectsMeansSharedByte(held[a], held[last]);
      IntersectsMeansSharedByte(held[last], held[b]);
      assert !Intersects(held[a], held[b]) && !Intersects(held[a], held[last]) && !Intersects(held[b], held[last]);
    }
  }

  /** `m_locked_ranges` of a source_file. */
  class LockedRanges {
    var ranges: seq<Range>

    ghost predicate Valid()
      reads this
    {
      PairwiseDisjoint(ranges)
    }

    constructor ()
      ensures Valid() && ranges == []
    {
      ranges := [];
    }

    method LockRangeWouldBlockUnlocked(r: Range) returns (blocked: bool)
      ensures blocked <==> WouldBlock(ranges, r)
    {
      var size := |ranges|;
      for i := 0 to size
        invariant forall k :: 0 <= k < i ==> !Intersects(ranges[k], r)
      {
        if Intersects(ranges[i], r) {
          return true;
        }
      }
      return false;
    }

    /** What `lock_range` does between two waits on the condition variable: test, and take the range when it is free. */
    method TryLockRange(r: Range) returns (locked: bool)
      requires Valid()
      modifies this
      ensures Valid()
      ensures locked <==> !old(WouldBlock(ranges, r))
      ensures ranges == if locked then old(ranges) + [r] else old(ranges)
    {
      var blocked := LockRangeWouldBlockUnlocked(r);
      if !blocked {
        ranges := ranges + [r];
      }
      return !blocked;
    }

    method UnlockRange(r: Range) returns (errnum: int)
      requires Valid()
      modifies this
      ensures Valid()
      ensures errnum == if r in old(ranges) then 0 else EINVAL
      ensures ranges == if r in old(ranges) then Unlocked(old(ranges), r) else old(ranges)
    {
      var size := |ranges|;
      for i := 0 to size
        invariant ranges == old(ranges) && r !in ranges[..i]
      {
        if ranges[i].lo == r.lo && ranges[i].hi == r.hi {
          FirstIndexIs(ranges, r, i);
          UnlockedStaysDisjoint(ranges, r);
          ranges := ranges[i := ranges[size - 1]];
          ranges := ranges[..size - 1];
          return 0;
        }
      }
      assert ranges[..size] == ranges;
      return EINVAL;
    }
  }

  // ----- threads, the mutex and the condition variable -----

  /** Every access to the table is inside the file's mutex, so what a thread does between taking and
      releasing it, or starting to wait, is one step.  A broadcast makes every sleeper test again. */
  datatype Thread = Testing(range: Range) | Asleep(range: Range) | Holding(range: Range)

  datatype State = State(held: seq<Range>, threads: map<nat, Thread>)

  datatype Step =
    | Arrive(t: nat, r: Range)
    | Test(t: nat)
    | SpuriousWake(t: nat)
    | Unlock(t: nat)

  predicate Enabled(s: State, step: Step) {
    match step
    case Arrive(t, _) => t !in s.threads
    case Test(t) => t in s.threads && s.threads[t].Testing?
    case SpuriousWake(t) => t in s.threads && s.threads[t].Asleep?
    case Unlock(t) => t in s.threads && s.threads[t].Holding?
  }

  function Broadcast(threads: map<nat, Thread>): map<nat, Thread> {
    map t | t in threads :: if threads[t].Asleep? then Testing(threads[t].range) else threads[t]
  }

  ghost function Do(s: State, step: Step): State
    requires Enabled(s, step)
  {
    match step
    case Arrive(t, r) => s.(threads := s.threads[t := Testing(r)])
    case Test(t) =>
      var r := s.threads[t].range;
      if WouldBlock(s.held, r) then s.(threads := s.threads[t := Asleep(r)])
      else State(s.held + [r], s.threads[t := Holding(r)])
    case SpuriousWake(t) => s.(threads := s.threads[t := Testing(s.threads[t].range)])
    case Unlock(t) =>
      var r := s.threads[t].range;
      // A range that is not in the table is reported and changes nothing, not even the sleepers.
      if r in s.held then State(Unlocked(s.held, r), Broadcast(s.threads - {t}))
      else s.(threads := s.threads - {t})
  }

  ghost function Holders(threads: map<nat, Thread>, r: Range): set<nat> {
    set t | t in threads && threads[t] == Holding(r)
  }

  ghost predicate Inv(s: State) {
    && PairwiseDisjoint(s.held)
    && (forall r :: multiset(s.held)[r] == |Holders(s.threads, r)|)
    && forall t :: t in s.threads && s.threads[t].Asleep? ==> WouldBlock(s.held, s.threads[t].range)
  }

  ghost predicate Reaches(s: State, steps: seq<Step>, t: State)
    decreases |steps|
  {
    if steps == [] then s == t
    else Enabled(s, steps[0]) && Reaches(Do(s, steps[0]), steps[1..], t)
  }

  lemma HolderIsInTable(s: State, t: nat)
    requires Inv(s) && t in s.threads && s.threads[t].Holding?
    ensures s.threads[t].range in s.held
  {
    var r := s.threads[t].range;
    assert t in Holders(s.threads, r);
    assert multiset(s.held)[r] == |Holders(s.threads, r)|;
  }

  lemma SameHoldersKeepInv(s: State, threads': map<nat, Thread>)
    requires Inv(s)
    requires forall t, r :: t in threads' && threads'[t] == Holding(r) <==> t in s.threads && s.threads[t] == Holding(r)
    requires forall t :: t in threads' && threads'[t].Asleep? ==> WouldBlock(s.held, threads'[t].range)
    ensures Inv(s.(threads := threads'))
  {
    forall r
      ensures multiset(s.held)[r] == |Holders(threads', r)|
    {
      assert Holders(threads', r) == Holders(s.threads, r);
    }
  }

  lemma TakeKeepsCounts(s: State, t: nat)
    requires Inv(s) && Enabled(s, Test(t)) && !WouldBlock(s.held, s.threads[t].range)
    ensures var s' := Do(s, Test(t)); forall q :: multiset(s'.held)[q] == |Holders(s'.threads, q)|
  {
    var r, s' := s.threads[t].range, Do(s, Test(t));
    forall q
      ensures multiset(s'.held)[q] == |Holders(s'.threads, q)|
    {
      assert multiset(s.held)[q] == |Holders(s.threads, q)|;
      assert Holders(s'.threads, q) == if q == r then Holders(s.threads, q) + {t} else Holders(s.threads, q);
    }
  }

  lemma LongerTableStillBlocks(held: seq<Range>, r: Range, q: Range)
    requires WouldBlock(held, q)
    ensures WouldBlock(held + [r], q)
  {
    var i :| 0 <= i < |held| && Intersects(held[i], q);
    assert (held + [r])[i] == held[i];
  }

  lemma TakeKeepsInv(s: State, t: nat)
    requires Inv(s) && Enabled(s, Test(t)) && !WouldBlock(s.held, s.threads[t].range)
    ensures Inv(Do(s, Test(t)))
  {
    TakeKeepsCounts(s, t);
    var r, s' := s.threads[t].range, Do(s, Test(t));
    assert PairwiseDisjoint(s'.held);
    forall u | u in s'.threads && s'.threads[u].Asleep?
      ensures WouldBlock(s'.held, s'.threads[u].range)
    {
      LongerTableStillBlocks(s.held, r, s.threads[u].range);
    }
  }

  lemma UnlockKeepsCounts(s: State, t: nat)
    requires Inv(s) && Enabled(s, Unlock(t))
    ensures s.threads[t].range in s.held
    ensures var s' := Do(s, Unlock(t)); forall q :: multiset(s'.held)[q] == |Holders(s'.threads, q)|
  {
    HolderIsInTable(s, t);
    var r, s' := s.threads[t].range, Do(s, Unlock(t));
    UnlockedRemovesOne(s.held, r);
    hide Unlocked, WouldBlock, PairwiseDisjoint;
    forall q
      ensures multiset(s'.held)[q] == |Holders(s'.threads, q)|
    {
      assert multiset(s.held)[q] == |Holders(s.threads, q)|;
      assert Holders(s'.threads, q) == if q == r then Holders(s.threads, q) - {t} else Holders(s.threads, q);
    }
  }

  lemma UnlockKeepsInv(s: State, t: nat)
    requires Inv(s) && Enabled(s, Unlock(t))
    ensures Inv(Do(s, Unlock(t)))
  {
    UnlockKeepsCounts(s, t);
    UnlockedStaysDisjoint(s.held, s.threads[t].range);
    hide Unlocked, WouldBlock, PairwiseDisjoint, Holders;
    var s' := Do(s, Unlock(t));
    assert forall u :: u in s'.threads ==> !s'.threads[u].Asleep?;
  }

  lemma StepKeepsInv(s: State, step: Step)
    requires Inv(s) && Enabled(s, step)
    ensures Inv(Do(s, step))
  {
    match step
    case Arrive(_, _) => SameHoldersKeepInv(s, Do(s, step).threads);
    case Test(t) =>
      if WouldBlock(s.held, s.threads[t].range) {
        SameHoldersKeepInv(s, Do(s, step).threads);
      } else {
        TakeKeepsInv(s, t);
      }
    case SpuriousWake(_) => SameHoldersKeepInv(s, Do(s, step).threads);
    case Unlock(t) => UnlockKeepsInv(s, t);
  }

  lemma {:induction false} RunKeepsInv(s: State, steps: seq<Step>, t: State)
    requires Inv(s) && Reaches(s, steps, t)
    ensures Inv(t)
    decreases |steps|
  {
    if steps != [] {
      StepKeepsInv(s, steps[0]);
      RunKeepsInv(Do(s, steps[0]), steps[1..], t);
    }
  }

  lemma EmptyTableInv()
    ensures Inv(State([], map[]))
  {
    forall r
      ensures multiset([])[r] == |Holders(map[], r)|
    {
      assert Holders(map[], r) == {};
    }
  }

  /** Mutual exclusion: from the empty table, held ranges never share a byte, whoever holds them. */
  lemma NoByteIsLockedTwice(steps: seq<Step>, s: State, t: nat, u: nat, x: nat)
    requires Reaches(State([], map[]), steps, s)
    requires t in s.threads && u in s.threads && t != u
    requires s.threads[t].Holding? && s.threads[u].Holding?
    ensures !(Covers(s.threads[t].range, x) && Covers(s.threads[u].range, x))
  {
    EmptyTableInv();
    RunKeepsInv(State([], map[]), steps, s);
    var a, b := s.threads[t].range, s.threads[u].range;
    HolderIsInTable(s, t);
    HolderIsInTable(s, u);
    if a == b {
      // Two holders of one range need two entries, which would intersect unless the range is empty.
      assert {t, u} <= Holders(s.threads, a);
      SubsetCardinality({t, u}, Holders(s.threads, a));
      assert multiset(s.held)[a] >= 2;
      var i, j := TwoOccurrences(s.held, a);
      IntersectsMeansSharedByte(s.held[i], s.held[j]);
    } else {
      var i :| 0 <= i < |s.held| && s.held[i] == a;
      var j :| 0 <= j < |s.held| && s.held[j] == b;
      IntersectsMeansSharedByte(a, b);
      IntersectsMeansSharedByte(b, a);
      assert !Intersects(s.held[if i < j then i else j], s.held[if i < j then j else i]);
    }
  }

  lemma SubsetCardinality(a: set<nat>, b: set<nat>)
    requires a <= b
    ensures |a| <= |b|
  {
    assert |b| == |a| + |b - a| by {
      assert b == a + (b - a);
    }
  }

  lemma TwoOccurrences(held: seq<Range>, r: Range) returns (i: nat, j: nat)
    requires multiset(held)[r] >= 2
    ensures i < j < |held| && held[i] == held[j] == r
  {
    i := FirstIndex(held, r);
    assert held == held[..i] + [r] + held[i + 1..];
    assert multiset(held[..i])[r] == 0;
    assert r in held[i + 1..];
    j := i + 1 + FirstIndex(held[i + 1..], r);
  }

  /** No wakeup is lost: a sleeper always waits for a thread that holds an intersecting range, so
      there is a holder left whose unlock will wake it. */
  lemma SleeperWaitsForAHolder(steps: seq<Step>, s: State, t: nat) returns (u: nat)
    requires Reaches(State([], map[]), steps, s)
    requires t in s.threads && s.threads[t].Asleep?
    ensures u in s.threads && s.threads[u].Holding? && Intersects(s.threads[u].range, s.threads[t].range)
  {
    EmptyTableInv();
    RunKeepsInv(State([], map[]), steps, s);
    u := HolderInTheWay(s, s.threads[t].range);
  }

  /** `unlock_range` never reports a missing range to a thread that locked it. */
  lemma UnlockAlwaysFindsItsRange(steps: seq<Step>, s: State, t: nat)
    requires Reaches(State([], map[]), steps, s)
    requires t in s.threads && s.threads[t].Holding?
    ensures s.threads[t].range in s.held
  {
    EmptyTableInv();
    RunKeepsInv(State([], map[]), steps, s);
    HolderIsInTable(s, t);
  }

  /** A thread gets the range it asked for, and no other: until its unlock it stays with that range. */
  lemma {:induction false} KeepsItsRange(s: State, steps: seq<Step>, u: State, t: nat)
    requires Reaches(s, steps, u) && t in s.threads && Unlock(t) !in steps
    ensures t in u.threads && u.threads[t].range == s.threads[t].range
    decreases |steps|
  {
    if steps != [] {
      FirstAndRest(steps);
      KeepsItsRange(Do(s, steps[0]), steps[1..], u, t);
    }
  }

  /** A thread that tests gets its range at once, exactly when no thread holds a range that meets it. */
  lemma TestGrantsIff(before: seq<Step>, s: State, t: nat)
    requires Reaches(State([], map[]), before, s) && t in s.threads && s.threads[t].Testing?
    ensures Enabled(s, Test(t))
    ensures Do(s, Test(t)).threads[t].Holding? <==>
      forall u :: u in s.threads && s.threads[u].Holding? ==> !Intersects(s.threads[u].range, s.threads[t].range)
  {
    EmptyTableInv();
    RunKeepsInv(State([], map[]), before, s);
    var r := s.threads[t].range;
    if WouldBlock(s.held, r) {
      var u := HolderInTheWay(s, r);
    } else {
      forall u | u in s.threads && s.threads[u].Holding?
        ensures !Intersects(s.threads[u].range, r)
      {
        HolderIsInTable(s, u);
      }
    }
  }

  lemma HolderInTheWay(s: State, r: Range) returns (u: nat)
    requires Inv(s) && WouldBlock(s.held, r)
    ensures u in s.threads && s.threads[u].Holding? && Intersects(s.threads[u].range, r)
  {
    var i :| 0 <= i < |s.held| && Intersects(s.held[i], r);
    var q := s.held[i];
    assert multiset(s.held)[q] == |Holders(s.threads, q)|;
    assert |Holders(s.threads, q)| > 0 by {
      assert q in s.held;
    }
    u :| u in Holders(s.threads, q);
  }

  /** With nothing locked, nobody sleeps. */
  lemma NobodySleeps(s: State, t: nat)
    requires Inv(s) && t in s.threads && !s.threads[t].Testing?
    ensures s.held != []
  {
    if s.threads[t].Holding? {
      HolderIsInTable(s, t);
    }
  }

  /** Everybody who has come can get the range and go: no waiter is stuck, as long as holders unlock. */
  lemma {:induction false} EveryoneGetsThrough(s: State) returns (steps: seq<Step>, u: State)
    requires Inv(s)
    ensures Reaches(s, steps, u) && u.threads == map[] && u.held == []
    ensures forall step :: step in steps ==> step.Test? || step.Unlock?
    ensures forall t :: t in s.threads ==> Unlock(t) in steps
    decreases |s.threads|
  {
    if s.threads == map[] {
      NobodyHolds(s);
      return [], s;
    }
    var t, first, s' := OneGoes(s);
    var rest;
    rest, u := EveryoneGetsThrough(s');
    steps := first + rest;
    RunsJoin(s, first, s', rest, u);
  }

  /** A holder goes; or, when there is none, somebody takes a range and goes. */
  lemma OneGoes(s: State) returns (t: nat, steps: seq<Step>, s': State)
    requires Inv(s) && s.threads != map[]
    ensures t in s.threads && Reaches(s, steps, s') && Inv(s') && s'.threads.Keys == s.threads.Keys - {t}
    ensures Unlock(t) in steps && forall step :: step in steps ==> step.Test? || step.Unlock?
  {
    if h :| h in s.threads && s.threads[h].Holding? {
      t, steps, s' := h, [Unlock(h)], Do(s, Unlock(h));
      StepKeepsInv(s, Unlock(h));
      assert steps[1..] == [];
    } else {
      NobodyHolds(s);
      t :| t in s.threads;
      if s.threads[t].Asleep? {
        NobodySleeps(s, t);
      }
      var s1 := Do(s, Test(t));
      StepKeepsInv(s, Test(t));
      StepKeepsInv(s1, Unlock(t));
      steps, s' := [Test(t), Unlock(t)], Do(s1, Unlock(t));
      assert steps[1..] == [Unlock(t)] && steps[1..][1..] == [];
      assert Reaches(s1, [Unlock(t)], s');
    }
  }

  lemma NobodyHolds(s: State)
    requires Inv(s) && forall h :: h in s.threads ==> !s.threads[h].Holding?
    ensures s.held == []
  {
    forall r
      ensures multiset(s.held)[r] == 0
    {
      assert Holders(s.threads, r) == {};
    }
    assert multiset(s.held) == multiset{};
    assert |s.held| == |multiset(s.held)|;
  }

  lemma {:induction false} RunsJoin(s: State, xs: seq<Step>, t: State, ys: seq<Step>, u: State)
    requires Reaches(s, xs, t) && Reaches(t, ys, u)
    ensures Reaches(s, xs + ys, u)
    decreases |xs|
  {
    if xs == [] {
      assert xs + ys == ys;
    } else {
      assert (xs + ys)[1..] == xs[1..] + ys;
      RunsJoin(Do(s, xs[0]), xs[1..], t, ys, u);
    }
  }

  /** From every state that a run comes to. */
  lemma NoWaiterIsStuck(before: seq<Step>, s: State) returns (steps: seq<Step>, u: State)
    requires Reaches(State([], map[]), before, s)
    ensures Reaches(s, steps, u) && u.threads == map[] && u.held == []
    ensures (forall step :: step in steps ==> step.Test? || step.Unlock?)
         && forall t :: t in s.threads ==> Unlock(t) in steps
  {
    EmptyTableInv();
    RunKeepsInv(State([], map[]), before, s);
    steps, u := EveryoneGetsThrough(s);
  }
}
