/** What becomes of destinations: who takes one away, and which are left when the session has ended. */
module SessionDisable {
  import opened Basics
  import opened Session
  import opened SessionSafety
  import opened SessionBackup
  import opened SessionTheorems
  import opened SessionPrepare

  /** The object has lost its destination if nobody else held it, and is otherwise as it was; so are all the others. */
  predicate Detached(s: State, s': State, sid: Sid) {
    && sid in s.srcs && sid in s'.srcs && s'.srcs.Keys == s.srcs.Keys
    && (s.srcs[sid].count <= 1 ==> !s'.srcs[sid].dest)
    && (s.srcs[sid].count > 1 ==> s'.srcs[sid].dest == s.srcs[sid].dest)
    && s'.srcs[sid].count == s.srcs[sid].count
    && forall x :: x in s.srcs && x != sid ==> s'.srcs[x] == s.srcs[x]
  }

  lemma RemoveDetaches(s: State, sid: Sid)
    requires sid in s.srcs
    ensures Detached(s, TryRemoveDest(s, sid), sid)
  {
  }

  /** Disabling a description detaches its object. */
  lemma DisableDetaches(s: State)
    requires Enabled(s, Backup(DisableOne)) && s.cp.next in s.fmap
    ensures Detached(s, Do(s, Backup(DisableOne)), s.fmap[s.cp.next])
  {
    RemoveDetaches(s, s.fmap[s.cp.next]);
    hide TryRemoveDest, PastEnd;
  }

  /** So does close(), in a session; outside it leaves all objects alone. */
  lemma CloseDetaches(s: State, t: Tid)
    requires Enabled(s, App(t, CloseDetach))
    ensures s.session ==> Detached(s, Do(s, App(t, CloseDetach)), s.threads[t].sid)
    ensures !s.session ==> Do(s, App(t, CloseDetach)).srcs == s.srcs
  {
    RemoveDetaches(s, s.threads[t].sid);
    hide TryRemoveDest, TableFree;
  }

  /** And the copier, when it is done with a file. */
  lemma CopierDetaches(s: State)
    requires Enabled(s, Backup(CopyDetach))
    ensures Detached(s, Do(s, Backup(CopyDetach)), s.cp.sid)
  {
    RemoveDetaches(s, s.cp.sid);
    hide TryRemoveDest, TableFree;
  }

  // ----- the end of a session -----

  /** The step changes a count. */
  predicate Recounts(step: Step) {
    step.App? && (step.a.GetSource? || step.a.UnlinkGet? || step.a.Drop?)
  }

  ghost predicate PassedWith(s: State, next: Fd, sid: Sid) {
    exists fd: Fd :: fd in s.fmap && fd < next && s.fmap[fd] == sid
  }

  /** Halfway through, for one object: it has its destination still, unless the loop has passed a description of it and
      nobody else held it. */
  ghost predicate LeftWith(s0: State, s: State, sid: Sid)
    requires s.cp.Disabling? && sid in s0.srcs && sid in s.srcs
  {
    && s.srcs[sid].count == s0.srcs[sid].count
    && (s.srcs[sid].dest <==> s0.srcs[sid].dest && !(s0.srcs[sid].count <= 1 && PassedWith(s0, s.cp.next, sid)))
  }

  ghost predicate Disabled(s0: State, s: State) {
    s.cp.Disabling? ==>
      && s.fmap == s0.fmap && s.srcs.Keys == s0.srcs.Keys
      && forall sid :: sid in s.srcs ==> LeftWith(s0, s, sid)
  }

  predicate SameObjectsAndMap(s: State, s': State) {
    s'.srcs == s.srcs && s'.fmap == s.fmap
  }

  lemma OpenKeepsObjects(s: State, t: Tid, fd: Fd, p: Path, flag: bool)
    ensures SameObjectsAndMap(s, DoRealOpen(s, t, fd, p, flag)) && SameObjectsAndMap(s, DoRealUnlink(s, t, p, flag))
  {
  }

  lemma RealpathKeepsObjects(s: State, t: Tid, fd: Fd, p: Path)
    ensures SameObjectsAndMap(s, DoRealpath(s, t, fd, p))
  {
    assert SameObjectsAndMap(s, Goto(s, t, Resolved(fd, p)));
    assert SameObjectsAndMap(s, Finish(s.(captureOn := false), t));
  }

  /** While descriptions are disabled, no thread touches a description or a destination. */
  lemma AppWhileDisabling(s: State, t: Tid, a: AppStep)
    requires AppEnabled(s, t, a) && s.cp.Disabling? && NoReaders(s) && !Recounts(App(t, a))
    ensures SameObjectsAndMap(s, DoApp(s, t, a))
  {
    hide Settled, TableFree, CanGet, DoRealOpen, DoRealpath, DoRealUnlink, DoPut, DoEnterOpen, DoCreateOnOpen,
      DoStartClose, DoCloseDetach, DoErase, DoCaptureUnlink;
    match a
    case RealOpen(fd, p, creat) => OpenKeepsObjects(s, t, fd, p, creat);
    case Realpath => RealpathKeepsObjects(s, t, s.threads[t].fd, s.threads[t].path);
    case RealClose =>
    case StartUnlink(p) =>
    case RealUnlink(ok) => OpenKeepsObjects(s, t, 0, s.threads[t].path, ok);
    case _ => assert false;
  }

  lemma OneMorePassed(s0: State, next: Fd, sid: Sid)
    ensures PassedWith(s0, next + 1, sid) <==> PassedWith(s0, next, sid) || (next in s0.fmap && s0.fmap[next] == sid)
  {
  }

  lemma DisableOneKeeps(s0: State, s: State)
    requires Disabled(s0, s) && Enabled(s, Backup(DisableOne))
    ensures Disabled(s0, Do(s, Backup(DisableOne)))
  {
    var s', next := Do(s, Backup(DisableOne)), s.cp.next;
    assert s'.cp == Disabling(next + 1) && s'.fmap == s.fmap;
    if next in s.fmap {
      DisableDetaches(s);
    }
    hide Enabled, Do, PassedWith;
    forall sid | sid in s'.srcs
      ensures LeftWith(s0, s', sid)
    {
      OneMorePassed(s0, next, sid);
      assert LeftWith(s0, s, sid);
    }
  }

  lemma StepDisables(s0: State, s: State, step: Step)
    requires Inv(s) && Disabled(s0, s) && s.cp.Disabling? && Enabled(s, step) && !Recounts(step)
    ensures Disabled(s0, Do(s, step))
  {
    match step
    case App(t, a) =>
      assert ThreadsOk(s);
      WriterExcludesReaders(s);
      AppWhileDisabling(s, t, a);
      AppSteady(s, t, a, "");
      hide Inv, AppEnabled, DoApp, PassedWith;
    case Backup(b) =>
      if b.DisableOne? {
        hide Inv, Disabled;
        DisableOneKeeps(s0, s);
      }
  }

  lemma StepsBackFromDone(s: State, step: Step)
    requires Enabled(s, step) && !s.cp.Disabling? && s.cp.Done?
    ensures Do(s, step).cp.Done?
  {
    match step
    case App(t, a) =>
      AppSteady(s, t, a, "");
      hide AppEnabled, DoApp;
    case Backup(b) =>
  }

  lemma {:induction false} DoneForever(s: State, steps: seq<Step>, t: State)
    requires s.cp.Done? && Reaches(s, steps, t)
    ensures t.cp.Done?
    decreases |steps|
  {
    if steps != [] {
      StepsBackFromDone(s, steps[0]);
      hide Enabled, Do;
      DoneForever(Do(s, steps[0]), steps[1..], t);
    }
  }

  lemma AfterDisabling(s: State, step: Step)
    requires Enabled(s, step) && s.cp.Disabling?
    ensures Do(s, step).cp.Disabling? || Do(s, step).cp.Done?
  {
    match step
    case App(t, a) =>
      AppSteady(s, t, a, "");
      hide AppEnabled, DoApp;
    case Backup(b) =>
      hide PastEnd, TryRemoveDest;
  }

  lemma {:induction false} RunDisables(s0: State, s: State, steps: seq<Step>, t: State)
    requires Inv(s) && Disabled(s0, s) && s.cp.Disabling? && Reaches(s, steps, t) && t.cp.Disabling?
    requires forall step :: step in steps ==> !Recounts(step)
    ensures Disabled(s0, t)
    decreases |steps|
  {
    hide Inv, Disabled, Enabled, Do, Recounts;
    if steps != [] {
      FirstAndRest(steps);
      StepKeepsInv(s, steps[0]);
      StepDisables(s0, s, steps[0]);
      AfterDisabling(s, steps[0]);
      if Do(s, steps[0]).cp.Done? {
        DoneForever(Do(s, steps[0]), steps[1..], t);
      } else {
        RunDisables(s0, Do(s, steps[0]), steps[1..], t);
      }
    }
  }

  /** When the session ends, and no call has taken or dropped a reference while the descriptions were disabled: an
      object has a destination exactly when it had one and is not held by a single description alone.  So a file that is
      open once is let go; one with two descriptions, or a call in flight, keeps its destination. */
  lemma DestinationsAtTheEnd(s: State, steps: seq<Step>, u: State, sid: Sid)
    requires Reachable(s) && s.cp == Disabling(0) && Reaches(s, steps, u)
    requires (forall step :: step in steps ==> !Recounts(step)) && Enabled(u, Backup(DisableEnd))
    ensures var t := Do(u, Backup(DisableEnd));
      && t.cp.Done? && (sid in t.srcs <==> sid in s.srcs)
      && (sid in t.srcs ==> t.srcs[sid].count == s.srcs[sid].count)
      && (sid in t.srcs ==> (t.srcs[sid].dest <==>
            s.srcs[sid].dest && !(s.srcs[sid].count <= 1 && exists fd: Fd :: MappedTo(s, fd, sid))))
  {
    ReachableInv(s);
    assert Disabled(s, s);
    hide Inv, Reachable;
    assert u.cp.Disabling? && PastEnd(u, u.cp.next);
    hide Disabled, Recounts;
    RunDisables(s, s, steps, u);
    AllPassed(s, u, sid);
  }

  lemma AllPassed(s: State, u: State, sid: Sid)
    requires Disabled(s, u) && u.cp.Disabling? && PastEnd(u, u.cp.next)
    ensures sid in u.srcs <==> sid in s.srcs
    ensures sid in u.srcs ==>
      && u.srcs[sid].count == s.srcs[sid].count
      && (u.srcs[sid].dest <==>
            s.srcs[sid].dest && !(s.srcs[sid].count <= 1 && exists fd: Fd :: MappedTo(s, fd, sid)))
  {
    if sid in u.srcs {
      assert LeftWith(s, u, sid);
      assert (exists fd: Fd :: MappedTo(s, fd, sid)) <==> PassedWith(s, u.cp.next, sid) by {
        if exists fd: Fd :: MappedTo(s, fd, sid) {
          var fd: Fd :| MappedTo(s, fd, sid);
          assert fd in u.fmap && fd in s.fmap && fd < u.cp.next && s.fmap[fd] == sid;
        }
        if PassedWith(s, u.cp.next, sid) {
          var fd: Fd :| fd in s.fmap && fd < u.cp.next && s.fmap[fd] == sid;
          assert MappedTo(s, fd, sid);
        }
      }
    }
  }
}
