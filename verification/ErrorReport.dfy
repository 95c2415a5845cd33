/** How a mirror call that fails on an application thread reaches the caller of `do_backup`: the error flag,
    and the session lock that makes the closing thread wait for every call that is still in its section.

    Any number of threads may call `do_backup`.  Each resets the flag before it tries the mutex that lets
    only one of them work. */
module ErrorReport {
  import opened Basics

  /** An errno value, or -1. */
  type Errnum = e: int | e != 0 witness 1

  const EBUSY: Errnum := 16

  /** An application thread inside a section, where it holds the session read lock and m_session is not NULL. */
  datatype App =
    | Mirroring
    | Failing(error: Errnum)           // the mirror call failed; set_error_internal comes next
    | Leaving

  /** A call of do_backup.  `failed` is history: a mirror call failed during its session. */
  datatype Caller =
    | Started                          // the flag has been reset
    | Owner                            // the mutex is held
    | Open                             // the session is open
    | Closed(r: int, failed: bool)
    | Unlocked(r: int, failed: bool)
    | Returned(r: int)

  datatype State = State(
    flag: Option<Errnum>,              // m_an_error_happened, and m_errnum when it is set
    owner: Option<nat>,
    session: bool,
    copyOn: bool,                      // the copier goes on as long as copying is enabled
    apps: map<nat, App>,
    callers: map<nat, Caller>,
    failed: bool,                      // history: a mirror call failed since the session was opened
    recorded: seq<Errnum>)             // history: what set_error_internal was given since the last reset

  datatype Step =
    | CallBackup(c: nat)
    | PollFails(c: nat, e: Errnum)
    | TryLock(c: nat)
    | ValidateFails(c: nat, e: Errnum)
    | OpenSession(c: nat)
    | CloseSession(c: nat, r: int)     // `r` is what prepare or the copy returned
    | Unlock(c: nat)
    | Check(c: nat)
    | Enter(t: nat)
    | MirrorDone(t: nat, error: Option<Errnum>)
    | RecordFailure(t: nat)
    | Leave(t: nat)
    | OtherError(e: Errnum)            // backup_error on a thread in no section
    | OwnError(c: nat)                 // backup_error on the thread that runs the backup: its callback is told

  predicate Enabled(s: State, step: Step) {
    match step
    case CallBackup(c) => c in s.callers ==> s.callers[c].Returned?
    case PollFails(c, _) => c in s.callers && s.callers[c].Started?
    case TryLock(c) => c in s.callers && s.callers[c].Started?
    case ValidateFails(c, _) => c in s.callers && s.callers[c].Owner?
    case OpenSession(c) => c in s.callers && s.callers[c].Owner? && s.apps == map[]
    case CloseSession(c, _) => c in s.callers && s.callers[c].Open? && s.apps == map[]
    case Unlock(c) => c in s.callers && s.callers[c].Closed?
    case Check(c) => c in s.callers && s.callers[c].Unlocked?
    case Enter(t) => s.session && t !in s.apps
    case MirrorDone(t, _) => t in s.apps && s.apps[t].Mirroring?
    case RecordFailure(t) => t in s.apps && s.apps[t].Failing?
    case Leave(t) => t in s.apps && s.apps[t].Leaving?
    case OtherError(_) => true
    case OwnError(c) => c in s.callers && Owns(s.callers[c])
  }

  /** backup_error also disables copying, whoever reports. */
  function Record(s: State, e: Errnum): State {
    s.(copyOn := false, flag := if s.flag.None? then Some(e) else s.flag, recorded := s.recorded + [e])
  }

  /** What do_backup returns: an error of its own, or else the saved one. */
  function Answer(s: State, r: int): int {
    if s.flag.Some? && r == 0 then s.flag.value else r
  }

  function Do(s: State, step: Step): State
    requires Enabled(s, step)
  {
    match step
    case CallBackup(c) => s.(flag := None, recorded := [], callers := s.callers[c := Started])
    case PollFails(c, e) => s.(copyOn := false, callers := s.callers[c := Returned(e)])
    case TryLock(c) =>
      if s.owner.None? then s.(owner := Some(c), callers := s.callers[c := Owner])
      else s.(copyOn := false, callers := s.callers[c := Returned(EBUSY)])
    case ValidateFails(c, e) => s.(copyOn := false, callers := s.callers[c := Closed(e, false)])
    case OpenSession(c) => s.(session := true, copyOn := true, failed := false, callers := s.callers[c := Open])
    case CloseSession(c, r) => s.(session := false, callers := s.callers[c := Closed(r, s.failed)])
    case Unlock(c) => s.(owner := None, callers := s.callers[c := Unlocked(s.callers[c].r, s.callers[c].failed)])
    case Check(c) => s.(callers := s.callers[c := Returned(Answer(s, s.callers[c].r))])
    case Enter(t) => s.(apps := s.apps[t := Mirroring])
    case MirrorDone(t, error) =>
      s.(apps := s.apps[t := if error.Some? then Failing(error.value) else Leaving], failed := s.failed || error.Some?)
    case RecordFailure(t) => Record(s, s.apps[t].error).(apps := s.apps[t := Leaving])
    case Leave(t) => s.(apps := s.apps - {t})
    case OtherError(e) => Record(s, e)
    case OwnError(_) => s.(copyOn := false)
  }

  predicate Init(s: State) {
    && s.flag.None? && s.owner.None? && !s.session && s.apps == map[] && s.callers == map[]
    && !s.failed && s.recorded == []
  }

  ghost predicate Reaches(s: State, steps: seq<Step>, t: State)
    decreases |steps|
  {
    if steps == [] then s == t
    else Enabled(s, steps[0]) && Reaches(Do(s, steps[0]), steps[1..], t)
  }

  predicate Owns(caller: Caller) {
    caller.Owner? || caller.Open? || caller.Closed?
  }

  ghost predicate Inv(s: State) {
    && (forall c :: c in s.callers && Owns(s.callers[c]) ==> s.owner == Some(c))
    && (s.owner.Some? ==> s.owner.value in s.callers && Owns(s.callers[s.owner.value]))
    && (s.session ==> s.owner.Some? && s.owner.value in s.callers && s.callers[s.owner.value].Open?)
    && (s.apps != map[] ==> s.session)
    && s.flag == if s.recorded == [] then None else Some(s.recorded[0])
  }

  lemma StepKeepsInv(s: State, step: Step)
    requires Inv(s) && Enabled(s, step)
    ensures Inv(Do(s, step))
  {
  }

  lemma {:induction false} RunKeepsInv(s: State, steps: seq<Step>, t: State)
    requires Inv(s) && Reaches(s, steps, t)
    ensures Inv(t)
    decreases |steps|
  {
    if steps != [] {
      StepKeepsInv(s, steps[0]);
      RunKeepsInv(Do(s, steps[0]), steps[1..], t);
    }
  }

  /** The saved error is the first one recorded since the flag was last reset; a call whose own work succeeded
      returns 0 exactly when nothing has been recorded since. */
  lemma AnswerIsFirstRecorded(s0: State, steps: seq<Step>, s: State)
    requires Init(s0) && Reaches(s0, steps, s)
    ensures s.flag == if s.recorded == [] then None else Some(s.recorded[0])
    ensures Answer(s, 0) == 0 <==> s.recorded == []
    ensures forall r :: r != 0 ==> Answer(s, r) == r
  {
    RunKeepsInv(s0, steps, s);
  }

  /** At most one call of do_backup holds the mutex, and at most one session is open. */
  lemma OneSessionAtATime(s0: State, steps: seq<Step>, s: State, c: nat, d: nat)
    requires Init(s0) && Reaches(s0, steps, s)
    requires c in s.callers && d in s.callers && Owns(s.callers[c]) && Owns(s.callers[d])
    ensures c == d
  {
    RunKeepsInv(s0, steps, s);
  }

  // ----- a mirror failure is never lost -----

  predicate SomeoneFailing(s: State) {
    exists t :: t in s.apps && s.apps[t].Failing?
  }

  /** The failure is on its way to the caller. */
  ghost predicate Remembered(s: State, c: nat) {
    c in s.callers &&
    match s.callers[c]
    case Open => s.failed ==> s.flag.Some? || SomeoneFailing(s)
    case Closed(_, failed) => failed ==> s.flag.Some?
    case Unlocked(_, failed) => failed ==> s.flag.Some?
    case _ => false
  }

  lemma FailureRemembered(s: State, step: Step, c: nat)
    requires Inv(s) && Enabled(s, step) && Remembered(s, c) && !step.CallBackup? && step != Check(c)
    ensures Remembered(Do(s, step), c)
  {
    var s' := Do(s, step);
    if s.callers[c].Open? {
      match step
      case MirrorDone(t, error) =>
        if error.Some? {
          assert s'.apps[t].Failing?;
        } else if SomeoneFailing(s) {
          var u :| u in s.apps && s.apps[u].Failing?;
          assert s'.apps[u].Failing?;
        }
      case Enter(t) =>
        if SomeoneFailing(s) {
          var u :| u in s.apps && s.apps[u].Failing?;
          assert s'.apps[u].Failing?;
        }
      case Leave(t) =>
        if SomeoneFailing(s) {
          var u :| u in s.apps && s.apps[u].Failing?;
          assert s'.apps[u].Failing?;
        }
      case _ =>
    }
  }

  lemma {:induction false} RunRemembers(s: State, steps: seq<Step>, t: State, c: nat)
    requires Inv(s) && Remembered(s, c) && Reaches(s, steps, t)
    requires forall step :: step in steps ==> !step.CallBackup? && step != Check(c)
    ensures Inv(t) && Remembered(t, c)
    decreases |steps|
  {
    if steps != [] {
      assert steps[0] in steps && forall step :: step in steps[1..] ==> step in steps;
      StepKeepsInv(s, steps[0]);
      FailureRemembered(s, steps[0], c);
      RunRemembers(Do(s, steps[0]), steps[1..], t, c);
    }
  }

  /** A mirror call fails. */
  predicate MirrorFails(step: Step) {
    step.MirrorDone? && step.error.Some?
  }

  lemma OpenStepFails(s: State, step: Step, c: nat)
    requires Inv(s) && Enabled(s, step) && c in s.callers && s.callers[c].Open? && !(step.CloseSession? && step.c == c)
    ensures var s' := Do(s, step);
      c in s'.callers && s'.callers[c].Open? && (s'.failed <==> s.failed || MirrorFails(step))
  {
  }

  lemma {:induction false} OpenRunFails(s: State, steps: seq<Step>, t: State, c: nat)
    requires Inv(s) && Reaches(s, steps, t) && c in s.callers && s.callers[c].Open?
    requires forall step :: step in steps ==> !(step.CloseSession? && step.c == c)
    ensures t.failed <==> s.failed || exists step :: step in steps && MirrorFails(step)
    decreases |steps|
  {
    if steps != [] {
      FirstAndRest(steps);
      StepKeepsInv(s, steps[0]);
      OpenStepFails(s, steps[0], c);
      hide Inv, Enabled, Do, MirrorFails;
      OpenRunFails(Do(s, steps[0]), steps[1..], t, c);
    }
  }

  /** When the session is being closed, no call is left in a section: if a mirror call has failed since the session was
      opened, an error is recorded. */
  lemma ClosingWaitsForSections(s0: State, before: seq<Step>, s: State, c: nat, inside: seq<Step>, u: State, r: int)
    requires Init(s0) && Reaches(s0, before, s) && Enabled(s, OpenSession(c))
    requires Reaches(Do(s, OpenSession(c)), inside, u) && Enabled(u, CloseSession(c, r))
    requires forall step :: step in inside ==> !step.CallBackup? && !(step.CloseSession? && step.c == c)
    requires exists step :: step in inside && MirrorFails(step)
    ensures u.recorded != [] && u.flag == Some(u.recorded[0]) && u.failed
  {
    var s1 := Do(s, OpenSession(c));
    RunKeepsInv(s0, before, s);
    StepKeepsInv(s, OpenSession(c));
    assert Remembered(s1, c);
    OpenRunFails(s1, inside, u, c);
    OpenRunNotChecked(s1, inside, u, c);
    RunRemembers(s1, inside, u, c);
  }

  /** A caller whose session is open is not at its check. */
  lemma {:induction false} OpenRunNotChecked(s: State, steps: seq<Step>, t: State, c: nat)
    requires Inv(s) && Reaches(s, steps, t) && c in s.callers && s.callers[c].Open?
    requires forall step :: step in steps ==> !(step.CloseSession? && step.c == c)
    ensures forall step :: step in steps ==> step != Check(c)
    decreases |steps|
  {
    if steps != [] {
      FirstAndRest(steps);
      StepKeepsInv(s, steps[0]);
      OpenStepFails(s, steps[0], c);
      assert steps[0] != Check(c);
      hide Inv, Enabled, Do;
      OpenRunNotChecked(Do(s, steps[0]), steps[1..], t, c);
    }
  }

  /** If a mirror call fails in a section of the session, and nobody else calls do_backup between the opening of
      the session and the check, do_backup returns nonzero: what the copy returned, or the first error recorded. */
  lemma MirrorFailureIsReported(s0: State, before: seq<Step>, s: State, c: nat, inside: seq<Step>, u: State, r: int,
                                later: seq<Step>, t: State)
    requires Init(s0) && Reaches(s0, before, s) && Enabled(s, OpenSession(c))
    requires Reaches(Do(s, OpenSession(c)), inside, u) && Enabled(u, CloseSession(c, r))
    requires forall step :: step in inside ==> !step.CallBackup? && !(step.CloseSession? && step.c == c)
    requires exists step :: step in inside && MirrorFails(step)
    requires Reaches(Do(u, CloseSession(c, r)), later, t) && Enabled(t, Check(c))
    requires forall step :: step in later ==> !step.CallBackup? && step != Check(c)
    ensures Do(t, Check(c)).callers[c].r != 0 && t.recorded != []
    ensures Do(t, Check(c)).callers[c] == Returned(if r != 0 then r else t.recorded[0])
  {
    hide *;
    ClosesWithFailure(s0, before, s, c, inside, u, r);
    var u1 := Do(u, CloseSession(c, r));
    RunRemembers(u1, later, t, c);
    KeepsGiven(u1, later, t, c, r, true);
    RememberedAnswer(t, c, r);
  }

  lemma ClosesWithFailure(s0: State, before: seq<Step>, s: State, c: nat, inside: seq<Step>, u: State, r: int)
    requires Init(s0) && Reaches(s0, before, s) && Enabled(s, OpenSession(c))
    requires Reaches(Do(s, OpenSession(c)), inside, u) && Enabled(u, CloseSession(c, r))
    requires forall step :: step in inside ==> !step.CallBackup? && !(step.CloseSession? && step.c == c)
    requires exists step :: step in inside && MirrorFails(step)
    ensures var u1 := Do(u, CloseSession(c, r)); Inv(u1) && Remembered(u1, c) && Given(u1, c, r, true)
  {
    ClosingWaitsForSections(s0, before, s, c, inside, u, r);
    assert Inv(s0);
    hide Reaches, Inv;
    RunKeepsInv(s0, before, s);
    StepKeepsInv(s, OpenSession(c));
    RunKeepsInv(Do(s, OpenSession(c)), inside, u);
    StepKeepsInv(u, CloseSession(c, r));
  }

  lemma RememberedAnswer(s: State, c: nat, r: int)
    requires Inv(s) && Remembered(s, c) && Given(s, c, r, true) && Enabled(s, Check(c))
    ensures s.recorded != [] && Do(s, Check(c)).callers[c] == Returned(if r != 0 then r else s.recorded[0])
  {
  }

  // ----- what a call returns -----

  /** The call has something to return, and is past its session. */
  predicate Stores(s: State, c: nat) {
    c in s.callers && (s.callers[c].Closed? || s.callers[c].Unlocked?)
  }

  /** What the call was given to return: by the end of its session, or by the validation that failed. */
  predicate Given(s: State, c: nat, r: int, failed: bool) {
    Stores(s, c) && s.callers[c].r == r && s.callers[c].failed == failed
  }

  lemma {:induction false} KeepsGiven(s: State, steps: seq<Step>, t: State, c: nat, r: int, failed: bool)
    requires Given(s, c, r, failed) && Reaches(s, steps, t) && forall step :: step in steps ==> step != Check(c)
    ensures Given(t, c, r, failed)
    decreases |steps|
  {
    if steps != [] {
      FirstAndRest(steps);
      KeepsGiven(Do(s, steps[0]), steps[1..], t, c, r, failed);
    }
  }

  /** The step by which a call is given `r`. */
  predicate Gives(step: Step, c: nat, r: int) {
    step == CloseSession(c, r) || (step.ValidateFails? && step.c == c && step.e == r)
  }

  /** From the step to the check: a call whose copy or validation failed returns that very error, and one whose copy
      went well returns 0 or the first error recorded. */
  lemma ReturnsWhatItWasGiven(s: State, c: nat, r: int, step: Step, after: seq<Step>, t: State)
    requires Enabled(s, step) && Gives(step, c, r) && Reaches(Do(s, step), after, t)
    requires (forall step :: step in after ==> step != Check(c)) && Enabled(t, Check(c)) && Inv(t)
    ensures r != 0 ==> Do(t, Check(c)).callers[c] == Returned(r)
    ensures r == 0 ==> Do(t, Check(c)).callers[c] == Returned(if t.recorded == [] then 0 else t.recorded[0])
  {
    var failed := Do(s, step).callers[c].failed;
    assert Given(Do(s, step), c, r, failed);
    KeepsGiven(Do(s, step), after, t, c, r, failed);
  }

  /** The last thing given to a call. */
  function LastGiven(steps: seq<Step>, c: nat): Option<int> {
    if steps == [] then None
    else
      var last := steps[|steps| - 1];
      if last.CloseSession? && last.c == c then Some(last.r)
      else if last.ValidateFails? && last.c == c then Some(last.e)
      else LastGiven(steps[..|steps| - 1], c)
  }

  lemma {:induction false} SplitLast(s: State, steps: seq<Step>, t: State) returns (u: State)
    requires Reaches(s, steps, t) && steps != []
    ensures Reaches(s, steps[..|steps| - 1], u) && Enabled(u, steps[|steps| - 1]) && Do(u, steps[|steps| - 1]) == t
    decreases |steps|
  {
    hide Enabled, Do;
    if |steps| == 1 {
      u := s;
      assert steps[1..] == [];
    } else {
      u := SplitLast(Do(s, steps[0]), steps[1..], t);
      assert steps[..|steps| - 1][1..] == steps[1..][..|steps| - 2];
    }
  }

  /** What is stored at the end is what the last such step gave. */
  lemma {:induction false} StoredIsLastGiven(s0: State, steps: seq<Step>, t: State, c: nat)
    requires Init(s0) && Reaches(s0, steps, t) && Stores(t, c)
    ensures LastGiven(steps, c) == Some(t.callers[c].r)
    decreases |steps|
  {
    if steps != [] {
      var u := SplitLast(s0, steps, t);
      var last := steps[|steps| - 1];
      StepStores(u, last, c);
      hide Init, Enabled, Do, Reaches;
      if !((last.CloseSession? || last.ValidateFails?) && last.c == c) {
        StoredIsLastGiven(s0, steps[..|steps| - 1], u, c);
      }
    }
  }

  lemma StepStores(s: State, step: Step, c: nat)
    requires Enabled(s, step) && Stores(Do(s, step), c)
    ensures var r := Do(s, step).callers[c].r;
      if step.CloseSession? && step.c == c then r == step.r
      else if step.ValidateFails? && step.c == c then r == step.e
      else Stores(s, c) && s.callers[c].r == r
  {
  }

  /** In terms of the run alone: a call returns what its copy or its validation returned, if that is an error; if not,
      the first error recorded since the flag was reset; and 0 exactly when there is neither. */
  lemma AnswerOfTheRun(s0: State, steps: seq<Step>, t: State, c: nat)
    requires Init(s0) && Reaches(s0, steps, t) && Enabled(t, Check(c))
    ensures LastGiven(steps, c).Some?
    ensures var given := LastGiven(steps, c).value;
      && (given != 0 ==> Do(t, Check(c)).callers[c] == Returned(given))
      && (Do(t, Check(c)).callers[c] == Returned(0) <==> given == 0 && t.recorded == [])
  {
    RunKeepsInv(s0, steps, t);
    StoredIsLastGiven(s0, steps, t, c);
  }

  /** A call returns at once when the callback says so, or when another one owns the mutex, and not otherwise. */
  lemma ReturnsAtOnce(s: State, c: nat, e: Errnum)
    requires Inv(s)
    ensures Enabled(s, PollFails(c, e)) ==> Do(s, PollFails(c, e)).callers[c] == Returned(e)
    ensures Enabled(s, TryLock(c)) ==>
      var busy := exists d :: d in s.callers && Owns(s.callers[d]);
      Do(s, TryLock(c)).callers[c] == if busy then Returned(EBUSY) else Owner
  {
  }

  /** What a call has returned stays so until the thread calls again. */
  lemma {:induction false} ReturnedStays(s: State, steps: seq<Step>, t: State, c: nat)
    requires Reaches(s, steps, t) && c in s.callers && s.callers[c].Returned?
    requires forall step :: step in steps ==> step != CallBackup(c)
    ensures c in t.callers && t.callers[c] == s.callers[c]
    decreases |steps|
  {
    if steps != [] {
      FirstAndRest(steps);
      ReturnedStays(Do(s, steps[0]), steps[1..], t, c);
    }
  }

  /** The error of a mirror call is recorded as it was. */
  lemma {:induction false} FailureStays(s: State, steps: seq<Step>, u: State, t: nat, e: Errnum)
    requires t in s.apps && s.apps[t] == Failing(e) && Reaches(s, steps, u) && RecordFailure(t) !in steps
    ensures t in u.apps && u.apps[t] == Failing(e)
    decreases |steps|
  {
    if steps != [] {
      FirstAndRest(steps);
      FailureStays(Do(s, steps[0]), steps[1..], u, t, e);
    }
  }

  lemma MirrorErrorIsRecorded(s: State, t: nat, e: Errnum, steps: seq<Step>, u: State)
    requires Enabled(s, MirrorDone(t, Some(e))) && Reaches(Do(s, MirrorDone(t, Some(e))), steps, u)
    requires RecordFailure(t) !in steps && Enabled(u, RecordFailure(t))
    ensures Do(u, RecordFailure(t)).recorded == u.recorded + [e]
  {
    FailureStays(Do(s, MirrorDone(t, Some(e))), steps, u, t, e);
  }

  predicate Records(step: Step) {
    step.RecordFailure? || step.OtherError?
  }

  lemma StepRecords(s: State, step: Step)
    requires Enabled(s, step) && !step.CallBackup?
    ensures Do(s, step).recorded == [] <==> s.recorded == [] && !Records(step)
  {
  }

  lemma {:induction false} RunRecords(s: State, steps: seq<Step>, t: State)
    requires Inv(s) && Reaches(s, steps, t) && forall step :: step in steps ==> !step.CallBackup?
    ensures Inv(t)
    ensures t.recorded == [] <==> s.recorded == [] && forall step :: step in steps ==> !Records(step)
    decreases |steps|
  {
    if steps != [] {
      FirstAndRest(steps);
      StepKeepsInv(s, steps[0]);
      StepRecords(s, steps[0]);
      hide Inv, Enabled, Do, Records;
      RunRecords(Do(s, steps[0]), steps[1..], t);
    }
  }

  /** With any number of callers: what a call answers at its check is nonzero exactly when its own error is, or some
      error was recorded after the last call of do_backup, by whomever, began. */
  lemma AnswerIff(s0: State, before: seq<Step>, s: State, d: nat, after: seq<Step>, t: State, c: nat)
    requires Init(s0) && Reaches(s0, before, s) && Enabled(s, CallBackup(d)) && Reaches(Do(s, CallBackup(d)), after, t)
    requires (forall step :: step in after ==> !step.CallBackup?) && Enabled(t, Check(c))
    ensures Answer(t, t.callers[c].r) != 0 <==> t.callers[c].r != 0 || exists step :: step in after && Records(step)
  {
    RunKeepsInv(s0, before, s);
    StepKeepsInv(s, CallBackup(d));
    RunRecords(Do(s, CallBackup(d)), after, t);
  }

  /** One more call of do_backup just before the check is enough to lose the failure, although that call only
      finds out that a backup is in progress or has just ended. */
  lemma SecondCallerLosesTheFailure(s0: State, steps: seq<Step>, s: State, c: nat, d: nat)
    requires Init(s0) && Reaches(s0, steps, s) && Enabled(s, Check(c)) && s.callers[c].r == 0
    requires c != d && Enabled(s, CallBackup(d))
    ensures Do(Do(s, CallBackup(d)), Check(c)).callers[c] == Returned(0)
  {
  }

  /** A second call that only finds the first one busy also ends the first one's copy, and nothing is recorded
      that could tell: if nothing else goes wrong the first call answers 0 for a backup that is not complete. */
  lemma SecondCallerStopsTheCopy(s0: State, steps: seq<Step>, s: State, c: nat, d: nat)
    requires Init(s0) && Reaches(s0, steps, s) && c in s.callers && s.callers[c].Open? && s.copyOn
    requires c != d && Enabled(s, CallBackup(d))
    ensures var s1 := Do(s, CallBackup(d));
      && Enabled(s1, TryLock(d))
      && var s2 := Do(s1, TryLock(d));
         && s2.callers[d] == Returned(EBUSY) && !s2.copyOn
         && s2.recorded == [] && s2.callers[c].Open? && Answer(s2, 0) == 0
  {
    RunKeepsInv(s0, steps, s);
  }

  // ----- when the copy goes on -----

  /** Reports, by whomever: each disables copying. */
  predicate Disables(step: Step) {
    Records(step) || step.PollFails? || step.TryLock? || step.ValidateFails? || step.OwnError?
  }

  lemma OpenStepCopies(s: State, step: Step, c: nat)
    requires Inv(s) && Enabled(s, step) && c in s.callers && s.callers[c].Open? && !(step.CloseSession? && step.c == c)
    ensures var s' := Do(s, step);
      c in s'.callers && s'.callers[c].Open? && (s'.copyOn <==> s.copyOn && !Disables(step))
  {
  }

  lemma {:induction false} OpenRunCopies(s: State, steps: seq<Step>, t: State, c: nat)
    requires Inv(s) && Reaches(s, steps, t) && c in s.callers && s.callers[c].Open?
    requires forall step :: step in steps ==> !(step.CloseSession? && step.c == c)
    ensures t.copyOn <==> s.copyOn && forall step :: step in steps ==> !Disables(step)
    decreases |steps|
  {
    if steps != [] {
      FirstAndRest(steps);
      StepKeepsInv(s, steps[0]);
      OpenStepCopies(s, steps[0], c);
      hide Inv, Enabled, Do, Disables;
      OpenRunCopies(Do(s, steps[0]), steps[1..], t, c);
    }
  }

  /** With any number of callers: as long as its session is open, the copy goes on exactly until somebody reports an
      error, on whatever thread, or another call of do_backup fails, be it only because this one is busy. */
  lemma CopyGoesOnIff(s0: State, before: seq<Step>, s: State, c: nat, during: seq<Step>, t: State)
    requires Init(s0) && Reaches(s0, before, s) && Enabled(s, OpenSession(c))
    requires Reaches(Do(s, OpenSession(c)), during, t)
    requires forall step :: step in during ==> !(step.CloseSession? && step.c == c)
    ensures t.copyOn <==> forall step :: step in during ==> !Disables(step)
  {
    RunKeepsInv(s0, before, s);
    StepKeepsInv(s, OpenSession(c));
    OpenRunCopies(Do(s, OpenSession(c)), during, t, c);
  }

  /** Nobody but `c` has called do_backup, and its session has been opened. */
  predicate Alone(s: State, c: nat) {
    && s.callers.Keys == {c}
    && (s.callers[c].Open? || s.callers[c].Closed? || s.callers[c].Unlocked? || s.callers[c].Returned?)
  }

  lemma AloneStep(s: State, step: Step, c: nat)
    requires Alone(s, c) && Enabled(s, step) && !step.CallBackup?
    ensures var s' := Do(s, step);
      Alone(s', c) && (s'.copyOn <==> s.copyOn && !Records(step) && !step.OwnError?)
  {
  }

  lemma {:induction false} AloneRun(s: State, steps: seq<Step>, t: State, c: nat)
    requires Alone(s, c) && Reaches(s, steps, t) && forall step :: step in steps ==> !step.CallBackup?
    ensures Alone(t, c)
    ensures t.copyOn <==> s.copyOn && forall step :: step in steps ==> !Records(step) && !step.OwnError?
    decreases |steps|
  {
    if steps != [] {
      FirstAndRest(steps);
      AloneStep(s, steps[0], c);
      hide Alone, Enabled, Do, Records;
      AloneRun(Do(s, steps[0]), steps[1..], t, c);
    }
  }

  /** A single caller is told of an incomplete copy: when its check answers 0, the copy was never stopped, exactly when
      no error was reported on its own thread. */
  lemma OneCallerIsToldIff(s0: State, before: seq<Step>, s: State, c: nat, after: seq<Step>, t: State)
    requires Init(s0) && Reaches(s0, before, s) && Enabled(s, OpenSession(c)) && s.callers.Keys == {c}
    requires Reaches(Do(s, OpenSession(c)), after, t) && forall step :: step in after ==> !step.CallBackup?
    ensures !t.copyOn && (forall step :: step in after ==> !step.OwnError?) ==> t.recorded != [] && Answer(t, 0) != 0
    ensures Enabled(t, Check(c)) && Answer(t, t.callers[c].r) == 0 ==>
      (t.copyOn <==> forall step :: step in after ==> !step.OwnError?)
  {
    var s1 := Do(s, OpenSession(c));
    RunKeepsInv(s0, before, s);
    StepKeepsInv(s, OpenSession(c));
    AloneRun(s1, after, t, c);
    RunRecords(s1, after, t);
  }

  /** A run of one caller whose copy is stopped in its session, and whose check answers 0 all the same. */
  ghost predicate IncompleteAndSilent(s0: State, before: seq<Step>, s: State, c: nat, after: seq<Step>, t: State) {
    && Init(s0) && Reaches(s0, before, s) && Enabled(s, OpenSession(c)) && s.callers.Keys == {c}
    && Reaches(Do(s, OpenSession(c)), after, t) && !t.copyOn
    && Enabled(t, Check(c)) && Do(t, Check(c)).callers[c] == Returned(0)
  }

  /** The run of one caller during whose copy the close of a destination fails: nothing is recorded, the copier stops
      with 0, and so does the call. */
  lemma SilentReportStopsTheCopy()
    ensures exists s0, before, s, after, t :: IncompleteAndSilent(s0, before, s, 0, after, t)
  {
    hide *;
    var s0 := State(None, None, false, false, map[], map[], false, []);
    var s := s0.(owner := Some(0), callers := map[0 := Owner]);
    var t := s0.(callers := map[0 := Unlocked(0, false)]);
    var before, after := [CallBackup(0), TryLock(0)], [OwnError(0), CloseSession(0, 0), Unlock(0)];
    SilentBefore(s0, before, s);
    SilentAfter(s.(session := true, copyOn := true, callers := map[0 := Open]), t, after);
    SilentRun(s0, before, s, after, t);
  }

  lemma SilentRun(s0: State, before: seq<Step>, s: State, after: seq<Step>, t: State)
    requires s0 == State(None, None, false, false, map[], map[], false, []) && Reaches(s0, before, s)
    requires s == s0.(owner := Some(0), callers := map[0 := Owner])
    requires t == s0.(callers := map[0 := Unlocked(0, false)])
    requires Reaches(s.(session := true, copyOn := true, callers := map[0 := Open]), after, t)
    ensures IncompleteAndSilent(s0, before, s, 0, after, t)
  {
    assert Do(s, OpenSession(0)) == s.(session := true, copyOn := true, callers := map[0 := Open]);
    hide Reaches;
  }

  lemma SilentBefore(s0: State, before: seq<Step>, s: State)
    requires s0 == State(None, None, false, false, map[], map[], false, [])
    requires s == s0.(owner := Some(0), callers := map[0 := Owner]) && before == [CallBackup(0), TryLock(0)]
    ensures Reaches(s0, before, s)
  {
    var started := s0.(callers := map[0 := Started]);
    assert before[1..] == [TryLock(0)] && before[1..][1..] == [];
    assert Do(s0, CallBackup(0)) == started && Do(started, TryLock(0)) == s;
    assert Reaches(s, [], s);
    assert Reaches(started, before[1..], s);
  }

  lemma SilentAfter(s1: State, t: State, after: seq<Step>)
    requires s1 == State(None, Some(0), true, true, map[], map[0 := Open], false, [])
    requires t == State(None, None, false, false, map[], map[0 := Unlocked(0, false)], false, [])
    requires after == [OwnError(0), CloseSession(0, 0), Unlock(0)]
    ensures Reaches(s1, after, t)
  {
    var s2 := s1.(copyOn := false);
    var s3 := s2.(session := false, callers := map[0 := Closed(0, false)]);
    assert after[1..] == [CloseSession(0, 0), Unlock(0)] && after[1..][1..] == [Unlock(0)];
    assert after[1..][1..][1..] == [];
    assert Do(s1, OwnError(0)) == s2 && Do(s2, CloseSession(0, 0)) == s3 && Do(s3, Unlock(0)) == t;
    assert Reaches(t, [], t);
    assert Reaches(s3, after[1..][1..], t);
    assert Reaches(s2, after[1..], t);
  }

  // ----- every call can return -----

  lemma TwoSteps(s: State, a: Step, b: Step)
    requires Enabled(s, a) && Enabled(Do(s, a), b)
    ensures Reaches(s, [a], Do(s, a)) && Reaches(s, [a, b], Do(Do(s, a), b))
  {
    assert [a][1..] == [] && [a, b][1..] == [b] && [b][1..] == [];
    hide Enabled, Do;
    assert Reaches(Do(Do(s, a), b), [], Do(Do(s, a), b));
    assert Reaches(Do(s, a), [b], Do(Do(s, a), b));
  }

  lemma {:induction false} ReachesConcat(s: State, xs: seq<Step>, t: State, ys: seq<Step>, u: State)
    requires Reaches(s, xs, t) && Reaches(t, ys, u)
    ensures Reaches(s, xs + ys, u)
    decreases |xs|
  {
    hide Enabled, Do;
    if xs == [] {
      assert xs + ys == ys;
    } else {
      ReachesConcat(Do(s, xs[0]), xs[1..], t, ys, u);
      assert (xs + ys)[1..] == xs[1..] + ys;
    }
  }

  /** A thread in its section can leave it. */
  lemma SectionEnds(s: State, t: nat) returns (steps: seq<Step>, u: State)
    requires t in s.apps
    ensures Reaches(s, steps, u) && u.apps == s.apps - {t} && u.callers == s.callers
  {
    if s.apps[t].Leaving? {
      steps := [Leave(t)];
      u := Do(s, Leave(t));
      assert steps[1..] == [];
    } else {
      var step := if s.apps[t].Failing? then RecordFailure(t) else MirrorDone(t, None);
      var s1 := Do(s, step);
      assert s1.apps == s.apps[t := Leaving] && s1.callers == s.callers;
      steps := [step, Leave(t)];
      u := Do(s1, Leave(t));
      TwoSteps(s, step, Leave(t));
      assert s.apps[t := Leaving] - {t} == s.apps - {t};
    }
  }

  lemma {:induction false} SectionsEnd(s: State) returns (steps: seq<Step>, u: State)
    ensures Reaches(s, steps, u) && u.apps == map[] && u.callers == s.callers
    decreases |s.apps|
  {
    if s.apps == map[] {
      steps, u := [], s;
    } else {
      var t :| t in s.apps;
      var first, s1 := SectionEnds(s, t);
      assert |s1.apps| < |s.apps| by {
        assert s1.apps.Keys == s.apps.Keys - {t};
        assert |s1.apps| == |s1.apps.Keys| && |s.apps| == |s.apps.Keys|;
      }
      var rest;
      rest, u := SectionsEnd(s1);
      hide Enabled, Do;
      ReachesConcat(s, first, s1, rest, u);
      steps := first + rest;
    }
  }

  function Ahead(caller: Caller): nat {
    match caller
    case Started => 5
    case Owner => 4
    case Open => 3
    case Closed(_, _) => 2
    case Unlocked(_, _) => 1
    case Returned(_) => 0
  }

  /** The next thing a call does, when no thread is in a section. */
  function NextOf(caller: Caller, c: nat): Step
    requires !caller.Returned?
  {
    match caller
    case Started => TryLock(c)
    case Owner => OpenSession(c)
    case Open => CloseSession(c, 0)
    case Closed(_, _) => Unlock(c)
    case Unlocked(_, _) => Check(c)
  }

  lemma CallGoesOn(s: State, c: nat)
    requires Inv(s) && c in s.callers && !s.callers[c].Returned? && (s.callers[c].Open? ==> s.apps == map[])
    ensures var step := NextOf(s.callers[c], c);
      Enabled(s, step) && c in Do(s, step).callers && Ahead(Do(s, step).callers[c]) < Ahead(s.callers[c])
  {
  }

  /** From every state of every run each call of do_backup can return: no section keeps a session open for good, and no
      mutex stays locked. */
  lemma {:induction false} CallCanReturn(s: State, c: nat) returns (steps: seq<Step>, t: State)
    requires Inv(s) && c in s.callers
    ensures Reaches(s, steps, t) && c in t.callers && t.callers[c].Returned? && (t.owner.Some? ==> t.owner.value != c)
    decreases Ahead(s.callers[c])
  {
    if s.callers[c].Returned? {
      steps, t := [], s;
    } else {
      var first, s1 := [], s;
      if s.callers[c].Open? {
        first, s1 := SectionsEnd(s);
      }
      RunKeepsInv(s, first, s1);
      var step := NextOf(s1.callers[c], c);
      CallGoesOn(s1, c);
      StepKeepsInv(s1, step);
      hide Inv, Enabled, Do, Ahead, NextOf;
      var rest;
      rest, t := CallCanReturn(Do(s1, step), c);
      assert ([step] + rest)[1..] == rest;
      assert Reaches(s1, [step] + rest, t);
      ReachesConcat(s, first, s1, [step] + rest, t);
      steps := first + ([step] + rest);
    }
  }
}
