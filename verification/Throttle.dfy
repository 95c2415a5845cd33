/** The copier's throttle, with exact real time and a fixed rate: after each range it sleeps until the bytes
    of the current file fit the rate since the file was started. */
module Throttle {
  import opened Basics

  datatype Phase =
    | Idle                     // between files
    | Copying(left: nat)       // inside copy_file_range: at most `left` more bytes in this range
    | Throttled                // inside possibly_sleep_or_abort

  datatype State = State(
    now: real,
    sessionStart: real,
    fileStart: real,
    finished: nat,             // bytes of the files that are done
    written: nat,              // m_total_written_this_file
    allowed: nat,              // history: `written` when the last range was started
    phase: Phase)

  datatype Step =
    | Tick(d: real)
    | StartFile
    | WritePiece(n: nat)
    | EndRange                 // to the throttle
    | Wake                     // the budget is met: the next range
    | EndOfFile                // the range read nothing

  predicate Enabled(rate: real, s: State, step: Step)
    requires rate > 0.0
  {
    match step
    case Tick(d) => d >= 0.0
    case StartFile => s.phase.Idle?
    case WritePiece(n) => s.phase.Copying? && 0 < n <= s.phase.left
    case EndRange => s.phase.Copying? && s.written > s.allowed
    case Wake => s.phase.Throttled? && s.written as real / rate <= s.now - s.fileStart
    case EndOfFile => s.phase.Copying? && s.written == s.allowed
  }

  function Do(rate: real, s: State, step: Step): State
    requires rate > 0.0 && Enabled(rate, s, step)
  {
    match step
    case Tick(d) => s.(now := s.now + d)
    case StartFile => s.(fileStart := s.now, written := 0, allowed := 0, phase := Copying(BUF_SIZE))
    case WritePiece(n) => s.(written := s.written + n, phase := Copying(s.phase.left - n))
    case EndRange => s.(phase := Throttled)
    case Wake => s.(allowed := s.written, phase := Copying(BUF_SIZE))
    case EndOfFile => s.(finished := s.finished + s.written, written := 0, allowed := 0, phase := Idle)
  }

  predicate Init(s: State) {
    s.now == s.sessionStart == s.fileStart && s.finished == s.written == s.allowed == 0 && s.phase.Idle?
  }

  ghost predicate Reaches(rate: real, s: State, steps: seq<Step>, t: State)
    requires rate > 0.0
    decreases |steps|
  {
    if steps == [] then s == t
    else Enabled(rate, s, steps[0]) && Reaches(rate, Do(rate, s, steps[0]), steps[1..], t)
  }

  function Copied(s: State): nat {
    s.finished + s.written
  }

  /** The earlier files kept the rate up to the start of this one, and this one up to the start of its last range. */
  ghost predicate Inv(rate: real, s: State) {
    && s.sessionStart <= s.fileStart <= s.now
    && s.finished as real <= rate * ((if s.phase.Idle? then s.now else s.fileStart) - s.sessionStart)
    && s.allowed as real <= rate * (s.now - s.fileStart)
    && match s.phase
       case Idle => s.written == s.allowed == 0
       case Copying(left) => s.allowed <= s.written && s.written + left == s.allowed + BUF_SIZE
       case Throttled => s.allowed < s.written <= s.allowed + BUF_SIZE
  }

  lemma Scale(rate: real, a: real, b: real)
    requires rate > 0.0 && a <= b
    ensures rate * a <= rate * b
  {
  }

  lemma Budget(rate: real, written: nat, elapsed: real)
    requires rate > 0.0
    ensures written as real / rate <= elapsed <==> written as real <= rate * elapsed
  {
    assert rate * (written as real / rate) == written as real;
    if written as real / rate <= elapsed {
      Scale(rate, written as real / rate, elapsed);
    } else {
      Strictly(rate, elapsed, written as real / rate);
    }
  }

  lemma Strictly(rate: real, a: real, b: real)
    requires rate > 0.0 && a < b
    ensures rate * a < rate * b
  {
    assert rate * (b - a) > 0.0;
  }

  lemma Sum(rate: real, a: real, b: real)
    ensures rate * a + rate * b == rate * (a + b)
  {
  }

  lemma StepKeepsInv(rate: real, s: State, step: Step)
    requires rate > 0.0 && Inv(rate, s) && Enabled(rate, s, step)
    ensures Inv(rate, Do(rate, s, step))
  {
    match step
    case Tick(d) =>
      Scale(rate, s.now - s.fileStart, s.now + d - s.fileStart);
      Scale(rate, s.now - s.sessionStart, s.now + d - s.sessionStart);
    case StartFile =>
    case WritePiece(_) =>
    case EndRange =>
    case Wake => Budget(rate, s.written, s.now - s.fileStart);
    case EndOfFile =>
      Sum(rate, s.fileStart - s.sessionStart, s.now - s.fileStart);
      assert (s.fileStart - s.sessionStart) + (s.now - s.fileStart) == s.now - s.sessionStart;
  }

  lemma {:induction false} RunKeepsInv(rate: real, s: State, steps: seq<Step>, t: State)
    requires rate > 0.0 && Inv(rate, s) && Reaches(rate, s, steps, t)
    ensures Inv(rate, t)
    decreases |steps|
  {
    hide Inv;
    if steps != [] {
      StepKeepsInv(rate, s, steps[0]);
      RunKeepsInv(rate, Do(rate, s, steps[0]), steps[1..], t);
    }
  }

  /** At every moment of a session the bytes copied, over all files, are at most the rate times the time since
      the session started, plus one buffer. */
  lemma ThrottleBound(rate: real, s0: State, steps: seq<Step>, s: State)
    requires rate > 0.0 && Init(s0) && Reaches(rate, s0, steps, s)
    ensures Copied(s) as real <= rate * (s.now - s.sessionStart) + BUF_SIZE as real
  {
    RunKeepsInv(rate, s0, steps, s);
    Sum(rate, s.fileStart - s.sessionStart, s.now - s.fileStart);
    assert (s.fileStart - s.sessionStart) + (s.now - s.fileStart) == s.now - s.sessionStart;
  }

  /** Between files there is no extra buffer: all finished files together keep the rate. */
  lemma FinishedFilesKeepTheRate(rate: real, s0: State, steps: seq<Step>, s: State)
    requires rate > 0.0 && Init(s0) && Reaches(rate, s0, steps, s) && s.phase.Idle?
    ensures Copied(s) as real <= rate * (s.now - s.sessionStart)
  {
    RunKeepsInv(rate, s0, steps, s);
  }

  /** The bytes that the steps write. */
  function Pieces(steps: seq<Step>): nat {
    if steps == [] then 0 else (if steps[0].WritePiece? then steps[0].n else 0) + Pieces(steps[1..])
  }

  /** The time that the steps take. */
  function Time(steps: seq<Step>): real {
    if steps == [] then 0.0 else (if steps[0].Tick? then steps[0].d else 0.0) + Time(steps[1..])
  }

  /** What counts as copied is what has been written, over all files; and only time makes the clock go on. */
  lemma {:induction false} CopiedIsWritten(rate: real, s: State, steps: seq<Step>, t: State)
    requires rate > 0.0 && Reaches(rate, s, steps, t) && (s.phase.Idle? ==> s.written == 0)
    ensures Copied(t) == Copied(s) + Pieces(steps)
    ensures t.now == s.now + Time(steps) && t.sessionStart == s.sessionStart
    decreases |steps|
  {
    if steps != [] {
      CopiedIsWritten(rate, Do(rate, s, steps[0]), steps[1..], t);
    }
  }

  lemma {:induction false} ReachesConcat(rate: real, s: State, xs: seq<Step>, t: State, ys: seq<Step>, u: State)
    requires rate > 0.0 && Reaches(rate, s, xs, t) && Reaches(rate, t, ys, u)
    ensures Reaches(rate, s, xs + ys, u)
    decreases |xs|
  {
    if xs == [] {
      assert xs + ys == ys;
    } else {
      assert (xs + ys)[1..] == xs[1..] + ys;
      ReachesConcat(rate, Do(rate, s, xs[0]), xs[1..], t, ys, u);
    }
  }

  lemma OneStep(rate: real, s: State, step: Step)
    requires rate > 0.0 && Enabled(rate, s, step)
    ensures Reaches(rate, s, [step], Do(rate, s, step))
  {
    assert [step][1..] == [];
  }

  /** The time that the rate allows for `k` buffers. */
  function TimeFor(rate: real, k: nat): real
    requires rate > 0.0
  {
    (k * BUF_SIZE) as real / rate
  }

  /** `k` files of one buffer each are done, without a moment lost; the last was started at `fileStart`. */
  function AfterFiles(rate: real, k: nat, fileStart: real): State
    requires rate > 0.0
  {
    State(TimeFor(rate, k), 0.0, fileStart, k * BUF_SIZE, 0, 0, Idle)
  }

  /** One more file: it is written at once, waits for its time, and ends. */
  lemma OneMoreFile(rate: real, k: nat, fileStart: real) returns (steps: seq<Step>)
    requires rate > 0.0
    ensures Reaches(rate, AfterFiles(rate, k, fileStart), steps, AfterFiles(rate, k + 1, TimeFor(rate, k)))
  {
    var wait := TimeFor(rate, k + 1) - TimeFor(rate, k);
    assert ((k + 1) * BUF_SIZE) as real == (k * BUF_SIZE) as real + BUF_SIZE as real;
    assert wait == BUF_SIZE as real / rate;
    var s := AfterFiles(rate, k, fileStart);
    var start, write := StartFile, WritePiece(BUF_SIZE);
    var s1 := Do(rate, s, start);
    var s2 := Do(rate, s1, write);
    var s3 := Do(rate, s2, EndRange);
    var s4 := Do(rate, s3, Tick(wait));
    var s5 := Do(rate, s4, Wake);
    OneStep(rate, s, start);
    OneStep(rate, s1, write);
    OneStep(rate, s2, EndRange);
    OneStep(rate, s3, Tick(wait));
    OneStep(rate, s4, Wake);
    OneStep(rate, s5, EndOfFile);
    assert Do(rate, s5, EndOfFile) == AfterFiles(rate, k + 1, TimeFor(rate, k));
    hide Do, Enabled, AfterFiles;
    ReachesConcat(rate, s, [start], s1, [write], s2);
    ReachesConcat(rate, s, [start] + [write], s2, [EndRange], s3);
    ReachesConcat(rate, s, [start] + [write] + [EndRange], s3, [Tick(wait)], s4);
    ReachesConcat(rate, s, [start] + [write] + [EndRange] + [Tick(wait)], s4, [Wake], s5);
    steps := [start] + [write] + [EndRange] + [Tick(wait)] + [Wake] + [EndOfFile];
    ReachesConcat(rate, s, [start] + [write] + [EndRange] + [Tick(wait)] + [Wake], s5, [EndOfFile],
                  AfterFiles(rate, k + 1, TimeFor(rate, k)));
  }

  lemma {:induction false} FilesRun(rate: real, k: nat) returns (steps: seq<Step>, fileStart: real)
    requires rate > 0.0
    ensures Reaches(rate, AfterFiles(rate, 0, 0.0), steps, AfterFiles(rate, k, fileStart))
  {
    if k == 0 {
      steps, fileStart := [], 0.0;
    } else {
      var before, more;
      before, fileStart := FilesRun(rate, k - 1);
      more := OneMoreFile(rate, k - 1, fileStart);
      ReachesConcat(rate, AfterFiles(rate, 0, 0.0), before, AfterFiles(rate, k - 1, fileStart), more,
                    AfterFiles(rate, k, TimeFor(rate, k - 1)));
      steps, fileStart := before + more, TimeFor(rate, k - 1);
    }
  }

  lemma TimeForIs(rate: real, k: nat)
    requires rate > 0.0
    ensures rate * (TimeFor(rate, k) - 0.0) == (k * BUF_SIZE) as real
    ensures ((k + 1) * BUF_SIZE) as real == (k * BUF_SIZE) as real + BUF_SIZE as real
    ensures TimeFor(rate, 0) == 0.0
  {
  }

  /** The bound between files is reached, after any number of files. */
  lemma FinishedBoundIsReached(rate: real, k: nat) returns (steps: seq<Step>, s: State)
    requires rate > 0.0
    ensures Init(AfterFiles(rate, 0, 0.0)) && Reaches(rate, AfterFiles(rate, 0, 0.0), steps, s) && s.phase.Idle?
    ensures s.sessionStart == 0.0 && s.now == TimeFor(rate, k)
    ensures Copied(s) == k * BUF_SIZE && Copied(s) as real == rate * (s.now - s.sessionStart)
  {
    TimeForIs(rate, k);
    var fileStart;
    steps, fileStart := FilesRun(rate, k);
    s := AfterFiles(rate, k, fileStart);
    hide TimeFor, Reaches;
  }

  /** And the one with the buffer, as soon as the next file begins: no time passes before its first buffer. */
  lemma BoundIsReached(rate: real, k: nat) returns (steps: seq<Step>, s: State)
    requires rate > 0.0
    ensures Reaches(rate, AfterFiles(rate, 0, 0.0), steps, s)
    ensures Copied(s) == (k + 1) * BUF_SIZE
    ensures Copied(s) as real == rate * (s.now - s.sessionStart) + BUF_SIZE as real
  {
    var before, fileStart := FilesRun(rate, k);
    var s0 := AfterFiles(rate, k, fileStart);
    var s1 := Do(rate, s0, StartFile);
    s := Do(rate, s1, WritePiece(BUF_SIZE));
    OneStep(rate, s0, StartFile);
    OneStep(rate, s1, WritePiece(BUF_SIZE));
    assert Copied(s) == (k + 1) * BUF_SIZE && s.now == TimeFor(rate, k) && s.sessionStart == 0.0;
    TimeForIs(rate, k);
    hide Do, Enabled, AfterFiles, TimeFor;
    steps := before + [StartFile] + [WritePiece(BUF_SIZE)];
    ReachesConcat(rate, AfterFiles(rate, 0, 0.0), before, s0, [StartFile], s1);
    ReachesConcat(rate, AfterFiles(rate, 0, 0.0), before + [StartFile], s1, [WritePiece(BUF_SIZE)], s);
  }

  // ----- the sleep itself -----

  /** One round of the sleeping loop: whether copying is enabled before and after it, what the poll callback answers,
      and how much time goes by. */
  datatype Round = Round(before: bool, poll: int, time: real, after: bool)

  /** A round after which the loop looks at the time again. */
  predicate GoesOn(r: Round) {
    r.before && r.poll == 0 && r.after
  }

  /** The loop asks for the rest of the budget, but for no more than a second. */
  function Nap(left: real): real {
    if left > 1.0 then 1.0 else left
  }

  /** The poll and the sleep together take what was asked for, and at most `slack` more. */
  predicate LegalRounds(budget: real, elapsed: real, slack: real, rounds: seq<Round>)
    decreases |rounds|
  {
    elapsed < budget ==>
      && rounds != [] && Nap(budget - elapsed) <= rounds[0].time <= Nap(budget - elapsed) + slack
      && LegalRounds(budget, elapsed + rounds[0].time, slack, rounds[1..])
  }

  lemma NextRound(budget: real, elapsed: real, slack: real, rounds: seq<Round>, k: nat)
    requires k <= |rounds| && LegalRounds(budget, elapsed, slack, rounds[k..]) && elapsed < budget
    ensures k < |rounds| && Nap(budget - elapsed) <= rounds[k].time <= Nap(budget - elapsed) + slack
    ensures LegalRounds(budget, elapsed + rounds[k].time, slack, rounds[k + 1..])
  {
    assert rounds[k..][1..] == rounds[k + 1..];
  }

  /** possibly_sleep_or_abort, `elapsed` after the file was started.  It lets go once the bytes fit the rate, at most
      `slack` too late, polls less than once a second more than it sleeps, and gives up early only when its last poll
      says so, or when it finds copying disabled at the end of its last round or at the start of the next. */
  method PossiblySleepOrAbort(written: nat, rate: real, elapsed: real, slack: real, rounds: seq<Round>)
    returns (r: int, end: real, polls: nat)
    requires rate > 0.0 && slack >= 0.0 && LegalRounds(written as real / rate, elapsed, slack, rounds)
    ensures elapsed <= end && (end <= elapsed || end <= written as real / rate + slack)
    ensures polls == 0 || polls as real < written as real / rate - elapsed + 1.0
    ensures polls <= |rounds| && forall k :: 0 <= k < polls - 1 ==> GoesOn(rounds[k])
    ensures forall k :: 0 <= k < polls ==> rounds[k].time <= 1.0 + slack
    ensures r != 0 ==> polls > 0 && rounds[polls - 1].poll == r
    ensures r == 0 ==>
      || written as real <= rate * end
      || (polls > 0 && !rounds[polls - 1].after)
      || (polls < |rounds| && !rounds[polls].before)
  {
    hide LegalRounds;
    var budget := written as real / rate;
    end, polls := elapsed, 0;
    assert rounds[0..] == rounds;
    while end < budget
      invariant polls <= |rounds| && LegalRounds(budget, end, slack, rounds[polls..])
      invariant forall k :: 0 <= k < polls ==> GoesOn(rounds[k])
      invariant forall k :: 0 <= k < polls ==> rounds[k].time <= 1.0 + slack
      invariant elapsed <= end && (polls == 0 ==> end == elapsed) && (end <= elapsed || end <= budget + slack)
      invariant end < budget ==> polls as real <= end - elapsed
      invariant polls == 0 || polls as real < budget - elapsed + 1.0
      decreases |rounds| - polls
    {
      NextRound(budget, end, slack, rounds, polls);
      if !rounds[polls].before {
        return 0, end, polls;
      }
      if rounds[polls].poll != 0 {
        return rounds[polls].poll, end, polls + 1;
      }
      end := end + rounds[polls].time;
      polls := polls + 1;
      if !rounds[polls - 1].after {
        return 0, end, polls;
      }
    }
    Budget(rate, written, end);
    return 0, end, polls;
  }
}
