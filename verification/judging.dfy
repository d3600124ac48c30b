/** Jobs, outcomes and verdicts of internal/judge/engine.go, with the meaning of a verdict. */
module Judging {
  import opened Basics
  import opened Tokens

  type SubmissionId = nat
  type AttemptId = nat

  datatype TestCase = TestCase(input: string, expected: string)

  /** The part of a problem that a submission freezes. */
  datatype Problem = Problem(published: bool, languages: seq<string>, timeLimitMs: int, memoryLimitMb: int,
      tests: seq<TestCase>)

  datatype Job = Job(submission: SubmissionId, attempt: AttemptId, number: int,
                     language: string, source: string, problem: Problem)

  datatype Outcome = Outcome(output: string, exitCode: int, runtimeMs: int, memoryKb: int,
                             timedOut: bool, oom: bool, outputLimited: bool)

  datatype Verdict =
    | Accepted | WrongAnswer | TimeLimitExceeded | MemoryLimitExceeded
    | RuntimeError | CompilationError | OutputLimitExceeded

  datatype Result = Result(verdict: Option<Verdict>, runtimeMs: int, memoryKb: int, passed: int, total: int)

  /** What one attempt observed of the sandbox. */
  datatype Evidence = Evidence(compiled: Option<Outcome>, runs: seq<Outcome>)

  const NO_EVIDENCE := Evidence(None, [])

  predicate CompileFailed(out: Outcome) {
    out.exitCode != 0 || out.timedOut || out.oom || out.outputLimited
  }

  function Blank(total: int): Result {
    Result(None, 0, 0, 0, total)
  }

  /** The switch inside the test loop; Accepted means that no case applied. */
  function RunVerdict(out: Outcome, test: TestCase): Verdict {
    if out.oom then MemoryLimitExceeded
    else if out.outputLimited then OutputLimitExceeded
    else if out.timedOut then TimeLimitExceeded
    else if out.exitCode != 0 then RuntimeError
    else if !Compare(out.output, test.expected) then WrongAnswer
    else Accepted
  }

  /** One turn of the test loop. */
  function AfterRun(r: Result, out: Outcome, test: TestCase): Result {
    var v := RunVerdict(out, test);
    Result(Some(v), Max(r.runtimeMs, out.runtimeMs), Max(r.memoryKb, out.memoryKb),
           if v == Accepted then r.passed + 1 else r.passed, r.total)
  }

  /** The loop's result after the given runs. */
  function Tally(tests: seq<TestCase>, runs: seq<Outcome>): Result
    requires |runs| <= |tests|
  {
    if runs == [] then Blank(|tests|).(verdict := Some(Accepted))
    else
      var k := |runs| - 1;
      AfterRun(Tally(tests, runs[..k]), runs[k], tests[k])
  }

  // What a result means, independent of the loop.

  /** x is the maximum of zero and of f over the runs. */
  ghost predicate IsPeak(x: int, runs: seq<Outcome>, f: Outcome -> int) {
    && 0 <= x
    && (forall i :: 0 <= i < |runs| ==> f(runs[i]) <= x)
    && (x == 0 || exists i :: 0 <= i < |runs| && f(runs[i]) == x)
  }

  ghost predicate AllPass(tests: seq<TestCase>, runs: seq<Outcome>) {
    |runs| <= |tests| && forall i :: 0 <= i < |runs| ==> RunVerdict(runs[i], tests[i]) == Accepted
  }

  const RUNTIME: Outcome -> int := (o: Outcome) => o.runtimeMs
  const MEMORY: Outcome -> int := (o: Outcome) => o.memoryKb

  /** r is the verdict that the evidence deserves: compile first, then the first failing test decides. */
  ghost predicate Deserved(tests: seq<TestCase>, ev: Evidence, r: Result) {
    && tests != []
    && r.total == |tests|
    && ev.compiled.Some?
    && if CompileFailed(ev.compiled.value) then
         ev.runs == [] && r == Blank(|tests|).(verdict := Some(CompilationError))
       else
         && IsPeak(r.runtimeMs, ev.runs, RUNTIME)
         && IsPeak(r.memoryKb, ev.runs, MEMORY)
         && if r.verdict == Some(Accepted) then
              |ev.runs| == |tests| == r.passed && AllPass(tests, ev.runs)
            else
              && 0 <= r.passed < |tests|
              && |ev.runs| == r.passed + 1
              && AllPass(tests, ev.runs[..r.passed])
              && RunVerdict(ev.runs[r.passed], tests[r.passed]) != Accepted
              && r.verdict == Some(RunVerdict(ev.runs[r.passed], tests[r.passed]))
  }

  /** The evidence fixes the result. */
  lemma DeservedIsUnique(tests: seq<TestCase>, ev: Evidence, r: Result, r': Result)
    requires Deserved(tests, ev, r) && Deserved(tests, ev, r')
    ensures r == r'
  {
    if !CompileFailed(ev.compiled.value) {
      PeakIsUnique(r.runtimeMs, r'.runtimeMs, ev.runs, RUNTIME);
      PeakIsUnique(r.memoryKb, r'.memoryKb, ev.runs, MEMORY);
    }
  }

  lemma PeakIsUnique(x: int, y: int, runs: seq<Outcome>, f: Outcome -> int)
    requires IsPeak(x, runs, f) && IsPeak(y, runs, f)
    ensures x == y
  {}

  /** A result is ACCEPTED exactly when every test passed, and there is at least one test. */
  lemma AcceptedIffAllPassed(tests: seq<TestCase>, ev: Evidence, r: Result)
    requires Deserved(tests, ev, r)
    ensures r.verdict.Some?
    ensures r.verdict == Some(Accepted) <==> r.passed == r.total
    ensures 0 < r.total == |tests| && 0 <= r.passed <= r.total
  {}

  // What a verdict says about the program, in terms of the signals and of the tokens alone

  /** The program ended by itself within its limits, and its output has the expected tokens. */
  ghost predicate Solves(out: Outcome, test: TestCase) {
    && !out.oom && !out.outputLimited && !out.timedOut && out.exitCode == 0
    && Canonical(out.output) == Canonical(test.expected)
  }

  /** The first thing that went wrong in a run, in the order of precedence. */
  ghost predicate Signals(out: Outcome, test: TestCase, v: Verdict) {
    match v
    case MemoryLimitExceeded => out.oom
    case OutputLimitExceeded => out.outputLimited && !out.oom
    case TimeLimitExceeded => out.timedOut && !out.oom && !out.outputLimited
    case RuntimeError => out.exitCode != 0 && !out.oom && !out.outputLimited && !out.timedOut
    case WrongAnswer =>
      && !out.oom && !out.outputLimited && !out.timedOut && out.exitCode == 0
      && Canonical(out.output) != Canonical(test.expected)
    case _ => false
  }

  /** The run that decides is the first one that does not solve its test, and the verdict is what it signals. */
  ghost predicate FailsFirst(tests: seq<TestCase>, runs: seq<Outcome>, v: Verdict) {
    && 1 <= |runs| <= |tests|
    && (forall i :: 0 <= i < |runs| - 1 ==> Solves(runs[i], tests[i]))
    && Signals(runs[|runs| - 1], tests[|runs| - 1], v)
  }

  lemma RunVerdictSignals(out: Outcome, test: TestCase)
    ensures RunVerdict(out, test) == Accepted <==> Solves(out, test)
    ensures forall v :: Signals(out, test, v) <==> v == RunVerdict(out, test) != Accepted
  {
    CompareIsCanonicalEquality(out.output, test.expected);
  }

  /**
   The meaning of a deserved verdict: a compilation error if and only if one of the four signals was raised, ACCEPTED if
   and only if the source compiled and each test was solved, and any other one if and only if it is what the first run
   that did not solve its test signals. Passed counts the runs in front of that one,
   and the reported time and memory are peaks over the runs.
   */
  lemma VerdictMeans(tests: seq<TestCase>, ev: Evidence, r: Result)
    requires Deserved(tests, ev, r)
    ensures var c := ev.compiled.value; r.verdict == Some(CompilationError) <==>
              c.exitCode != 0 || c.timedOut || c.oom || c.outputLimited
    ensures r.verdict == Some(CompilationError) ==> ev.runs == [] && r.passed == r.runtimeMs == r.memoryKb == 0
    ensures forall i :: 0 <= i < |ev.runs| ==> ev.runs[i].runtimeMs <= r.runtimeMs && ev.runs[i].memoryKb <= r.memoryKb
    ensures r.runtimeMs == 0 || exists i :: 0 <= i < |ev.runs| && ev.runs[i].runtimeMs == r.runtimeMs
    ensures r.memoryKb == 0 || exists i :: 0 <= i < |ev.runs| && ev.runs[i].memoryKb == r.memoryKb
    ensures r.verdict == Some(Accepted) <==>
              && r.verdict != Some(CompilationError) && |ev.runs| == |tests|
              && forall i :: 0 <= i < |tests| ==> Solves(ev.runs[i], tests[i])
    ensures forall v :: v != CompilationError && v != Accepted ==>
              (r.verdict == Some(v) <==> r.verdict != Some(CompilationError) && FailsFirst(tests, ev.runs, v))
    ensures r.verdict != Some(CompilationError) ==>
              r.passed == if r.verdict == Some(Accepted) then |tests| else |ev.runs| - 1
  {
    if !CompileFailed(ev.compiled.value) {
      forall i | 0 <= i < |ev.runs|
        ensures RunVerdict(ev.runs[i], tests[i]) == Accepted <==> Solves(ev.runs[i], tests[i])
        ensures forall v :: Signals(ev.runs[i], tests[i], v) <==> v == RunVerdict(ev.runs[i], tests[i]) != Accepted {
        RunVerdictSignals(ev.runs[i], tests[i]);
      }
      forall i | 0 <= i < r.passed ensures Solves(ev.runs[i], tests[i]) {
        assert r.verdict != Some(Accepted) ==> ev.runs[..r.passed][i] == ev.runs[i];
      }
    }
  }

  lemma {:induction false} TallyPeaks(tests: seq<TestCase>, runs: seq<Outcome>)
    requires |runs| <= |tests|
    ensures IsPeak(Tally(tests, runs).runtimeMs, runs, RUNTIME)
    ensures IsPeak(Tally(tests, runs).memoryKb, runs, MEMORY)
    ensures Tally(tests, runs).total == |tests|
  {
    if runs != [] {
      var k := |runs| - 1;
      var before := runs[..k];
      TallyPeaks(tests, before);
      PeakExtends(Tally(tests, before).runtimeMs, before, runs[k], RUNTIME);
      PeakExtends(Tally(tests, before).memoryKb, before, runs[k], MEMORY);
      assert before + [runs[k]] == runs;
    }
  }

  lemma PeakExtends(x: int, runs: seq<Outcome>, out: Outcome, f: Outcome -> int)
    requires IsPeak(x, runs, f)
    ensures IsPeak(Max(x, f(out)), runs + [out], f)
  {
    var y, all := Max(x, f(out)), runs + [out];
    forall i | 0 <= i < |all| ensures f(all[i]) <= y {}
    if y != 0 {
      if y == f(out) {
        assert all[|runs|] == out;
      } else {
        var i :| 0 <= i < |runs| && f(runs[i]) == x;
        assert all[i] == runs[i];
      }
    }
  }

  lemma {:induction false} TallyOfPasses(tests: seq<TestCase>, runs: seq<Outcome>)
    requires AllPass(tests, runs)
    ensures Tally(tests, runs).passed == |runs| && Tally(tests, runs).verdict == Some(Accepted)
  {
    if runs != [] {
      var k := |runs| - 1;
      assert AllPass(tests, runs[..k]);
      TallyOfPasses(tests, runs[..k]);
    }
  }

  lemma AllPassExtends(tests: seq<TestCase>, runs: seq<Outcome>, out: Outcome)
    requires AllPass(tests, runs) && |runs| < |tests|
    requires RunVerdict(out, tests[|runs|]) == Accepted
    ensures AllPass(tests, runs + [out])
  {}

  /** Where the loop stops, every run but the last has passed, and the last decides. */
  lemma LastRunDecides(tests: seq<TestCase>, runs: seq<Outcome>)
    requires runs != [] && |runs| <= |tests| && AllPass(tests, runs[..|runs| - 1])
    ensures var r, k := Tally(tests, runs), |runs| - 1; var v := RunVerdict(runs[k], tests[k]);
      && r.verdict == Some(v) && r.passed == (if v == Accepted then |runs| else k)
      && (v == Accepted ==> AllPass(tests, runs))
  {
    var k := |runs| - 1;
    TallyOfPasses(tests, runs[..k]);
    if RunVerdict(runs[k], tests[k]) == Accepted {
      AllPassExtends(tests, runs[..k], runs[k]);
      assert runs[..k] + [runs[k]] == runs;
    }
  }

  /** When the loop stops after these runs, its running result is the deserved one. */
  lemma TallyIsDeserved(tests: seq<TestCase>, ev: Evidence)
    requires ev.compiled.Some? && !CompileFailed(ev.compiled.value)
    requires ev.runs != [] && |ev.runs| <= |tests| && AllPass(tests, ev.runs[..|ev.runs| - 1])
    requires |ev.runs| == |tests| || Tally(tests, ev.runs).verdict != Some(Accepted)
    ensures Deserved(tests, ev, Tally(tests, ev.runs))
  {
    TallyPeaks(tests, ev.runs);
    LastRunDecides(tests, ev.runs);
  }

  // What the sandbox accepts

  predicate Executable(language: string, source: string, problem: Problem) {
    && (language == "python" || language == "cpp")
    && 1 <= Utf8Length(source) <= 65536
    && 100 <= problem.timeLimitMs <= 10000
  }

  predicate MemoryInRange(memoryMb: int) {
    32 <= memoryMb <= 512
  }

  /** Evaluate refuses a job without tests, and Open one whose language or limits it does not support. */
  predicate Openable(language: string, source: string, problem: Problem) {
    problem.tests != [] && Executable(language, source, problem) && MemoryInRange(problem.memoryLimitMb)
  }

  /** Run refuses longer inputs. */
  predicate Fits(test: TestCase) {
    Utf8Length(test.input) <= 65536
  }

  // The evaluation as a machine: where Engine.Evaluate stands between two calls.

  datatype Stage =
    | Opening              // about to open the sandbox
    | EnterCompile         // about to persist COMPILING
    | InCompile            // about to compile
    | EnterRun             // about to persist RUNNING
    | InTests(r: Result)   // at the head of the test loop
    | Closing(r: Result)   // verdict known, sandbox still open
    | Done(r: Result)      // returned without an error
    | Broken               // returned with an error

  /** What the sandbox reported. */
  datatype Sight = Opened | CompileSeen(out: Outcome) | RunSeen(out: Outcome) | Closed | Trouble

  predicate CanSee(tests: seq<TestCase>, stage: Stage, sight: Sight) {
    match stage
    case Opening => sight == Trouble || (sight == Opened && tests != [])
    case InCompile => sight == Trouble || sight.CompileSeen?
    case InTests(r) => sight == Trouble || sight.RunSeen?
    case Closing(r) => sight == Trouble || sight == Closed
    case _ => false
  }

  function Note(ev: Evidence, sight: Sight): Evidence {
    match sight
    case CompileSeen(out) => ev.(compiled := Some(out))
    case RunSeen(out) => ev.(runs := ev.runs + [out])
    case _ => ev
  }

  function See(tests: seq<TestCase>, stage: Stage, sight: Sight): Stage
    requires CanSee(tests, stage, sight)
    requires stage.InTests? ==> 0 <= stage.r.passed < |tests|
  {
    match sight
    case Trouble => Broken
    case Opened => EnterCompile
    case CompileSeen(out) =>
      if CompileFailed(out) then Closing(Blank(|tests|).(verdict := Some(CompilationError))) else EnterRun
    case RunSeen(out) =>
      var r := AfterRun(stage.r, out, tests[stage.r.passed]);
      if r.verdict != Some(Accepted) || r.passed == |tests| then Closing(r) else InTests(r)
    case Closed => Done(stage.r)
  }

  /** The evidence gathered by the time a stage is reached, and what it says about the result. */
  ghost predicate Coherent(tests: seq<TestCase>, stage: Stage, ev: Evidence) {
    match stage
    case Opening => ev == NO_EVIDENCE
    case EnterCompile => ev == NO_EVIDENCE && tests != []
    case InCompile => ev == NO_EVIDENCE && tests != []
    case EnterRun => tests != [] && ev.runs == [] && ev.compiled.Some? && !CompileFailed(ev.compiled.value)
    case InTests(r) =>
      && ev.compiled.Some? && !CompileFailed(ev.compiled.value)
      && |ev.runs| < |tests| && AllPass(tests, ev.runs)
      && r == Tally(tests, ev.runs) && r.passed == |ev.runs|
    case Closing(r) => Deserved(tests, ev, r)
    case Done(r) => Deserved(tests, ev, r)
    case Broken => true
  }

  lemma TallyOfOneMore(tests: seq<TestCase>, runs: seq<Outcome>, out: Outcome)
    requires |runs| < |tests|
    ensures Tally(tests, runs + [out]) == AfterRun(Tally(tests, runs), out, tests[|runs|])
  {
    assert (runs + [out])[..|runs|] == runs;
  }

  /** One more run: the loop goes on with one more passed test, or stops with the deserved result. */
  lemma RunKeepsCoherence(tests: seq<TestCase>, stage: Stage, ev: Evidence, out: Outcome)
    requires stage.InTests? && Coherent(tests, stage, ev)
    ensures Coherent(tests, See(tests, stage, RunSeen(out)), Note(ev, RunSeen(out)))
  {
    TallyOfOneMore(tests, ev.runs, out);
    var r := Tally(tests, ev.runs + [out]);
    if r.verdict != Some(Accepted) || r.passed == |tests| {
      StoppedIsDeserved(tests, ev, out);
    } else {
      AllPassExtends(tests, ev.runs, out);
    }
  }

  lemma StoppedIsDeserved(tests: seq<TestCase>, ev: Evidence, out: Outcome)
    requires ev.compiled.Some? && !CompileFailed(ev.compiled.value)
    requires |ev.runs| < |tests| && AllPass(tests, ev.runs)
    requires var r := Tally(tests, ev.runs + [out]); r.verdict != Some(Accepted) || r.passed == |tests|
    ensures Deserved(tests, ev.(runs := ev.runs + [out]), Tally(tests, ev.runs + [out]))
  {
    var ev' := ev.(runs := ev.runs + [out]);
    assert ev'.runs[..|ev.runs|] == ev.runs;
    TallyOfPasses(tests, ev.runs);
    TallyIsDeserved(tests, ev');
  }

  lemma SeeingKeepsCoherence(tests: seq<TestCase>, stage: Stage, ev: Evidence, sight: Sight)
    requires Coherent(tests, stage, ev) && CanSee(tests, stage, sight)
    ensures Coherent(tests, See(tests, stage, sight), Note(ev, sight))
  {
    if sight.RunSeen? {
      RunKeepsCoherence(tests, stage, ev, sight.out);
    }
  }

  /** Entering the test loop starts from an empty tally. */
  lemma LoopStarts(tests: seq<TestCase>, ev: Evidence)
    requires Coherent(tests, EnterRun, ev)
    ensures Coherent(tests, InTests(Tally(tests, [])), ev)
  {}

  // RetryDelay

  /** time.Second << min(attempt - 1, 6), in milliseconds. */
  function RetryDelay(attempt: int): Time {
    1000 * Shift(Min(if attempt < 1 then 0 else attempt - 1, 6))
  }

  function Shift(k: nat): nat {
    if k == 0 then 1 else 2 * Shift(k - 1)
  }

  const RETRY_LIMIT: Time := 5 * 60 * 1000

  /** The delay doubles up to 64 seconds and always lies in the range that Retry accepts. */
  lemma RetryDelayBounds(a: int, b: int)
    requires a <= b
    ensures 1000 <= RetryDelay(a) <= RetryDelay(b) <= 64000 < RETRY_LIMIT
    ensures 1 <= a < b <= 7 ==> RetryDelay(b) >= 2 * RetryDelay(a)
    ensures b >= 7 ==> RetryDelay(b) == 64000
  {
    ShiftGrows(Min(if a < 1 then 0 else a - 1, 6), Min(if b < 1 then 0 else b - 1, 6));
    ShiftGrows(Min(if b < 1 then 0 else b - 1, 6), 6);
    ShiftGrows(0, Min(if a < 1 then 0 else a - 1, 6));
    assert Shift(6) == 2 * Shift(5) && Shift(5) == 2 * Shift(4) && Shift(4) == 2 * Shift(3) && Shift(3) == 8;
  }

  lemma {:induction false} ShiftGrows(j: nat, k: nat)
    requires j <= k
    ensures 1 <= Shift(j) <= Shift(k)
    ensures j < k ==> 2 * Shift(j) <= Shift(k)
  {
    if j < k {
      ShiftGrows(j, k - 1);
    } else if j > 0 {
      ShiftGrows(j - 1, k - 1);
    }
  }
}
