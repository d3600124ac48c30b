/**
 internal/judge/engine.go and cmd/worker/main.go: Engine.Evaluate, Worker.Handle and the consumer loop, running against
 a cluster that everyone else keeps changing, and against a daemon that may fail at any command.
 */
module Engine {
  import opened Basics
  import opened Lifecycle
  import opened Judging
  import opened Queue
  import opened Protocol
  import opened Invariant
  import opened Safety
  import opened Answers
  import opened Deployment
  import opened Docker

  /** What running test k of a job means: its own input, within the job's limits. */
  function Trial(job: Job, k: nat): Execution
    requires k < |job.problem.tests|
  {
    Execution(job.problem.memoryLimitMb, job.problem.timeLimitMs, job.problem.tests[k].input)
  }

  /** The first k tests, in order. */
  function Trials(job: Job, k: int): (ran: seq<Execution>)
    ensures |ran| == Max(0, Min(k, |job.problem.tests|))
    ensures forall i :: 0 <= i < |ran| ==> ran[i] == Trial(job, i)
  {
    seq(Max(0, Min(k, |job.problem.tests|)), i requires 0 <= i < |job.problem.tests| => Trial(job, i))
  }

  lemma OneMoreTrial(since: seq<Execution>, job: Job, k: nat)
    requires k < |job.problem.tests|
    ensures since + Trials(job, k) + [Trial(job, k)] == since + Trials(job, k + 1)
  {
    assert Trials(job, k + 1) == Trials(job, k) + [Trial(job, k)];
  }

  /** One turn of the consumer: whether a message was handled, what went wrong, and whether the pool was cancelled. */
  datatype Turn = Turn(handling: bool, err: Option<Error>, cancelled: bool)

  /** The consumer goes on when nothing went wrong, nothing was there, or others have the submission. */
  predicate GoesOn(t: Turn) {
    || t.err == None
    || (!t.handling && t.err == Some(Empty))
    || (t.handling && !t.cancelled && (t.err == Some(Busy) || t.err == Some(Stale)))
  }

  class Worker {
    const id: string
    const lease: Time
    const maxDeliveries: int
    const cluster: Cluster
    const daemon: Daemon

    constructor (id: string, lease: Time, maxDeliveries: int, cluster: Cluster, daemon: Daemon)
      requires id != "" && lease > 0
      ensures this.id == id && this.lease == lease && this.maxDeliveries == maxDeliveries
      ensures this.cluster == cluster && this.daemon == daemon
    {
      this.id, this.lease, this.maxDeliveries, this.cluster, this.daemon := id, lease, maxDeliveries, cluster, daemon;
    }

    ghost function At(): Protocol.Worker
      reads this, cluster, cluster.store, cluster.stream
    {
      WorkerAt(cluster.St(), id)
    }

    ghost predicate Valid()
      reads this, cluster, cluster.store, cluster.stream, daemon
    {
      cluster.Valid() && daemon.Valid() && id != "" && lease > 0
    }

    /** Holding the job of one delivery at some stage. */
    ghost predicate Holds(d: Delivery, job: Job, stage: Stage)
      reads this, cluster, cluster.store, cluster.stream
    {
      At() == Holding(d, job, Limit(maxDeliveries), stage)
    }

    // One remote call each, after whatever everyone else did since the last one

    method Persist(job: Job, ghost d: Delivery, ghost stage: Stage, to: Status) returns (ok: bool)
      requires Valid() && Holds(d, job, stage)
      requires (stage == EnterCompile && to == Compiling) || (stage == EnterRun && to == Running)
      modifies cluster, cluster.store, cluster.stream
      ensures Valid() && old(cluster.history) <= cluster.history
      ensures Holds(d, job, if ok then Entered(job.problem.tests, stage) else Broken)
    {
      var _ := cluster.Interfere(id);
      var reply, _ := cluster.Transition(id, job.attempt, to);
      ok := reply.Ok?;
    }

    ghost method Sees(job: Job, d: Delivery, stage: Stage, sight: Sight)
      requires Valid() && Holds(d, job, stage)
      requires CanSee(job.problem.tests, stage, sight)
      requires stage.InTests? ==> 0 <= stage.r.passed < |job.problem.tests|
      modifies cluster
      ensures Valid() && old(cluster.history) <= cluster.history
      ensures Holds(d, job, See(job.problem.tests, stage, sight))
    {
      var _ := cluster.Look(id, sight);
    }

    /** The tests that a result speaks of: the passed ones and the one that failed. */
    ghost function Tried(r: Result): int {
      if r.verdict == Some(CompilationError) then 0 else if r.verdict == Some(Accepted) then r.passed else r.passed + 1
    }

    /** Compile first, then the tests in order up to the first failure; the sandbox is closed on every path. */
    method Evaluate(job: Job, ghost d: Delivery) returns (reply: Reply<Result>)
      requires Valid() && Holds(d, job, Opening)
      modifies cluster, cluster.store, cluster.stream, daemon
      ensures Valid() && old(cluster.history) <= cluster.history
      ensures Holds(d, job, if reply.Ok? then Done(reply.value) else Broken)
      ensures reply.Ok? ==> daemon.live == old(daemon.live)
      ensures reply.Ok? ==>
        && job.problem.tests != [] && (job.language == "python" || job.language == "cpp")
        && 1 <= Utf8Length(job.source) <= 65536
        && 100 <= job.problem.timeLimitMs <= 10000 && 32 <= job.problem.memoryLimitMb <= 512
      ensures reply.Ok? ==>
        daemon.executed == old(daemon.executed) + [Execution(256, 15 * 1000, "")] + Trials(job, Tried(reply.value))
      ensures Accounted(old(daemon.live), old(daemon.born), daemon, {})
      ensures daemon.peak <= Max(old(daemon.peak), |old(daemon.live)| + 1)
    {
      ghost var base, bornBefore := daemon.live, daemon.born;
      var box := Begin(job, d);
      if box.Err? {
        return Err(box.error);
      }
      var scored := Score(job, d, box.value, base, bornBefore);
      reply := End(job, d, box.value, base, bornBefore, scored);
    }

    method Begin(job: Job, ghost d: Delivery) returns (box: Reply<Sandbox>)
      requires Valid() && Holds(d, job, Opening)
      modifies cluster, daemon
      ensures Valid() && old(cluster.history) <= cluster.history
      ensures Holds(d, job, if box.Ok? then EnterCompile else Broken)
      ensures box.Err? ==> Accounted(old(daemon.live), old(daemon.born), daemon, {})
      ensures box.Ok? ==>
        && job.problem.tests != [] && (job.language == "python" || job.language == "cpp")
        && 1 <= Utf8Length(job.source) <= 65536
        && 100 <= job.problem.timeLimitMs <= 10000 && 32 <= job.problem.memoryLimitMb <= 512
      ensures box.Ok? ==> fresh(box.value) && box.value.d == daemon && box.value.compile.Some?
      ensures box.Ok? ==> box.value.Holds(old(daemon.live), old(daemon.born)) && IsFor(box.value, job)
      ensures daemon.executed == old(daemon.executed)
      ensures daemon.peak <= Max(old(daemon.peak), |old(daemon.live)| + 1)
    {
      box := Err(Invalid);
      if job.problem.tests != [] {
        var validImage: bool := *;
        box := Docker.Open(daemon, job, validImage);
      }
      Sees(job, d, Opening, if box.Ok? then Opened else Trouble);
    }

    /** The deferred close: its failure turns a result into an error. */
    method End(job: Job, ghost d: Delivery, s: Sandbox, ghost base: set<Name>, ghost bornBefore: set<Name>,
               scored: Reply<Result>)
        returns (reply: Reply<Result>)
      requires Valid() && Holds(d, job, if scored.Ok? then Closing(scored.value) else Broken)
      requires s.d == daemon && Accounted(base, bornBefore, daemon, s.Held())
      requires scored.Ok? ==> s.Holds(base, bornBefore)
      modifies cluster, daemon, s
      ensures Valid() && old(cluster.history) <= cluster.history
      ensures Holds(d, job, if reply.Ok? then Done(reply.value) else Broken)
      ensures reply.Ok? ==> daemon.live == base
      ensures reply.Ok? ==> reply == scored
      ensures Accounted(base, bornBefore, daemon, {}) && daemon.peak == old(daemon.peak)
      ensures daemon.executed == old(daemon.executed)
    {
      var closed := s.Close(base, bornBefore);
      if scored.Ok? {
        Sees(job, d, Closing(scored.value), if closed then Closed else Trouble);
      }
      reply := if closed then scored else Err(Unavailable);
    }

    /** The part of Evaluate between opening and closing the sandbox. */
    method Score(job: Job, ghost d: Delivery, s: Sandbox, ghost base: set<Name>, ghost bornBefore: set<Name>)
        returns (reply: Reply<Result>)
      requires Valid() && Holds(d, job, EnterCompile) && job.problem.tests != []
      requires s.d == daemon && s.compile.Some? && s.Holds(base, bornBefore) && IsFor(s, job)
      modifies cluster, cluster.store, cluster.stream, daemon, s
      ensures Valid() && old(cluster.history) <= cluster.history
      ensures Holds(d, job, if reply.Ok? then Closing(reply.value) else Broken)
      ensures reply.Ok? ==>
        daemon.executed == old(daemon.executed) + [Execution(256, 15 * 1000, "")] + Trials(job, Tried(reply.value))
      ensures Accounted(base, bornBefore, daemon, s.Held())
      ensures reply.Ok? ==> s.Holds(base, bornBefore)
      ensures daemon.peak <= Max(old(daemon.peak), |base| + 1)
    {
      var compiled := CompileSource(job, d, s, base, bornBefore);
      if compiled.Err? {
        return Err(compiled.error);
      }
      if compiled.value.verdict == Some(CompilationError) {
        return compiled;
      }
      reply := RunProgram(job, d, s, base, bornBefore, compiled.value);
    }

    /** A result without a verdict means that the source compiled. */
    method CompileSource(job: Job, ghost d: Delivery, s: Sandbox, ghost base: set<Name>, ghost bornBefore: set<Name>)
        returns (reply: Reply<Result>)
      requires Valid() && Holds(d, job, EnterCompile) && job.problem.tests != []
      requires s.d == daemon && s.compile.Some? && s.Holds(base, bornBefore)
      modifies cluster, cluster.store, cluster.stream, daemon, s
      ensures Valid() && old(cluster.history) <= cluster.history
      ensures Holds(d, job, if reply.Err? then Broken
                            else if reply.value.verdict == Some(CompilationError) then Closing(reply.value)
                                else EnterRun)
      ensures reply.Ok? && reply.value.verdict != Some(CompilationError) ==>
                s.compile == None && reply.value == Blank(|job.problem.tests|)
      ensures s.Holds(base, bornBefore) && daemon.peak == old(daemon.peak)
      ensures reply.Ok? ==> daemon.executed == old(daemon.executed) + [Execution(256, 15 * 1000, "")]
    {
      var result := Result(None, 0, 0, 0, |job.problem.tests|);
      var ok := Persist(job, d, EnterCompile, Compiling);
      if !ok {
        return Err(Unavailable);
      }
      var compiled := CompileOnce(job, d, s, base, bornBefore);
      if compiled.Err? {
        return Err(compiled.error);
      }
      var out := compiled.value;
      if out.exitCode != 0 || out.timedOut || out.oom || out.outputLimited {
        result := result.(verdict := Some(CompilationError));
      }
      reply := Ok(result);
    }

    /** The compilation, and what the worker notes of it. */
    method CompileOnce(job: Job, ghost d: Delivery, s: Sandbox, ghost base: set<Name>, ghost bornBefore: set<Name>)
        returns (compiled: Reply<Outcome>)
      requires Valid() && Holds(d, job, InCompile) && s.d == daemon && s.compile.Some? && s.Holds(base, bornBefore)
      modifies cluster, daemon, s
      ensures Valid() && old(cluster.history) <= cluster.history
      ensures Holds(d, job, if compiled.Err? then Broken
                            else See(job.problem.tests, InCompile, CompileSeen(compiled.value)))
      ensures compiled.Ok? && !CompileFailed(compiled.value) ==> s.compile == None
      ensures s.Holds(base, bornBefore) && daemon.peak == old(daemon.peak)
      ensures daemon.executed == old(daemon.executed) + [Execution(256, 15 * 1000, "")]
    {
      compiled := s.Compile(base, bornBefore);
      Sees(job, d, InCompile, if compiled.Err? then Trouble else CompileSeen(compiled.value));
    }

    method RunProgram(job: Job, ghost d: Delivery, s: Sandbox, ghost base: set<Name>, ghost bornBefore: set<Name>,
                      blank: Result) returns (reply: Reply<Result>)
      requires Valid() && Holds(d, job, EnterRun) && job.problem.tests != [] && blank == Blank(|job.problem.tests|)
      requires s.d == daemon && s.compile == None && s.Holds(base, bornBefore) && IsFor(s, job)
      modifies cluster, cluster.store, cluster.stream, daemon
      ensures Valid() && old(cluster.history) <= cluster.history
      ensures Holds(d, job, if reply.Ok? then Closing(reply.value) else Broken)
      ensures reply.Ok? ==> daemon.executed == old(daemon.executed) + Trials(job, Tried(reply.value))
      ensures reply.Ok? ==> reply.value.verdict.Some? && reply.value.verdict != Some(CompilationError)
      ensures Accounted(base, bornBefore, daemon, s.Held()) && (reply.Ok? ==> s.Holds(base, bornBefore))
      ensures daemon.peak <= Max(old(daemon.peak), |base| + 1)
    {
      var ok := Persist(job, d, EnterRun, Running);
      if !ok {
        return Err(Unavailable);
      }
      reply := RunTests(job, d, s, base, bornBefore, blank.(verdict := Some(Accepted)));
    }

    /** The test loop: the tests in order, up to the first failure. */
    method RunTests(job: Job, ghost d: Delivery, s: Sandbox, ghost base: set<Name>, ghost bornBefore: set<Name>,
                    first: Result) returns (reply: Reply<Result>)
      requires Testing(job, d, s, base, bornBefore, 0, Ok(first))
      requires job.problem.tests != [] && first.verdict == Some(Accepted) && IsFor(s, job)
      modifies cluster, cluster.store, cluster.stream, daemon
      ensures Valid() && old(cluster.history) <= cluster.history
      ensures Holds(d, job, if reply.Ok? then Closing(reply.value) else Broken)
      ensures reply.Ok? ==> daemon.executed == old(daemon.executed) + Trials(job, Tried(reply.value))
      ensures reply.Ok? ==> reply.value.verdict.Some? && reply.value.verdict != Some(CompilationError)
      ensures Accounted(base, bornBefore, daemon, s.Held()) && (reply.Ok? ==> s.Holds(base, bornBefore))
      ensures daemon.peak <= Max(old(daemon.peak), |base| + 1)
    {
      var k := 0;
      ghost var since := daemon.executed;
      reply := Ok(first);
      NothingTriedYet(job, d, s, base, bornBefore, first);
      while k < |job.problem.tests| && reply.Ok? && reply.value.verdict == Some(Accepted)
        invariant 0 <= k <= |job.problem.tests|
        invariant Trying(job, d, s, base, bornBefore, since, k, reply)
        invariant old(cluster.history) <= cluster.history && daemon.peak <= Max(old(daemon.peak), |base| + 1)
      {
        reply := RunTest(job, d, s, base, bornBefore, k, reply.value, since);
        k := k + 1;
      }
      AllTried(job, d, s, base, bornBefore, since, k, reply);
    }

    /** Since then, exactly the first k tests were run, and the result speaks of them. */
    ghost predicate HasTried(since: seq<Execution>, job: Job, k: nat, r: Result)
      reads daemon
    {
      && k <= |job.problem.tests| && daemon.executed == since + Trials(job, k)
      && r.verdict.Some? && r.verdict != Some(CompilationError) && Tried(r) == k
    }

    ghost predicate Trying(job: Job, d: Delivery, s: Sandbox, base: set<Name>, bornBefore: set<Name>,
                           since: seq<Execution>, k: nat, reply: Reply<Result>)
      reads this, cluster, cluster.store, cluster.stream, daemon, s, s.d
    {
      Testing(job, d, s, base, bornBefore, k, reply) && (reply.Ok? ==> HasTried(since, job, k, reply.value))
    }

    lemma NothingTriedYet(job: Job, d: Delivery, s: Sandbox, base: set<Name>, bornBefore: set<Name>, first: Result)
      requires Testing(job, d, s, base, bornBefore, 0, Ok(first)) && first.verdict == Some(Accepted)
      ensures Trying(job, d, s, base, bornBefore, daemon.executed, 0, Ok(first))
    {
      AppendNothing(daemon.executed);
    }

    lemma AllTried(job: Job, d: Delivery, s: Sandbox, base: set<Name>, bornBefore: set<Name>, since: seq<Execution>,
                   k: nat, reply: Reply<Result>)
      requires Trying(job, d, s, base, bornBefore, since, k, reply)
      requires k == |job.problem.tests| || reply.Err? || reply.value.verdict != Some(Accepted)
      ensures Valid() && Holds(d, job, if reply.Ok? then Closing(reply.value) else Broken)
      ensures reply.Ok? ==> daemon.executed == since + Trials(job, Tried(reply.value))
      ensures reply.Ok? ==> reply.value.verdict.Some? && reply.value.verdict != Some(CompilationError)
      ensures Accounted(base, bornBefore, daemon, s.Held()) && (reply.Ok? ==> s.Holds(base, bornBefore))
    {
    }

    /** Where the loop stands after k tests: done with an error, with a verdict, or about to run the next one. */
    ghost function Standing(job: Job, k: int, reply: Reply<Result>): Stage {
      if reply.Err? then Broken
      else if reply.value.verdict != Some(Accepted) || k == |job.problem.tests| then Closing(reply.value)
      else InTests(reply.value)
    }

    ghost predicate Testing(job: Job, d: Delivery, s: Sandbox, base: set<Name>, bornBefore: set<Name>, k: int,
                            reply: Reply<Result>)
      reads this, cluster, cluster.store, cluster.stream, daemon, s, s.d
    {
      && Valid() && Holds(d, job, Standing(job, k, reply)) && s.d == daemon && s.compile == None
      && (reply.Ok? && reply.value.verdict == Some(Accepted) ==> reply.value.passed == k)
      && Accounted(base, bornBefore, daemon, {}) && (reply.Ok? ==> s.Holds(base, bornBefore))
    }

    method RunTest(job: Job, ghost d: Delivery, s: Sandbox, ghost base: set<Name>, ghost bornBefore: set<Name>,
                   k: nat, result: Result, ghost since: seq<Execution>) returns (reply: Reply<Result>)
      requires k < |job.problem.tests| && result.verdict == Some(Accepted)
      requires Trying(job, d, s, base, bornBefore, since, k, Ok(result)) && IsFor(s, job)
      modifies cluster, cluster.store, cluster.stream, daemon
      ensures Trying(job, d, s, base, bornBefore, since, k + 1, reply)
      ensures old(cluster.history) <= cluster.history && daemon.peak <= Max(old(daemon.peak), |base| + 1)
    {
      var test := job.problem.tests[k];
      var ran := RunOnce(job, d, s, base, bornBefore, test.input, result);
      if ran.Err? {
        return Err(ran.error);
      }
      var next := Judged(result, ran.value, test);
      SeenIsStanding(job, k, result, ran.value, next);
      OneMoreTrial(since, job, k);
      reply := Ok(next);
    }

    /** One run, and what the worker notes of it. */
    method RunOnce(job: Job, ghost d: Delivery, s: Sandbox, ghost base: set<Name>, ghost bornBefore: set<Name>,
                   input: string, ghost result: Result) returns (ran: Reply<Outcome>)
      requires Valid() && Holds(d, job, InTests(result)) && 0 <= result.passed < |job.problem.tests|
      requires s.d == daemon && s.compile == None && s.Holds(base, bornBefore)
      modifies cluster, daemon
      ensures Valid() && old(cluster.history) <= cluster.history
      ensures Holds(d, job, if ran.Err? then Broken else See(job.problem.tests, InTests(result), RunSeen(ran.value)))
      ensures Accounted(base, bornBefore, daemon, {}) && (ran.Ok? ==> s.Holds(base, bornBefore))
      ensures ran.Ok? ==> daemon.executed == old(daemon.executed) + [Execution(s.memoryMb, s.limitMs, input)]
      ensures daemon.peak <= Max(old(daemon.peak), |base| + 1)
    {
      ran := s.Run(input, base, bornBefore);
      Sees(job, d, InTests(result), if ran.Err? then Trouble else RunSeen(ran.value));
    }

    /** The stage that the protocol sees and the place where the loop stands are the same. */
    lemma SeenIsStanding(job: Job, k: nat, result: Result, out: Outcome, next: Result)
      requires k < |job.problem.tests| && result.verdict == Some(Accepted) && result.passed == k
      requires next == AfterRun(result, out, job.problem.tests[k])
      ensures See(job.problem.tests, InTests(result), RunSeen(out)) == Standing(job, k + 1, Ok(next))
      ensures next.verdict == Some(Accepted) ==> next.passed == k + 1
      ensures next.verdict.Some? && next.verdict != Some(CompilationError) && Tried(next) == Tried(result) + 1
    {
    }

    /** The updates of result within one turn of the test loop. */
    method Judged(before: Result, out: Outcome, test: TestCase) returns (result: Result)
      requires before.verdict == Some(Accepted)
      ensures result == AfterRun(before, out, test)
      ensures result.verdict.Some? && if result.verdict == Some(Accepted) then Solves(out, test)
                                      else Signals(out, test, result.verdict.value)
      ensures result.passed == before.passed + if Solves(out, test) then 1 else 0
      ensures result.runtimeMs == Max(before.runtimeMs, out.runtimeMs) && result.total == before.total
      ensures result.memoryKb == Max(before.memoryKb, out.memoryKb)
    {
      RunVerdictSignals(out, test);
      result := before.(runtimeMs := Max(before.runtimeMs, out.runtimeMs));
      result := result.(memoryKb := Max(result.memoryKb, out.memoryKb));
      if out.oom {
        result := result.(verdict := Some(MemoryLimitExceeded));
      } else if out.outputLimited {
        result := result.(verdict := Some(OutputLimitExceeded));
      } else if out.timedOut {
        result := result.(verdict := Some(TimeLimitExceeded));
      } else if out.exitCode != 0 {
        result := result.(verdict := Some(RuntimeError));
      } else if !Tokens.Compare(out.output, test.expected) {
        result := result.(verdict := Some(WrongAnswer));
      }
      if result.verdict == Some(Accepted) {
        result := result.(passed := result.passed + 1);
      }
    }

    // Worker.Handle

    ghost predicate IsFinal(s: SubmissionId)
      reads cluster, cluster.store, cluster.stream
    {
      FinalIn(cluster.St(), s)
    }

    ghost predicate IsDead(s: SubmissionId)
      reads cluster, cluster.store, cluster.stream
    {
      DeadEntryFor(cluster.St(), s)
    }

    /** The message was copied to the dead stream, with so many deliveries. */
    ghost predicate IsBuried(d: Delivery, deliveries: int)
      reads cluster, cluster.store, cluster.stream
    {
      exists k :: 0 <= k < |cluster.St().mq.dead| && IsCopy(cluster.St().mq.dead[k], d, deliveries)
    }

    /** An attempt of this worker at the submission, not among the given ones, has ended with a transient failure. */
    ghost predicate PutBackSince(s: SubmissionId, before: set<AttemptId>)
      reads this, cluster, cluster.store, cluster.stream
    {
      exists a :: a !in before && IsPutBack(cluster.St(), s, a, id)
    }

    ghost predicate Gone(d: Delivery)
      reads cluster, cluster.store, cluster.stream
    {
      !Unacked(cluster.St().mq, d.message)
    }

    /** A message leaves the pending list only for one of these reasons. */
    ghost predicate Answered(d: Delivery, before: set<AttemptId>)
      reads this, cluster, cluster.store, cluster.stream
    {
      Gone(d) && (IsFinal(d.submission) || IsDead(d.submission) || PutBackSince(d.submission, before))
    }

    method Acknowledge(d: Delivery, ghost a: AttemptId) returns (err: Option<Error>)
      requires Valid() && At() == Acking(d)
      modifies cluster, cluster.store, cluster.stream
      ensures Valid() && old(cluster.history) <= cluster.history && At() == Idle
      ensures err == None ==> Gone(d)
      ensures old(IsFinal(d.submission)) ==> IsFinal(d.submission)
      ensures old(IsPutBack(cluster.St(), d.submission, a, id)) ==> IsPutBack(cluster.St(), d.submission, a, id)
    {
      Pause(d, a);
      ghost var before := cluster.St();
      var reply, act := cluster.Ack(id, d.message);
      AckKeepsRows(before, act);
      err := if reply.Ok? then None else Some(reply.error);
    }

    /** Everyone else goes on; they take back neither a verdict nor the failure of an attempt. */
    method Pause(d: Delivery, ghost a: AttemptId)
      requires Valid()
      modifies cluster, cluster.store, cluster.stream
      ensures Valid() && old(cluster.history) <= cluster.history && At() == old(At())
      ensures old(IsFinal(d.submission)) ==> IsFinal(d.submission)
      ensures old(IsPutBack(cluster.St(), d.submission, a, id)) ==> IsPutBack(cluster.St(), d.submission, a, id)
    {
      cluster.ValidIsInv();
      ghost var before := cluster.St();
      ghost var others := cluster.Interfere(id);
      FinalStays(before, others, cluster.St(), d.submission);
      PutBackStays(before, others, cluster.St(), d.submission, a, id);
    }

    method DeadLetter(d: Delivery) returns (err: Option<Error>)
      requires Valid() && At() == Burying(d)
      modifies cluster, cluster.store, cluster.stream
      ensures Valid() && old(cluster.history) <= cluster.history && At() == Idle
      ensures err == None ==> Gone(d) && IsDead(d.submission) && IsBuried(d, d.deliveries)
    {
      var _ := cluster.Interfere(id);
      ghost var dead := cluster.St().mq.dead;
      var reply, _ := cluster.DeadLetter(id, d, REASON);
      assert reply.Ok? ==> IsCopy(cluster.St().mq.dead[|dead|], d, d.deliveries);
      err := if reply.Ok? then None else Some(reply.error);
    }

    /** Everyone else goes on; no attempt disappears. */
    method Wait()
      requires Valid()
      modifies cluster, cluster.store, cluster.stream
      ensures Valid() && old(cluster.history) <= cluster.history && At() == old(At())
      ensures old(cluster.St()).db.attempts.Keys <= cluster.St().db.attempts.Keys
    {
      cluster.ValidIsInv();
      ghost var before := cluster.St();
      ghost var others := cluster.Interfere(id);
      AttemptsStay(before, others, cluster.St());
    }

    /** The action happened in this state, and the record had at least so many actions by then. */
    ghost predicate OnRecord(at: State, act: Action, since: nat)
      reads cluster
    {
      exists i :: since <= i < |cluster.history| && cluster.history[i] == act &&
          Protocol.Run(EMPTY, cluster.history[..i], at)
    }

    /** This worker's claim was answered, and the row that it found was contended by then. */
    ghost predicate FoundContended(at: State, claim: Action, s: SubmissionId) {
      claim.Claim? && claim.w == id && claim.fault == Clean && s in at.db.submissions &&
          Contended(at.db.submissions[s], claim.localNow)
    }

    /** The claim happened in state at; when it is answered, the answer is the one that the row calls for. */
    method Claim(d: Delivery) returns (reply: Reply<Job>, ghost at: State, ghost claim: Action)
      requires Valid() && At() == Received(d)
      modifies cluster, cluster.store, cluster.stream
      ensures Valid() && old(cluster.history) <= cluster.history
      ensures OnRecord(at, claim, |old(cluster.history)|) && claim.Claim? && claim.w == id && claim.lease == lease
      ensures claim.fault == Clean ==>
        && d.submission in at.db.submissions
        && ClaimGets(at.db.submissions[d.submission], d.submission, claim.attempt, claim.localNow, reply)
      ensures reply.Ok? ==> Holds(d, reply.value, Opening) && reply.value.attempt !in old(cluster.St()).db.attempts
      ensures reply == Err(AlreadyTerminal(true)) ==> At() == Burying(d)
      ensures reply == Err(AlreadyTerminal(false)) ==> At() == Acking(d) && IsFinal(d.submission)
      ensures reply.Err? && !reply.error.AlreadyTerminal? ==> At() == Idle
    {
      Wait();
      at := cluster.St();
      cluster.ValidIsInv();
      ghost var record := cluster.history;
      reply, claim := cluster.Claim(id, d, lease, maxDeliveries);
      ClaimDecidesSafely(at, claim);
      assert cluster.history[..|record|] == record;
    }

    /** The evaluation failed: retry the submission, or give it up once it has used its attempts. */
    method Settle(d: Delivery, job: Job) returns (err: Option<Error>)
      requires Valid() && Holds(d, job, Broken)
      modifies cluster, cluster.store, cluster.stream
      ensures Valid() && old(cluster.history) <= cluster.history && At() == Idle
      ensures err == None ==> Gone(d)
      ensures err == None ==>
        if (maxDeliveries >= 1 && job.number >= maxDeliveries) || (maxDeliveries < 1 && job.number >= 3)
        then IsDead(d.submission) && IsBuried(d, Max(d.deliveries, job.number))
        else IsPutBack(cluster.St(), d.submission, job.attempt, id)
    {
      var maximum := maxDeliveries;
      if maximum < 1 {
        maximum := 3;
      }
      if job.number >= maximum {
        err := GiveUp(d, job);
      } else {
        err := PutBack(d, job);
      }
    }

    /** The dead-letter entry reports at least as many deliveries as attempts. */
    method GiveUp(d: Delivery, job: Job) returns (err: Option<Error>)
      requires Valid() && Holds(d, job, Broken) && job.number >= Limit(maxDeliveries)
      modifies cluster, cluster.store, cluster.stream
      ensures Valid() && old(cluster.history) <= cluster.history && At() == Idle
      ensures err == None ==> Gone(d) && IsDead(d.submission) && IsBuried(d, Max(d.deliveries, job.number))
    {
      var _ := cluster.Interfere(id);
      var persisted, _ := cluster.Fail(id, job.attempt);
      if persisted.Err? {
        return Some(persisted.error);
      }
      var delivery := d;
      if delivery.deliveries < job.number {
        delivery := delivery.(deliveries := job.number);
      }
      err := DeadLetter(delivery);
      if err == None {
        ghost var k :| 0 <= k < |cluster.St().mq.dead| &&
            IsCopy(cluster.St().mq.dead[k], delivery, delivery.deliveries);
        assert IsCopy(cluster.St().mq.dead[k], d, Max(d.deliveries, job.number));
      }
    }

    method PutBack(d: Delivery, job: Job) returns (err: Option<Error>)
      requires Valid() && Holds(d, job, Broken) && job.number < Limit(maxDeliveries)
      modifies cluster, cluster.store, cluster.stream
      ensures Valid() && old(cluster.history) <= cluster.history && At() == Idle
      ensures err == None ==> Gone(d) && IsPutBack(cluster.St(), d.submission, job.attempt, id)
    {
      var _ := cluster.Interfere(id);
      var persisted, _ := cluster.Retry(id, job.attempt, RetryDelay(job.number));
      if persisted.Err? {
        return Some(persisted.error);
      }
      err := Acknowledge(d, job.attempt);
    }

    /** The evaluation succeeded: store its result, then acknowledge. */
    method Conclude(d: Delivery, job: Job, r: Result) returns (err: Option<Error>)
      requires Valid() && Holds(d, job, Done(r))
      modifies cluster, cluster.store, cluster.stream
      ensures Valid() && old(cluster.history) <= cluster.history && At() == Idle
      ensures err == None ==> Gone(d) && IsFinal(d.submission)
    {
      var _ := cluster.Interfere(id);
      var stored, _ := cluster.Finish(id, job.attempt, r);
      if stored.Err? {
        return Some(stored.error);
      }
      err := Acknowledge(d, job.attempt);
    }

    /**
     Claim, evaluate, persist, and only then answer the queue. Without an error the message is no longer pending, and
     its submission is FINAL, in the dead stream, or was put back: an attempt that this worker made during the call has
     ended TRANSIENT. The heartbeat's renewals are among the actions of Interfere; losing the lease ends the call.
     */
    method Handle(delivery: Delivery) returns (err: Option<Error>, ghost at: State, ghost claim: Action)
      requires Valid() && At() == Received(delivery)
      modifies cluster, cluster.store, cluster.stream, daemon
      ensures Valid() && old(cluster.history) <= cluster.history && At() == Idle
      ensures err == None ==> Answered(delivery, old(cluster.St()).db.attempts.Keys)
      ensures OnRecord(at, claim, |old(cluster.history)|)
      ensures FoundContended(at, claim, delivery.submission) ==> err == Some(Busy)
      ensures Accounted(old(daemon.live), old(daemon.born), daemon, {})
    {
      var claimed;
      claimed, at, claim := Claim(delivery);
      ghost var record := cluster.history;
      match claimed {
        case Err(AlreadyTerminal(deadLetter)) =>
          if deadLetter {
            err := DeadLetter(delivery);
          } else {
            err := Acknowledge(delivery, 0);
          }
        case Err(error) =>
          err := Some(error);
        case Ok(job) =>
          var worked, _, _ := Work(delivery, job);
          err := worked;
      }
      StillOnRecord(at, claim, |old(cluster.history)|, record);
    }

    lemma StillOnRecord(at: State, act: Action, since: nat, record: seq<Action>)
      requires record <= cluster.history
      requires exists i :: since <= i < |record| && record[i] == act && Protocol.Run(EMPTY, record[..i], at)
      ensures OnRecord(at, act, since)
    {
      var i :| since <= i < |record| && record[i] == act && Protocol.Run(EMPTY, record[..i], at);
      assert cluster.history[..i] == record[..i];
    }

    /**
     The heartbeat, joined after the evaluation, reports nothing or the error of a renewal. Such an error is the
     outcome, whatever the evaluation says; an evaluation that failed while the worker was being stopped is neither
     retried nor given up.
     */
    method Work(delivery: Delivery, job: Job)
        returns (err: Option<Error>, ghost beat: Option<Error>, ghost ended: bool)
      requires Valid() && Holds(delivery, job, Opening)
      modifies cluster, cluster.store, cluster.stream, daemon
      ensures Valid() && old(cluster.history) <= cluster.history && At() == Idle
      ensures err == None ==> Gone(delivery)
      ensures err == None ==>
        || IsFinal(delivery.submission)
        || (if (maxDeliveries >= 1 && job.number >= maxDeliveries) || (maxDeliveries < 1 && job.number >= 3)
            then IsDead(delivery.submission) && IsBuried(delivery, Max(delivery.deliveries, job.number))
            else IsPutBack(cluster.St(), delivery.submission, job.attempt, id))
      ensures beat.Some? ==> err == beat
      ensures ended && err == None ==> IsFinal(delivery.submission)
      ensures Accounted(old(daemon.live), old(daemon.born), daemon, {})
    {
      var evaluated := Evaluate(job, delivery);
      var renewal: Option<Error> := *;
      var cancelled: bool := *;
      beat, ended := renewal, cancelled;
      if renewal.Some? {
        err := Abandon(renewal.value);
      } else if evaluated.Err? && cancelled {
        err := Abandon(evaluated.error);
      } else if evaluated.Err? {
        err := Settle(delivery, job);
      } else {
        err := Conclude(delivery, job, evaluated.value);
      }
    }

    /** Handle returns without having closed its attempt. */
    method Abandon(error: Error) returns (err: Option<Error>)
      requires Valid()
      modifies cluster
      ensures Valid() && old(cluster.history) <= cluster.history && At() == Idle && err == Some(error)
    {
      var _ := cluster.Stop(id);
      err := Some(error);
    }

    // The consumer of cmd/worker

    /**
     Stream.Receive: a message abandoned by another consumer first, else a new one. What is received was taken by the
     call on record, with the idle time asked for, and it is new only if no idle message was within reach before.
     */
    method Receive(reclaimAfter: Time) returns (reply: Reply<Delivery>, ghost at: State, ghost take: Action)
      requires Valid() && At() == Idle && reclaimAfter > 0
      modifies cluster, cluster.store, cluster.stream
      ensures Valid() && old(cluster.history) <= cluster.history
      ensures At() == if reply.Ok? then Received(reply.value) else Idle
      ensures reply.Ok? ==>
        && OnRecord(at, take, |old(cluster.history)|) && TookFor(at, take, reply.value.message, reclaimAfter)
        && (take.pick == None ==> FoundNothing(reclaimAfter, |old(cluster.history)|))
    {
      var m;
      m, at, take := Reclaim(reclaimAfter);
      if m == Err(Empty) {
        m, at, take := ReadNew(reclaimAfter, |old(cluster.history)|);
      }
      if m.Err? {
        return Err(m.error), at, take;
      }
      ghost var record := cluster.history;
      reply := Describe(m.value);
      StillOnRecord(at, take, |old(cluster.history)|, record);
      StillFoundNothing(reclaimAfter, |old(cluster.history)|, record);
    }

    /** This worker's call took message m: the first one pending that was idle for so long, or the next new one. */
    ghost predicate TookFor(at: State, take: Action, m: MessageId, reclaimAfter: Time) {
      && take.Fetch? && take.w == id && take.minIdle == reclaimAfter && take.fault == Clean
      && m == TakenMessage(at.mq, take.pick)
      && (take.pick.Some? ==> FirstPick(at.mq, take.pick, at.queueClock, reclaimAfter))
    }

    /** At some point of the record no message within reach had been idle for so long. */
    ghost predicate FoundNothing(reclaimAfter: Time, since: nat)
      reads cluster
    {
      NothingIdle(cluster.history, reclaimAfter, since)
    }

    method Reclaim(reclaimAfter: Time) returns (m: Reply<MessageId>, ghost at: State, ghost take: Action)
      requires Valid() && At() == Idle && reclaimAfter > 0
      modifies cluster, cluster.store, cluster.stream
      ensures Valid() && old(cluster.history) <= cluster.history
      ensures At() == if m.Ok? then Fetched(m.value) else Idle
      ensures m.Ok? ==> OnRecord(at, take, |old(cluster.history)|) && TookFor(at, take, m.value, reclaimAfter)
      ensures m.Ok? ==> take.pick.Some?
      ensures m == Err(Empty) ==> FoundNothing(reclaimAfter, |old(cluster.history)|)
    {
      var _ := cluster.Interfere(id);
      at := cluster.St();
      ghost var record := cluster.history;
      var reclaimed;
      reclaimed, take := cluster.AutoClaim(id, reclaimAfter);
      m := if reclaimed.Err? then Err(reclaimed.error)
           else if reclaimed.value.Some? then Ok(reclaimed.value.value) else Err(Empty);
      assert cluster.history[..|record|] == record;
    }

    method ReadNew(reclaimAfter: Time, ghost since: nat)
        returns (m: Reply<MessageId>, ghost at: State, ghost take: Action)
      requires Valid() && At() == Idle && reclaimAfter > 0 && FoundNothing(reclaimAfter, since)
      requires since <= |cluster.history|
      modifies cluster, cluster.store, cluster.stream
      ensures Valid() && old(cluster.history) <= cluster.history && FoundNothing(reclaimAfter, since)
      ensures At() == if m.Ok? then Fetched(m.value) else Idle
      ensures m.Ok? ==> OnRecord(at, take, since) && TookFor(at, take, m.value, reclaimAfter) && take.pick == None
    {
      var _ := cluster.Interfere(id);
      at := cluster.St();
      ghost var record := cluster.history;
      m, take := cluster.ReadGroup(id, reclaimAfter);
      assert cluster.history[..|record|] == record;
      StillFoundNothing(reclaimAfter, since, old(cluster.history));
    }

    lemma StillFoundNothing(reclaimAfter: Time, since: nat, record: seq<Action>)
      requires record <= cluster.history
      ensures NothingIdle(record, reclaimAfter, since) ==> FoundNothing(reclaimAfter, since)
    {
      if NothingIdle(record, reclaimAfter, since) {
        var i, st :| since <= i <= |record| && Protocol.Run(EMPTY, record[..i], st) &&
            FirstPick(st.mq, None, st.queueClock, reclaimAfter);
        assert cluster.history[..i] == record[..i];
      }
    }

    method Describe(m: MessageId) returns (reply: Reply<Delivery>)
      requires Valid() && At() == Fetched(m)
      modifies cluster, cluster.store, cluster.stream
      ensures Valid() && old(cluster.history) <= cluster.history
      ensures At() == if reply.Ok? then Received(reply.value) else Idle
      ensures reply.Ok? ==> reply.value.message == m
    {
      var _ := cluster.Interfere(id);
      var answer, _ := cluster.Describe(id, m);
      reply := answer;
    }

    /** Some message was taken by a call on record, with the worker's lease as the idle time. */
    ghost predicate TookOne(since: nat)
      reads this, cluster
    {
      exists at, take, m :: OnRecord(at, take, since) && TookFor(at, take, m, lease)
    }

    /** Receives a message that has been idle for as long as a lease, or is new, and handles it. */
    method Attend() returns (turn: Turn, ghost s: SubmissionId, ghost at: State, ghost claim: Action)
      requires Valid() && At() == Idle
      modifies cluster, cluster.store, cluster.stream, daemon
      ensures Valid() && old(cluster.history) <= cluster.history && At() == Idle
      ensures turn.handling ==> OnRecord(at, claim, |old(cluster.history)|) && TookOne(|old(cluster.history)|)
      ensures turn.handling && FoundContended(at, claim, s) ==> turn.err == Some(Busy)
    {
      var cancelled: bool := *;
      var received;
      ghost var taken, take;
      received, taken, take := Receive(lease);
      if received.Err? {
        return Turn(false, Some(received.error), cancelled), 0, EMPTY, StopWorker(id);
      }
      ghost var record := cluster.history;
      s := received.value.submission;
      var err;
      err, at, claim := Handle(received.value);
      turn := Turn(true, err, cancelled);
      StillOnRecord(taken, take, |old(cluster.history)|, record);
      assert TookFor(taken, take, received.value.message, lease);
    }

    /**
     The consumer loop for any number of turns. An empty stream does not end it, nor do contention and stale attempts,
     which leave the message pending; every other error does, silently if the pool is being cancelled. When an error of
     handling ends it, the row that this call's claim found was not contended.
     */
    method Run(turns: nat) returns (err: Option<Error>, ghost done: seq<Turn>, ghost s: SubmissionId, ghost at: State,
                                    ghost claim: Action)
      requires Valid() && At() == Idle
      modifies cluster, cluster.store, cluster.stream, daemon
      ensures Valid() && old(cluster.history) <= cluster.history && At() == Idle
      ensures |done| <= turns && (forall i :: 0 <= i < |done| - 1 ==> GoesOn(done[i]))
      ensures |done| < turns ==> done != [] && !GoesOn(done[|done| - 1])
      ensures done != [] && !done[|done| - 1].cancelled ==>
        var last := done[|done| - 1];
        if last.err == None || last.err == Some(if last.handling then Stale else Empty) ||
            (last.handling && last.err == Some(Busy))
        then err == None else err == last.err
      ensures err.Some? ==> done != [] && !done[|done| - 1].cancelled
      ensures err.Some? && done[|done| - 1].handling ==>
        OnRecord(at, claim, |old(cluster.history)|) && !FoundContended(at, claim, s)
    {
      var turn := 0;
      err, done, s, at, claim := None, [], 0, EMPTY, StopWorker(id);
      while turn < turns
        invariant Valid() && old(cluster.history) <= cluster.history && At() == Idle
        invariant |done| == turn <= turns && forall i :: 0 <= i < |done| ==> GoesOn(done[i])
      {
        turn := turn + 1;
        var t;
        t, s, at, claim := Attend();
        done := done + [t];
        if t.err == None || (!t.handling && t.err == Some(Empty)) {
          continue;
        }
        if t.cancelled {
          return None, done, s, at, claim;
        }
        if !t.handling || (t.err != Some(Busy) && t.err != Some(Stale)) {
          return t.err, done, s, at, claim;
        }
      }
      err := None;
    }
  }

  ghost predicate NothingIdle(record: seq<Action>, minIdle: Time, since: nat) {
    exists i, st :: since <= i <= |record| && Protocol.Run(EMPTY, record[..i], st) &&
      FirstPick(st.mq, None, st.queueClock, minIdle)
  }

  ghost predicate FinalIn(st: State, s: SubmissionId) {
    s in st.db.submissions && st.db.submissions[s].status == Final
  }

  predicate IsCopy(entry: DeadEntry, d: Delivery, deliveries: int) {
    && entry.submission == d.submission && entry.source == d.message && entry.deliveries == deliveries
    && entry.reason == "attempts_exhausted"
  }

  /** Attempts stay. */
  lemma {:induction false} AttemptsStay(st: State, acts: seq<Action>, st': State)
    requires Inv(st) && Protocol.Run(st, acts, st')
    ensures st.db.attempts.Keys <= st'.db.attempts.Keys
    decreases |acts|
  {
    RunOpens(st, acts, st');
    if acts != [] {
      DatabaseAdvances(st, acts[0]);
      InvStep(st, acts[0]);
      RunOpens(Next(st, acts[0]), acts[1..], st');
      AttemptsStay(Next(st, acts[0]), acts[1..], st');
    }
  }

  lemma FinalStays(st: State, acts: seq<Action>, st': State, s: SubmissionId)
    requires Inv(st) && Protocol.Run(st, acts, st')
    ensures FinalIn(st, s) ==> FinalIn(st', s)
  {
    RunOpens(st, acts, st');
    if FinalIn(st, s) {
      TerminalRowsAreFrozen(st, acts, s);
    }
  }

  lemma AckKeepsRows(st: State, a: Action)
    requires Can(st, a) && a.Ack?
    ensures Next(st, a).db == st.db
  {}
}
