/** The guarantees of the judging protocol, over every run of the machine. */
module Safety {
  import opened Basics
  import opened Lifecycle
  import opened Judging
  import opened Database
  import opened FenceProofs
  import opened Protocol
  import opened Invariant

  /**
   No accepted submission is lost: while it is not terminal, there is an unpublished event that no publisher is about
   to mark, or an unacknowledged message that no worker has decided to acknowledge or dead-letter.
   */
  lemma NothingIsLost(st: State, s: SubmissionId)
    requires Reachable(st)
    requires s in st.db.submissions && !Terminal(st.db.submissions[s].status)
    ensures Carried(st, s, true)
  {
    ReachableIsInv(st);
    assert CarryOk(st, s);
  }

  /**
   No exhausted submission vanishes: it is in the dead stream, or something not about to be acknowledged still leads
   there.
   */
  lemma NoExhaustedJobVanishes(st: State, s: SubmissionId)
    requires Reachable(st)
    requires s in st.db.submissions && st.db.submissions[s].status == FailedInternal
    ensures DeadEntryFor(st, s) || Carried(st, s, false)
    ensures Exhausted(st.db, st.db.submissions[s])
  {
    ReachableIsInv(st);
    assert CarryOk(st, s) && SubmissionOk(st.db, s);
    assert AttemptOk(st.db, st.db.submissions[s].current.value);
  }

  /** Every dead-letter entry names a submission that failed with exhausted attempts. */
  lemma DeadEntriesAreExhausted(st: State, k: nat)
    requires Reachable(st) && k < |st.mq.dead|
    ensures var s := st.mq.dead[k].submission;
            s in st.db.submissions && st.db.submissions[s].status == FailedInternal &&
                Exhausted(st.db, st.db.submissions[s])
  {
    ReachableIsInv(st);
    var s := st.mq.dead[k].submission;
    assert DeadOk(st, k);
    assert SubmissionOk(st.db, s);
    assert AttemptOk(st.db, st.db.submissions[s].current.value);
  }

  /** Terminal rows are frozen in every column; what was submitted is frozen from the start. */
  lemma {:induction false} TerminalRowsAreFrozen(st: State, acts: seq<Action>, s: SubmissionId)
    requires Inv(st) && Runs(st, acts) && s in st.db.submissions
    ensures var db' := AfterAll(st, acts).db;
            && s in db'.submissions
            && SubmissionAdvances(st.db.submissions[s], db'.submissions[s])
            && (Terminal(st.db.submissions[s].status) ==> db'.submissions[s] == st.db.submissions[s])
    decreases |acts|
  {
    if acts != [] {
      DatabaseAdvances(st, acts[0]);
      InvStep(st, acts[0]);
      TerminalRowsAreFrozen(Next(st, acts[0]), acts[1..], s);
    }
  }

  /** Authors may edit a problem at any time: a submission keeps judging what it was created against. */
  lemma SnapshotIsCreationTime(st: State, a: Action, acts: seq<Action>)
    requires Inv(st) && a.Create? && Can(st, a) && a.s in Next(st, a).db.submissions
    requires Runs(Next(st, a), acts)
    ensures var db' := AfterAll(Next(st, a), acts).db;
            && a.problem in st.db.problems
            && a.s in db'.submissions && db'.submissions[a.s].problem == st.db.problems[a.problem]
            && db'.submissions[a.s].source == a.source && db'.submissions[a.s].language == a.language
  {
    InvStep(st, a);
    TerminalRowsAreFrozen(Next(st, a), acts, a.s);
  }

  ghost predicate IsFinalAttempt(db: Db, s: SubmissionId, a: AttemptId) {
    a in db.attempts && db.attempts[a].submission == s && db.attempts[a].status == Final
  }

  /**
   A FINAL submission has exactly one FINAL attempt, and its stored verdict, counts and peaks are what that attempt's
   own observations of the frozen tests deserve; ACCEPTED exactly when all of at least one tests passed.
   */
  lemma FinalVerdictIsDeserved(st: State, s: SubmissionId) returns (a: AttemptId)
    requires Reachable(st)
    requires s in st.db.submissions && st.db.submissions[s].status == Final
    ensures IsFinalAttempt(st.db, s, a) && forall b :: IsFinalAttempt(st.db, s, b) ==> b == a
    ensures a in st.seen && Deserved(st.db.submissions[s].problem.tests, st.seen[a], st.db.submissions[s].result)
    ensures var r := st.db.submissions[s].result;
            (r.verdict == Some(Accepted) <==> r.passed == r.total) &&
                0 < r.total == |st.db.submissions[s].problem.tests|
    ensures var r, tests, ev := st.db.submissions[s].result, st.db.submissions[s].problem.tests, st.seen[a];
      && ev.compiled.Some? && r.verdict.Some?
      && (r.verdict.value == CompilationError <==> var c := ev.compiled.value;
            c.exitCode != 0 || c.timedOut || c.oom || c.outputLimited)
      && (r.verdict.value == Accepted <==>
            && r.verdict.value != CompilationError && |ev.runs| == |tests|
            && forall i :: 0 <= i < |tests| ==> Solves(ev.runs[i], tests[i]))
      && (r.verdict.value != CompilationError && r.verdict.value != Accepted ==>
            FailsFirst(tests, ev.runs, r.verdict.value))
  {
    ReachableIsInv(st);
    assert SubmissionOk(st.db, s) && VerdictOk(st, s);
    a := st.db.submissions[s].current.value;
    forall b | IsFinalAttempt(st.db, s, b) ensures b == a {
      assert AttemptOk(st.db, b);
    }
    AcceptedIffAllPassed(st.db.submissions[s].problem.tests, st.seen[a], st.db.submissions[s].result);
    VerdictMeans(st.db.submissions[s].problem.tests, st.seen[a], st.db.submissions[s].result);
  }

  /** Exactly the numbers 1..attempts, for any clock readings; the constraint on them never fires. */
  lemma AttemptsAreNumbered(st: State, s: SubmissionId, n: int)
    requires Reachable(st) && s in st.db.submissions
    ensures HasNumber(st.db, s, n) <==> 1 <= n <= st.db.submissions[s].attempts
    ensures forall a, b |
              && a in st.db.attempts && b in st.db.attempts
              && st.db.attempts[a].submission == s == st.db.attempts[b].submission
              && st.db.attempts[a].number == st.db.attempts[b].number :: a == b
  {
    ReachableIsInv(st);
    if a :| a in st.db.attempts && st.db.attempts[a].submission == s && st.db.attempts[a].number == n {
      assert AttemptOk(st.db, a);
    }
    forall a, b | a in st.db.attempts && b in st.db.attempts
      && st.db.attempts[a].submission == s == st.db.attempts[b].submission
      && st.db.attempts[a].number == st.db.attempts[b].number
      ensures a == b {
      assert NumbersDiffer(st.db, a, b);
    }
  }

  lemma ClaimNeverViolatesUniqueness(st: State, a: Action)
    requires Reachable(st) && a.Claim? && Can(st, a)
    ensures ClaimCall(st, a) != Reject(UniqueViolation)
  {
    ReachableIsInv(st);
    var s := WorkerAt(st, a.w).d.submission;
    if s in st.db.submissions {
      NumberIsFree(st.db, s, st.clock);
    }
  }

  /** While its attempt is current, whatever a worker asks of the store passes the store's own guards. */
  lemma WorkerAndStoreAgree(st: State, w: string, begun: Time)
    requires Reachable(st) && WorkerAt(st, w).Holding? && Current(st.db, WorkerAt(st, w).job.attempt)
    ensures var stage := WorkerAt(st, w).stage;
            && ((stage == EnterCompile || stage == EnterRun) ==> EnterCall(st, w).Commit?)
            && (stage.Done? ==> FinishCall(st, w, begun).Commit?)
            && (stage == Broken ==> FailCall(st, w, begun).Commit? && forall e :: RetryCall(st, w, begun, e).Commit?)
  {
    ReachableIsInv(st);
    assert WorkerOk(st, w);
    RetryDelayBounds(WorkerAt(st, w).job.number, WorkerAt(st, w).job.number);
  }

  /** Once superseded, nothing a worker asks of the store is written. */
  lemma SupersededIsRejected(st: State, w: string, begun: Time)
    requires Reachable(st) && WorkerAt(st, w).Holding? && !Current(st.db, WorkerAt(st, w).job.attempt)
    ensures EnterCall(st, w).Reject? && FailCall(st, w, begun).Reject?
    ensures WorkerAt(st, w).stage.Done? ==> FinishCall(st, w, begun).Reject?
    ensures forall e :: RetryCall(st, w, begun, e).Reject?
    ensures forall lease :: Stored(st.db, RenewTx(st.db, WorkerAt(st, w).job.attempt, lease, begun), Clean) == st.db
    ensures forall lease :: RenewTx(st.db, WorkerAt(st, w).job.attempt, lease, begun).Commit? ==>
              RenewTx(st.db, WorkerAt(st, w).job.attempt, lease, begun).value.Err?
  {
    ReachableIsInv(st);
    forall lease | lease > 0 ensures
      RenewTx(st.db, WorkerAt(st, w).job.attempt, lease, begun).value.Err?
      && RenewTx(st.db, WorkerAt(st, w).job.attempt, lease, begun).db == st.db {
      RenewFences(st.db, WorkerAt(st, w).job.attempt, lease, begun);
    }
  }

  /**
   Which error a superseded worker gets: a scan error while its submission is back in the queue, and ErrStaleAttempt
   while another attempt is current. Every call behind the row lock answers the same way; Renew always says stale.
   */
  lemma SupersededGets(st: State, w: string, begun: Time, e: EventId)
    requires Reachable(st) && WorkerAt(st, w).Holding? && !Current(st.db, WorkerAt(st, w).job.attempt)
    ensures WorkerAt(st, w).job.submission in st.db.submissions
    ensures var error, row := EnterCall(st, w).error, st.db.submissions[WorkerAt(st, w).job.submission];
      && (error == NullScan <==> row.status == Queued)
      && (error == Stale <==> row.current.Some? && row.current.value != WorkerAt(st, w).job.attempt)
      && (error == NullScan || error == Stale)
      && FailCall(st, w, begun) == Reject(error) && RetryCall(st, w, begun, e) == Reject(error)
      && (WorkerAt(st, w).stage.Done? ==> FinishCall(st, w, begun) == Reject(error))
  {
    ReachableIsInv(st);
    assert WorkerOk(st, w) && SubmissionOk(st.db, WorkerAt(st, w).job.submission);
    RetryDelayBounds(WorkerAt(st, w).job.number, WorkerAt(st, w).job.number);
  }

  /** A superseded attempt never becomes current again, and its row never changes again. */
  lemma {:induction false} SupersededForever(st: State, acts: seq<Action>, a: AttemptId)
    requires Inv(st) && Runs(st, acts) && a in st.db.attempts && !Current(st.db, a)
    ensures var db' := AfterAll(st, acts).db;
      a in db'.attempts && db'.attempts[a] == st.db.attempts[a] && !Current(db', a)
    decreases |acts|
  {
    if acts != [] {
      SupersededStep(st, acts[0], a);
      InvStep(st, acts[0]);
      SupersededForever(Next(st, acts[0]), acts[1..], a);
    }
  }

  lemma OnlyClaimMakesCurrent(st: State, a: Action, att: AttemptId, s: SubmissionId)
    requires Can(st, a) && s in st.db.submissions && s in Next(st, a).db.submissions
    requires Next(st, a).db.submissions[s].current == Some(att)
    ensures st.db.submissions[s].current == Some(att) || (a.Claim? && a.attempt == att)
  {
    if !WritesRows(a) {
      RowsFrame(st, a);
    }
  }

  lemma SupersededStep(st: State, a: Action, att: AttemptId)
    requires Inv(st) && Can(st, a) && att in st.db.attempts && !Current(st.db, att)
    ensures var db' := Next(st, a).db;
      att in db'.attempts && db'.attempts[att] == st.db.attempts[att] && !Current(db', att)
  {
    DatabaseAdvances(st, a);
    assert AttemptOk(st.db, att);
    FinishedRowsStay(st.db, Next(st, a).db, att);
    NotCurrentAgain(st, a, att, st.db.attempts[att].submission);
  }

  lemma NotCurrentAgain(st: State, a: Action, att: AttemptId, s: SubmissionId)
    requires Can(st, a) && att in st.db.attempts && s in st.db.submissions && s in Next(st, a).db.submissions
    requires st.db.submissions[s].current != Some(att)
    ensures Next(st, a).db.submissions[s].current != Some(att)
  {
    if Next(st, a).db.submissions[s].current == Some(att) {
      OnlyClaimMakesCurrent(st, a, att, s);
    }
  }

  /** This attempt of the worker at the submission has ended with a recorded transient failure. */
  ghost predicate IsPutBack(st: State, s: SubmissionId, a: AttemptId, w: string) {
    && a in st.db.attempts && st.db.attempts[a].submission == s && st.db.attempts[a].worker == w
    && st.db.attempts[a].code == Some(Transient)
  }

  lemma PutBackStays(st: State, acts: seq<Action>, st': State, s: SubmissionId, a: AttemptId, w: string)
    requires Inv(st) && Run(st, acts, st')
    ensures IsPutBack(st, s, a, w) ==> IsPutBack(st', s, a, w)
  {
    RunOpens(st, acts, st');
    if IsPutBack(st, s, a, w) {
      assert AttemptOk(st.db, a);
      SupersededForever(st, acts, a);
    }
  }

  /** How often the status of an attempt changes along a run. */
  ghost function StatusWrites(st: State, acts: seq<Action>, a: AttemptId): nat
    requires Runs(st, acts)
    decreases |acts|
  {
    if acts == [] then 0
    else
      var st' := Next(st, acts[0]);
      var writes :=
        a in st.db.attempts && a in st'.db.attempts && st'.db.attempts[a].status != st.db.attempts[a].status;
      (if writes then 1 else 0) + StatusWrites(st', acts[1..], a)
  }

  lemma StatusClimbs(db: Db, db': Db, a: AttemptId)
    requires Advance(db, db') && a in db.attempts
    ensures a in db'.attempts && Rank(db.attempts[a].status) <= Rank(db'.attempts[a].status) <= 4
    ensures db'.attempts[a].status != db.attempts[a].status ==>
              && CanTransition(db.attempts[a].status, db'.attempts[a].status)
              && Rank(db.attempts[a].status) < Rank(db'.attempts[a].status)
  {
    EdgesClimb(db.attempts[a].status);
  }

  /** Whatever any action does to the status of an attempt is one step along the lifecycle graph. */
  lemma EachWriteIsAnEdge(st: State, a: Action, att: AttemptId)
    requires Inv(st) && Can(st, a) && att in st.db.attempts
    ensures att in Next(st, a).db.attempts
    ensures var was, now := st.db.attempts[att].status, Next(st, a).db.attempts[att].status;
      Rank(was) <= Rank(now) <= 4 && (was != now ==> CanTransition(was, now) && Rank(was) < Rank(now))
  {
    DatabaseAdvances(st, a);
    StatusClimbs(st.db, Next(st, a).db, att);
  }

  lemma {:induction false} WritesClimb(st: State, acts: seq<Action>, a: AttemptId)
    requires Inv(st) && Runs(st, acts) && a in st.db.attempts
    ensures a in AfterAll(st, acts).db.attempts
    ensures Rank(st.db.attempts[a].status) + StatusWrites(st, acts, a)
         <= Rank(AfterAll(st, acts).db.attempts[a].status) <= 4
    decreases |acts|
  {
    if acts != [] {
      var st' := Next(st, acts[0]);
      EachWriteIsAnEdge(st, acts[0], a);
      InvStep(st, acts[0]);
      WritesClimb(st', acts[1..], a);
    }
  }

  /** Every write of an attempt's status is a lifecycle edge, so there are at most three of them. */
  lemma AtMostThreeStatusWrites(st: State, acts: seq<Action>, a: AttemptId)
    requires Inv(st) && Runs(st, acts) && a in st.db.attempts
    ensures StatusWrites(st, acts, a) <= 3
  {
    WritesClimb(st, acts, a);
    assert AttemptOk(st.db, a);
  }

  /** An event is marked published only after a message for its submission was appended. */
  lemma MarkedMeansAppended(st: State, e: EventId)
    requires Reachable(st) && e in st.db.outbox && st.db.outbox[e].publishedAt.Some?
    ensures Appended(st, st.db.outbox[e].submission)
  {
    ReachableIsInv(st);
    assert MarkedOk(st, e);
  }
}
