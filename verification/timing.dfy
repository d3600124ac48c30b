/** Bounds in number and time: attempt budget, lease exclusion, retry backoff and outbox pacing. */
module Timing {
  import opened Basics
  import opened Lifecycle
  import opened Judging
  import opened Database
  import opened FenceProofs
  import opened Protocol
  import opened Invariant
  import opened Safety
  import opened Counting

  // Attempt budget

  /** All workers are configured with MaxDeliveries == max, where everything below one stands for three. */
  ghost predicate SameLimit(acts: seq<Action>, max: int) {
    forall i :: 0 <= i < |acts| && acts[i].Claim? ==>
      if acts[i].maxDeliveries >= 1 then acts[i].maxDeliveries == max else max == 3
  }

  ghost predicate AttemptWithin(db: Db, a: AttemptId, max: int)
    requires a in db.attempts
  {
    && (db.attempts[a].code == Some(Transient) ==> db.attempts[a].number < max)
    && (db.attempts[a].code == Some(AttemptsExhausted) ==> db.attempts[a].number >= max)
  }

  ghost predicate NumbersWithin(db: Db, max: int) {
    forall a {:trigger AttemptWithin(db, a, max)} :: a in db.attempts ==> AttemptWithin(db, a, max)
  }

  ghost predicate WithinBudget(st: State, max: int) {
    && NumbersWithin(st.db, max)
    && (forall w :: WorkerAt(st, w).Holding? ==> WorkerAt(st, w).limit == max)
  }

  lemma LimitsStay(st: State, a: Action, max: int)
    requires Can(st, a) && WithinBudget(st, max) && (a.Claim? ==> Limit(a.maxDeliveries) == max)
    ensures forall w :: WorkerAt(Next(st, a), w).Holding? ==> WorkerAt(Next(st, a), w).limit == max
  {
    forall w | WorkerAt(Next(st, a), w).Holding? ensures WorkerAt(Next(st, a), w).limit == max {
      OneCounterMoves(st, a);
    }
  }

  lemma OnlyEndsCode(st: State, a: Action, att: AttemptId)
    requires Can(st, a) && !a.Retry? && !a.Fail? && att in Next(st, a).db.attempts
    ensures Next(st, a).db.attempts[att].code.None? || Next(st, a).db.attempts[att].code == Some(LeaseExpired)
            || (att in st.db.attempts && st.db.attempts[att].code == Next(st, a).db.attempts[att].code
                && st.db.attempts[att].number == Next(st, a).db.attempts[att].number)
  {
    if !WritesRows(a) {
      RowsFrame(st, a);
    }
  }

  lemma EndsStayWithin(st: State, a: Action, att: AttemptId, max: int)
    requires Inv(st) && Can(st, a) && WithinBudget(st, max) && (a.Retry? || a.Fail?) && att in st.db.attempts
    ensures att in Next(st, a).db.attempts && AttemptWithin(Next(st, a).db, att, max)
  {
    assert AttemptWithin(st.db, att, max);
    assert WorkerOk(st, a.w);
  }

  lemma BudgetStep(st: State, a: Action, max: int)
    requires Inv(st) && Can(st, a) && WithinBudget(st, max) && (a.Claim? ==> Limit(a.maxDeliveries) == max)
    ensures WithinBudget(Next(st, a), max)
  {
    LimitsStay(st, a, max);
    forall att | att in Next(st, a).db.attempts ensures AttemptWithin(Next(st, a).db, att, max) {
      if a.Retry? || a.Fail? {
        EndsStayWithin(st, a, att, max);
      } else {
        OnlyEndsCode(st, a, att);
        if att in st.db.attempts {
          assert AttemptWithin(st.db, att, max);
        }
      }
    }
  }

  lemma {:induction false} BudgetAlways(st: State, acts: seq<Action>, max: int)
    requires Inv(st) && WithinBudget(st, max) && Runs(st, acts) && SameLimit(acts, max)
    ensures WithinBudget(AfterAll(st, acts), max)
    decreases |acts|
  {
    if acts != [] {
      BudgetStep(st, acts[0], max);
      InvStep(st, acts[0]);
      BudgetAlways(Next(st, acts[0]), acts[1..], max);
    }
  }

  /** The attempts of a submission that ended with a code. */
  function Ended(db: Db, s: SubmissionId, code: ErrorCode): set<AttemptId> {
    set a | a in db.attempts && db.attempts[a].submission == s && db.attempts[a].code == Some(code)
  }

  function NumberOf(db: Db): AttemptId -> int {
    a => if a in db.attempts then db.attempts[a].number else 0
  }

  /** The expired leases of attempts at or past the limit. */
  function LateExpiries(db: Db, s: SubmissionId, max: int): set<AttemptId> {
    set a | a in Ended(db, s, LeaseExpired) && db.attempts[a].number >= max
  }

  /** From the limit on, every attempt but the last was displaced. */
  lemma LaterAttemptsExpired(db: Db, s: SubmissionId, max: int, n: int)
    requires Fence(db) && NumbersWithin(db, max) && s in db.submissions
    ensures 1 <= max <= n < db.submissions[s].attempts ==> n in Image(LateExpiries(db, s, max), NumberOf(db))
    ensures n in Image(LateExpiries(db, s, max), NumberOf(db)) ==> max <= n < db.submissions[s].attempts
  {
    if 1 <= max <= n < db.submissions[s].attempts {
      assert HasNumber(db, s, n);
      var a :| a in db.attempts && db.attempts[a].submission == s && db.attempts[a].number == n;
      assert SubmissionOk(db, s) && AttemptOk(db, a) && AttemptWithin(db, a, max);
      assert a in LateExpiries(db, s, max) && NumberOf(db)(a) == n;
    }
    if n in Image(LateExpiries(db, s, max), NumberOf(db)) {
      var a :| a in LateExpiries(db, s, max) && NumberOf(db)(a) == n;
      assert AttemptOk(db, a);
    }
  }

  /** So from the limit on they are counted by the late expiries exactly. */
  lemma LateExpiriesCount(db: Db, s: SubmissionId, max: int)
    requires Fence(db) && NumbersWithin(db, max) && s in db.submissions && max >= 1
    ensures |LateExpiries(db, s, max)| == Max(0, db.submissions[s].attempts - max)
  {
    var late, count := LateExpiries(db, s, max), db.submissions[s].attempts;
    assert SubmissionOk(db, s);
    forall a, b | a in late && b in late && a != b ensures NumberOf(db)(a) != NumberOf(db)(b) {
      assert NumbersDiffer(db, a, b);
    }
    InjectiveImageSize(late, NumberOf(db));
    forall n ensures n in Image(late, NumberOf(db)) <==> max <= n < count {
      LaterAttemptsExpired(db, s, max, n);
    }
    Interval(Image(late, NumberOf(db)), max, count);
  }

  lemma Interval(numbers: set<int>, low: int, high: int)
    requires low >= 1 && forall n :: n in numbers <==> low <= n < high
    ensures |numbers| == Max(0, high - low)
  {
    if low < high {
      assert numbers == UpTo(high - 1) - UpTo(low - 1);
      SubsetSize(UpTo(low - 1), UpTo(high - 1));
    } else {
      assert forall n :: n !in numbers;
    }
  }

  /**
   With a common limit max: fewer than max attempts of a submission are transient retries, and a failed submission has
   had at least max attempts. The limit itself is passed if and only if the lease of an attempt at or past it expired,
   and then by exactly the number of these. ExpiriesPassAnyLimit has runs that pass it by as many as one likes.
   */
  lemma AttemptBudget(acts: seq<Action>, s: SubmissionId, max: int)
    requires Runs(EMPTY, acts) && SameLimit(acts, max) && max >= 1
    requires s in AfterAll(EMPTY, acts).db.submissions
    ensures var db := AfterAll(EMPTY, acts).db;
            && |Ended(db, s, Transient)| <= max - 1
            && (db.submissions[s].attempts > max <==> LateExpiries(db, s, max) != {})
            && |LateExpiries(db, s, max)| == Max(0, db.submissions[s].attempts - max)
            && (db.submissions[s].status == FailedInternal ==> db.submissions[s].attempts >= max)
  {
    InvInitially();
    InvAlways(EMPTY, acts);
    BudgetAlways(EMPTY, acts, max);
    var db := AfterAll(EMPTY, acts).db;
    LateExpiriesCount(db, s, max);
    TransientsAreFew(db, s, max);
    assert SubmissionOk(db, s);
    if db.submissions[s].status == FailedInternal {
      var a := db.submissions[s].current.value;
      assert AttemptOk(db, a) && AttemptWithin(db, a, max);
    }
  }

  /** The configured worker: two retries at most, and no submission is given up before its third attempt. */
  lemma ThreeDeliveries(acts: seq<Action>, s: SubmissionId)
    requires Runs(EMPTY, acts) && forall i :: 0 <= i < |acts| && acts[i].Claim? ==> acts[i].maxDeliveries == 3
    requires s in AfterAll(EMPTY, acts).db.submissions
    ensures var db := AfterAll(EMPTY, acts).db;
            && |Ended(db, s, Transient)| <= 2
            && (db.submissions[s].status == FailedInternal ==> db.submissions[s].attempts >= 3)
            && forall a :: a in db.attempts && db.attempts[a].submission == s && db.attempts[a].number >= 3 ==>
                 db.attempts[a].code != Some(Transient)
  {
    AttemptBudget(acts, s, 3);
    InvInitially();
    BudgetAlways(EMPTY, acts, 3);
    forall a | a in AfterAll(EMPTY, acts).db.attempts ensures AttemptWithin(AfterAll(EMPTY, acts).db, a, 3) {}
  }

  lemma TransientsAreFew(db: Db, s: SubmissionId, max: int)
    requires Fence(db) && max >= 1
    requires NumbersWithin(db, max)
    ensures |Ended(db, s, Transient)| <= max - 1
  {
    var transient := Ended(db, s, Transient);
    forall a, b | a in transient && b in transient && a != b ensures NumberOf(db)(a) != NumberOf(db)(b) {
      assert NumbersDiffer(db, a, b);
    }
    InjectiveImageSize(transient, NumberOf(db));
    forall n | n in Image(transient, NumberOf(db)) ensures n in UpTo(max - 1) {
      var a :| a in transient && NumberOf(db)(a) == n;
      assert AttemptOk(db, a) && AttemptWithin(db, a, max);
    }
    SubsetSize(Image(transient, NumberOf(db)), UpTo(max - 1));
  }

  // Lease exclusion

  /**
   No claim of the attempt's submission reads a clock that has reached until, and no renewal of the attempt shortens its
   lease below until.
   */
  ghost predicate Punctual(st: State, acts: seq<Action>, att: AttemptId, until: Time)
    requires Runs(st, acts)
    decreases |acts|
  {
    acts == [] || (PunctualStep(st, acts[0], att, until) && Punctual(Next(st, acts[0]), acts[1..], att, until))
  }

  /** The claim is for the submission of this attempt. */
  predicate ClaimsFor(st: State, a: Action, att: AttemptId)
    requires a.Claim?
  {
    && WorkerAt(st, a.w).Received? && att in st.db.attempts
    && WorkerAt(st, a.w).d.submission == st.db.attempts[att].submission
  }

  predicate PunctualStep(st: State, a: Action, att: AttemptId, until: Time) {
    && (a.Claim? && ClaimsFor(st, a, att) ==> a.localNow < until)
    && (a.Renew? && a.attempt == att ==> a.begun + a.lease >= until)
  }

  /** The attempt is current with a lease up to until, or its own worker has ended it. */
  ghost predicate Undisturbed(db: Db, a: AttemptId, until: Time) {
    && a in db.attempts
    && (Active(db.attempts[a].status) ==>
          && Current(db, a)
          && db.submissions[db.attempts[a].submission].leaseUntil.Some?
          && db.submissions[db.attempts[a].submission].leaseUntil.value >= until)
    && (Terminal(db.attempts[a].status) ==> db.attempts[a].code != Some(LeaseExpired))
  }

  lemma LiveLeaseBlocksClaim(st: State, a: Action, att: AttemptId, until: Time)
    requires Inv(st) && Can(st, a) && a.Claim? && PunctualStep(st, a, att, until)
    requires Undisturbed(st.db, att, until) && Active(st.db.attempts[att].status)
    ensures Undisturbed(Next(st, a).db, att, until)
  {
    assert SubmissionOk(st.db, st.db.attempts[att].submission);
    if a.fault != Refused && ClaimCall(st, a).Commit? {
      assert SubmissionOk(st.db, WorkerAt(st, a.w).d.submission);
      ClaimRows(st.db, WorkerAt(st, a.w).d.submission, a.w, a.lease, a.begun, a.localNow, a.attempt);
    }
  }

  lemma RenewalOfRows(db: Db, a: AttemptId, lease: Time, now: Time, att: AttemptId, until: Time)
    requires Fence(db) && lease > 0 && (a == att ==> now + lease >= until)
    requires Undisturbed(db, att, until) && Active(db.attempts[att].status)
    ensures RenewTx(db, a, lease, now).Commit? && Undisturbed(RenewTx(db, a, lease, now).db, att, until)
  {
    RenewTouchesOneLease(db, a, lease, now);
  }

  lemma RenewalKeepsLease(st: State, a: Action, att: AttemptId, until: Time)
    requires Inv(st) && Can(st, a) && a.Renew? && PunctualStep(st, a, att, until)
    requires Undisturbed(st.db, att, until) && Active(st.db.attempts[att].status)
    ensures Undisturbed(Next(st, a).db, att, until)
  {
    if a.fault != Refused && a.lease > 0 {
      RenewalOfRows(st.db, a.attempt, a.lease, a.begun, att, until);
    }
  }

  lemma RestStaysUndisturbed(st: State, a: Action, att: AttemptId, until: Time)
    requires Inv(st) && Can(st, a) && !a.Claim? && !a.Enter? && !a.Finish? && !a.Retry? && !a.Fail?
    requires PunctualStep(st, a, att, until)
    requires Undisturbed(st.db, att, until) && Active(st.db.attempts[att].status)
    ensures Undisturbed(Next(st, a).db, att, until)
  {
    assert AttemptOk(st.db, att) && SubmissionOk(st.db, st.db.attempts[att].submission);
    if a.Renew? {
      RenewalKeepsLease(st, a, att, until);
    } else if !a.Create? {
      RowsFrame(st, a);
    }
  }

  /** Persisting a stage keeps the attempt current, under the same lease. */
  lemma EnterKeepsLease(st: State, a: Action, att: AttemptId, until: Time)
    requires Inv(st) && Can(st, a) && a.Enter? && WorkerAt(st, a.w).job.attempt == att
    requires Undisturbed(st.db, att, until) && Active(st.db.attempts[att].status)
    ensures Undisturbed(Next(st, a).db, att, until)
  {}

  /** Ending an attempt never records an expired lease. */
  lemma EndsAreNotExpiry(st: State, a: Action, att: AttemptId, until: Time)
    requires Inv(st) && Can(st, a) && (a.Finish? || a.Retry? || a.Fail?) && WorkerAt(st, a.w).job.attempt == att
    requires Undisturbed(st.db, att, until) && Active(st.db.attempts[att].status)
    ensures Undisturbed(Next(st, a).db, att, until)
  {
    if Next(st, a).db != st.db {
      EndOfAttempt(st, a, att);
    }
  }

  lemma EndOfAttempt(st: State, a: Action, att: AttemptId)
    requires Inv(st) && Can(st, a) && (a.Finish? || a.Retry? || a.Fail?) && WorkerAt(st, a.w).job.attempt == att
    requires Next(st, a).db != st.db
    ensures att in Next(st, a).db.attempts && Terminal(Next(st, a).db.attempts[att].status)
    ensures Next(st, a).db.attempts[att].code != Some(LeaseExpired)
  {
    HolderIsActive(st, a.w);
    assert AttemptOk(st.db, att);
  }

  /** A worker writes only through the fence of its own attempt. */
  lemma OthersDoNotWrite(st: State, a: Action, att: AttemptId, until: Time)
    requires Inv(st) && Can(st, a) && (a.Enter? || a.Finish? || a.Retry? || a.Fail?)
    requires WorkerAt(st, a.w).job.attempt != att
    requires Undisturbed(st.db, att, until) && Active(st.db.attempts[att].status)
    ensures Undisturbed(Next(st, a).db, att, until)
  {
    if Next(st, a).db != st.db {
      RowWriteTouchesOne(st.db, Next(st, a).db, WorkerAt(st, a.w).job.attempt, att);
    }
  }

  lemma EndedStaysUndisturbed(st: State, a: Action, att: AttemptId, until: Time)
    requires Inv(st) && Can(st, a) && Undisturbed(st.db, att, until) && !Active(st.db.attempts[att].status)
    ensures Undisturbed(Next(st, a).db, att, until)
  {
    DatabaseAdvances(st, a);
    assert AttemptOk(st.db, att);
    FinishedRowsStay(st.db, Next(st, a).db, att);
  }

  lemma UndisturbedStep(st: State, a: Action, att: AttemptId, until: Time)
    requires Inv(st) && Can(st, a) && PunctualStep(st, a, att, until) && Undisturbed(st.db, att, until)
    ensures Undisturbed(Next(st, a).db, att, until)
  {
    if !Active(st.db.attempts[att].status) {
      EndedStaysUndisturbed(st, a, att, until);
    } else if a.Claim? {
      LiveLeaseBlocksClaim(st, a, att, until);
    } else if !a.Enter? && !a.Finish? && !a.Retry? && !a.Fail? {
      RestStaysUndisturbed(st, a, att, until);
    } else if WorkerAt(st, a.w).job.attempt != att {
      OthersDoNotWrite(st, a, att, until);
    } else if a.Enter? {
      EnterKeepsLease(st, a, att, until);
    } else {
      EndsAreNotExpiry(st, a, att, until);
    }
  }

  /**
   While no claim of its submission reads a clock that has reached the end of its lease, an attempt stays current,
   unless its own worker ends it. Claims of other submissions and the database clock do not matter.
   */
  lemma {:induction false} LeaseExcludesOthers(st: State, acts: seq<Action>, att: AttemptId, until: Time)
    requires Inv(st) && Runs(st, acts) && Punctual(st, acts, att, until) && Undisturbed(st.db, att, until)
    ensures Undisturbed(AfterAll(st, acts).db, att, until)
    decreases |acts|
  {
    if acts != [] {
      UndisturbedStep(st, acts[0], att, until);
      InvStep(st, acts[0]);
      LeaseExcludesOthers(Next(st, acts[0]), acts[1..], att, until);
    }
  }

  /**
   What decides is the claiming worker's own clock: a well-formed claim of a submission that is being judged displaces
   its attempt if and only if that clock has reached the end of the lease, whatever the database clock says.
   */
  lemma ClaimDisplacesIffPastLease(st: State, a: Action)
    requires Inv(st) && Can(st, a) && a.Claim? && a.fault != Refused && a.w != "" && a.lease > 0
    requires var s := WorkerAt(st, a.w).d.submission; s in st.db.submissions && Active(st.db.submissions[s].status)
    ensures var row, db' := st.db.submissions[WorkerAt(st, a.w).d.submission], Next(st, a).db;
      && row.current.Some? && row.leaseUntil.Some? && row.current.value in db'.attempts
      && (!Current(db', row.current.value) <==> a.localNow >= row.leaseUntil.value)
      && (db'.attempts[row.current.value].code == Some(LeaseExpired) <==> a.localNow >= row.leaseUntil.value)
  {
    var s := WorkerAt(st, a.w).d.submission;
    assert SubmissionOk(st.db, s) && AttemptOk(st.db, st.db.submissions[s].current.value);
    NumberIsFree(st.db, s, a.begun);
    if ClaimCall(st, a).Commit? {
      ClaimRows(st.db, s, a.w, a.lease, a.begun, a.localNow, a.attempt);
    }
  }

  // Retry backoff

  /** How the stored start of an attempt relates to the stored end of the one before it. */
  ghost predicate Spaced(db: Db, a: AttemptId, b: AttemptId)
    requires a in db.attempts && b in db.attempts
  {
    var x, y := db.attempts[a], db.attempts[b];
    x.submission == y.submission && y.number == x.number + 1 ==>
      && x.finishedAt.Some?
      && (x.code == Some(Transient) ==> y.startedAt >= x.finishedAt.value + RetryDelay(x.number))
      && (x.code == Some(LeaseExpired) ==> y.startedAt == x.finishedAt.value)
  }

  ghost predicate DelayedBy(db: Db, s: SubmissionId, a: AttemptId) {
    && s in db.submissions && a in db.attempts
    && db.attempts[a].submission == s && db.attempts[a].number == db.submissions[s].attempts
    && db.attempts[a].code == Some(Transient) && db.attempts[a].finishedAt.Some?
    && db.submissions[s].retryAfter == Some(db.attempts[a].finishedAt.value + RetryDelay(db.attempts[a].number))
  }

  /** A queued submission that has been tried before waits for the delay of its last attempt. */
  ghost predicate Waits(db: Db, s: SubmissionId)
    requires s in db.submissions
  {
    Requeued(db.submissions[s]) ==> exists a :: DelayedBy(db, s, a)
  }

  predicate Requeued(row: Submission) {
    row.status == Queued && (row.attempts >= 1 || row.retryAfter.Some?)
  }

  ghost predicate AllWait(db: Db) {
    forall s {:trigger Waits(db, s)} :: s in db.submissions ==> Waits(db, s)
  }

  ghost predicate AllSpaced(db: Db) {
    forall a, b {:trigger Spaced(db, a, b)} :: a in db.attempts && b in db.attempts ==> Spaced(db, a, b)
  }

  /** Only the attempt with the highest number can be unfinished. */
  lemma EarlierIsFinished(db: Db, a: AttemptId, b: AttemptId)
    requires Fence(db) && a in db.attempts && b in db.attempts
    requires db.attempts[a].submission == db.attempts[b].submission && db.attempts[a].number < db.attempts[b].number
    ensures Terminal(db.attempts[a].status)
  {
    assert AttemptOk(db, a) && AttemptOk(db, b) && SubmissionOk(db, db.attempts[a].submission);
  }

  lemma OnlyClaimAdds(st: State, a: Action, att: AttemptId)
    requires Can(st, a) && att !in st.db.attempts && att in Next(st, a).db.attempts
    ensures Starts(st, a) && a.attempt == att
  {
    if !WritesRows(a) {
      RowsFrame(st, a);
    }
  }

  /** The claim commits, so it starts an attempt. */
  ghost predicate Starts(st: State, a: Action)
    requires Can(st, a)
  {
    a.Claim? && a.fault != Refused && ClaimCall(st, a).Commit?
  }

  /** The transaction of a claim began no earlier than the retry delay ended that it found once it had the row. */
  ghost predicate BeganInTime(st: State, a: Action)
    requires Can(st, a)
  {
    Starts(st, a) ==>
      var row := st.db.submissions[WorkerAt(st, a.w).d.submission];
      row.retryAfter.Some? ==> a.begun >= row.retryAfter.value
  }

  lemma PairKeeps(db: Db, db': Db, a: AttemptId, b: AttemptId)
    requires Fence(db) && Advance(db, db') && a in db.attempts && b in db.attempts
    ensures a in db'.attempts && b in db'.attempts && (Spaced(db', a, b) <==> Spaced(db, a, b))
  {
    if db.attempts[a].submission == db.attempts[b].submission && db.attempts[a].number + 1 == db.attempts[b].number {
      EarlierIsFinished(db, a, b);
      FinishedRowsStay(db, db', a);
    }
  }

  lemma OldPairsKeep(st: State, act: Action, a: AttemptId, b: AttemptId)
    requires Inv(st) && Can(st, act) && a in st.db.attempts && b in st.db.attempts
    ensures a in Next(st, act).db.attempts && b in Next(st, act).db.attempts
    ensures Spaced(Next(st, act).db, a, b) <==> Spaced(st.db, a, b)
  {
    DatabaseAdvances(st, act);
    PairKeeps(st.db, Next(st, act).db, a, b);
  }

  /** The attempt that a claim follows: the displaced one, or the one whose transient failure queued the submission. */
  lemma NewPairIsSpacedIffInTime(st: State, act: Action, a: AttemptId)
    requires Inv(st) && Can(st, act) && AllWait(st.db) && Starts(st, act) && a in st.db.attempts
    ensures act.attempt in Next(st, act).db.attempts && a in Next(st, act).db.attempts
    ensures BeganInTime(st, act) ==> Spaced(Next(st, act).db, a, act.attempt)
    ensures var s := WorkerAt(st, act.w).d.submission;
      DelayedBy(st.db, s, a) && Spaced(Next(st, act).db, a, act.attempt) ==> BeganInTime(st, act)
  {
    var s := WorkerAt(st, act.w).d.submission;
    ClaimRows(st.db, s, act.w, act.lease, act.begun, act.localNow, act.attempt);
    LastAttempt(st.db, s, a);
  }

  /** The last attempt of an open submission is the current one, or its transient failure queued the submission. */
  lemma LastAttempt(db: Db, s: SubmissionId, a: AttemptId)
    requires Fence(db) && AllWait(db) && s in db.submissions && a in db.attempts
    ensures db.attempts[a].submission == s && db.attempts[a].number == db.submissions[s].attempts ==>
      if db.submissions[s].status == Queued then DelayedBy(db, s, a) else db.submissions[s].current == Some(a)
    ensures db.attempts[a].submission == s ==> 1 <= db.attempts[a].number <= db.submissions[s].attempts
    ensures DelayedBy(db, s, a) ==> db.submissions[s].status == Queued
  {
    assert SubmissionOk(db, s) && AttemptOk(db, a) && Waits(db, s);
    if db.attempts[a].submission == s && db.attempts[a].number == db.submissions[s].attempts {
      if db.submissions[s].status == Queued {
        var c :| DelayedBy(db, s, c);
        assert NumbersDiffer(db, a, c);
      } else {
        assert NumbersDiffer(db, a, db.submissions[s].current.value);
      }
    }
  }

  lemma NewIsNotEarlier(st: State, act: Action, b: AttemptId)
    requires Inv(st) && Can(st, act) && Starts(st, act) && b in st.db.attempts
    ensures act.attempt in Next(st, act).db.attempts && b in Next(st, act).db.attempts
    ensures Spaced(Next(st, act).db, act.attempt, b)
  {
    var s := WorkerAt(st, act.w).d.submission;
    ClaimRows(st.db, s, act.w, act.lease, act.begun, act.localNow, act.attempt);
    DatabaseAdvances(st, act);
    assert AttemptOk(st.db, b);
  }

  lemma PairsStaySpaced(st: State, act: Action, a: AttemptId, b: AttemptId)
    requires Inv(st) && Can(st, act) && AllWait(st.db) && AllSpaced(st.db) && BeganInTime(st, act)
    requires a in Next(st, act).db.attempts && b in Next(st, act).db.attempts
    ensures Spaced(Next(st, act).db, a, b)
  {
    if a in st.db.attempts && b in st.db.attempts {
      assert Spaced(st.db, a, b);
      OldPairsKeep(st, act, a, b);
    } else if a in st.db.attempts {
      OnlyClaimAdds(st, act, b);
      NewPairIsSpacedIffInTime(st, act, a);
    } else {
      OnlyClaimAdds(st, act, a);
      if b in st.db.attempts {
        NewIsNotEarlier(st, act, b);
      } else {
        OnlyClaimAdds(st, act, b);
      }
    }
  }

  /** A claim that began too early leaves a pair behind that shows it. */
  lemma LateBeginningShows(st: State, act: Action) returns (a: AttemptId)
    requires Inv(st) && Can(st, act) && AllWait(st.db) && !BeganInTime(st, act)
    ensures a in st.db.attempts && a in Next(st, act).db.attempts && act.Claim? &&
        act.attempt in Next(st, act).db.attempts
    ensures !Spaced(Next(st, act).db, a, act.attempt)
  {
    var s := WorkerAt(st, act.w).d.submission;
    ClaimRows(st.db, s, act.w, act.lease, act.begun, act.localNow, act.attempt);
    assert SubmissionOk(st.db, s) && Waits(st.db, s);
    a :| DelayedBy(st.db, s, a);
    NewPairIsSpacedIffInTime(st, act, a);
  }

  lemma OnlyRetryQueues(st: State, act: Action, s: SubmissionId)
    requires Can(st, act) && s in Next(st, act).db.submissions
    requires Requeued(Next(st, act).db.submissions[s])
    ensures s in st.db.submissions
    ensures st.db.submissions[s].status == Queued ==>
        act.Retry? || Next(st, act).db.submissions[s] == st.db.submissions[s]
    ensures st.db.submissions[s].status != Queued ==> act.Retry?
  {
    if !WritesRows(act) {
      RowsFrame(st, act);
    }
  }

  lemma DelayStays(db: Db, db': Db, s: SubmissionId)
    requires Fence(db) && Advance(db, db') && s in db.submissions && Waits(db, s)
    requires s in db'.submissions && db'.submissions[s] == db.submissions[s]
    ensures Waits(db', s)
  {
    if Requeued(db.submissions[s]) {
      var a :| DelayedBy(db, s, a);
      assert AttemptOk(db, a) && SubmissionOk(db, s);
      FinishedRowsStay(db, db', a);
      assert DelayedBy(db', s, a);
    }
  }

  lemma RetriedWaits(st: State, act: Action, s: SubmissionId)
    requires Inv(st) && Can(st, act) && act.Retry? && Next(st, act).db != st.db
    requires s == WorkerAt(st, act.w).job.submission && s in st.db.submissions
    ensures s in Next(st, act).db.submissions && Waits(Next(st, act).db, s)
  {
    assert WorkerOk(st, act.w) && SubmissionOk(st.db, s);
    assert DelayedBy(Next(st, act).db, s, WorkerAt(st, act.w).job.attempt);
  }

  lemma RetryLeavesOthers(st: State, act: Action, s: SubmissionId)
    requires Inv(st) && Can(st, act) && act.Retry? && s in st.db.submissions
    requires Next(st, act).db == st.db || s != WorkerAt(st, act.w).job.submission
    ensures s in Next(st, act).db.submissions && Next(st, act).db.submissions[s] == st.db.submissions[s]
  {
    assert WorkerOk(st, act.w);
  }

  lemma RetryDelays(st: State, act: Action, s: SubmissionId)
    requires Inv(st) && Can(st, act) && AllWait(st.db) && act.Retry? && s in st.db.submissions
    ensures s in Next(st, act).db.submissions && Waits(Next(st, act).db, s)
  {
    if Next(st, act).db != st.db && s == WorkerAt(st, act.w).job.submission {
      RetriedWaits(st, act, s);
    } else {
      RetryLeavesOthers(st, act, s);
      DatabaseAdvances(st, act);
      DelayStays(st.db, Next(st, act).db, s);
    }
  }

  lemma WaitsStays(st: State, act: Action, s: SubmissionId)
    requires Inv(st) && Can(st, act) && AllWait(st.db) && s in Next(st, act).db.submissions
    ensures Waits(Next(st, act).db, s)
  {
    if Requeued(Next(st, act).db.submissions[s]) {
      OnlyRetryQueues(st, act, s);
      if act.Retry? {
        RetryDelays(st, act, s);
      } else {
        DatabaseAdvances(st, act);
        DelayStays(st.db, Next(st, act).db, s);
      }
    }
  }

  lemma AllWaitStep(st: State, act: Action)
    requires Inv(st) && Can(st, act) && AllWait(st.db)
    ensures AllWait(Next(st, act).db)
  {
    forall s | s in Next(st, act).db.submissions ensures Waits(Next(st, act).db, s) {
      WaitsStays(st, act, s);
    }
  }

  lemma AllSpacedStep(st: State, act: Action)
    requires Inv(st) && Can(st, act) && AllWait(st.db)
    ensures AllSpaced(Next(st, act).db) <==> AllSpaced(st.db) && BeganInTime(st, act)
  {
    if AllSpaced(st.db) && BeganInTime(st, act) {
      forall a, b | a in Next(st, act).db.attempts && b in Next(st, act).db.attempts
        ensures Spaced(Next(st, act).db, a, b) {
        PairsStaySpaced(st, act, a, b);
      }
    }
    if AllSpaced(Next(st, act).db) {
      forall a, b | a in st.db.attempts && b in st.db.attempts ensures Spaced(st.db, a, b) {
        OldPairsKeep(st, act, a, b);
        assert Spaced(Next(st, act).db, a, b);
      }
      if !BeganInTime(st, act) {
        var _ := LateBeginningShows(st, act);
      }
    }
  }

  ghost predicate AllBeganInTime(st: State, acts: seq<Action>)
    requires Runs(st, acts)
    decreases |acts|
  {
    acts == [] || (BeganInTime(st, acts[0]) && AllBeganInTime(Next(st, acts[0]), acts[1..]))
  }

  lemma {:induction false} SpacedAlways(st: State, acts: seq<Action>)
    requires Inv(st) && AllWait(st.db) && Runs(st, acts)
    ensures AllWait(AfterAll(st, acts).db)
    ensures AllSpaced(AfterAll(st, acts).db) <==> AllSpaced(st.db) && AllBeganInTime(st, acts)
    decreases |acts|
  {
    if acts != [] {
      AllWaitStep(st, acts[0]);
      AllSpacedStep(st, acts[0]);
      InvStep(st, acts[0]);
      SpacedAlways(Next(st, acts[0]), acts[1..]);
    }
  }

  /**
   Backoff at the time of the claim, in every run: a claim that starts an attempt behind transient failure k reads,
   once it has the row, a time at least RetryDelay(k) past that failure. If no worker's clock is ahead, so does the
   database.
   */
  lemma RetriesBackOff(acts: seq<Action>, claim: Action, a: AttemptId)
    requires Runs(EMPTY, acts) && Can(AfterAll(EMPTY, acts), claim) && Starts(AfterAll(EMPTY, acts), claim)
    requires var st, s := AfterAll(EMPTY, acts), WorkerAt(AfterAll(EMPTY, acts), claim.w).d.submission;
      && a in st.db.attempts && st.db.attempts[a].submission == s && st.db.attempts[a].code == Some(Transient)
      && s in st.db.submissions && st.db.attempts[a].number == st.db.submissions[s].attempts
    ensures var row := AfterAll(EMPTY, acts).db.attempts[a];
      && row.finishedAt.Some? && claim.localNow >= row.finishedAt.value + RetryDelay(row.number)
      && (claim.localNow <= AfterAll(EMPTY, acts).clock ==>
            AfterAll(EMPTY, acts).clock >= row.finishedAt.value + RetryDelay(row.number))
  {
    var st := AfterAll(EMPTY, acts);
    var s := WorkerAt(st, claim.w).d.submission;
    InvInitially();
    InvAlways(EMPTY, acts);
    SpacedAlways(EMPTY, acts);
    LastTransientIsQueued(st.db, s, a);
    assert Waits(st.db, s);
    var c :| DelayedBy(st.db, s, c);
    assert NumbersDiffer(st.db, a, c);
  }

  lemma LastTransientIsQueued(db: Db, s: SubmissionId, a: AttemptId)
    requires Fence(db) && s in db.submissions && a in db.attempts && db.attempts[a].submission == s
    requires db.attempts[a].code == Some(Transient) && db.attempts[a].number == db.submissions[s].attempts
    ensures Requeued(db.submissions[s])
  {
    assert SubmissionOk(db, s) && AttemptOk(db, a);
    var c := if db.submissions[s].current.Some? then db.submissions[s].current.value else a;
    assert NumbersDiffer(db, a, c);
  }

  /**
   Backoff in the stored rows: all attempts of a database are spaced by their stored times, if and only if every claim
   that started one had begun by the end of the retry delay that it found. Waiting for the row lock can break this.
   */
  lemma RowsAreSpacedIffClaimsBeganInTime(acts: seq<Action>)
    requires Runs(EMPTY, acts)
    ensures AllSpaced(AfterAll(EMPTY, acts).db) <==> AllBeganInTime(EMPTY, acts)
  {
    InvInitially();
    SpacedAlways(EMPTY, acts);
  }

  // Outbox pacing

  /** The event is published, or leased until the given time. */
  ghost predicate Reserved(db: Db, e: EventId, until: Time) {
    e in db.outbox && (db.outbox[e].publishedAt.Some? || db.outbox[e].claimedUntil == Some(until))
  }

  lemma ReservedStep(st: State, a: Action, e: EventId, until: Time)
    requires Can(st, a) && Reserved(st.db, e, until) && st.clock <= until
    ensures Reserved(Next(st, a).db, e, until)
    ensures a.LeaseBatch? ==> e !in a.batch
  {
    if !WritesOutbox(a) {
      OutboxFrame(st, a);
    }
  }

  /** Leases of publishers are disjoint: until a lease ends, no other batch contains its event. */
  lemma {:induction false} LeasedEventsAreExclusive(st: State, acts: seq<Action>, e: EventId, until: Time)
    requires Runs(st, acts) && Reserved(st.db, e, until) && AfterAll(st, acts).clock <= until
    ensures Reserved(AfterAll(st, acts).db, e, until)
    ensures forall i :: 0 <= i < |acts| && acts[i].LeaseBatch? ==> e !in acts[i].batch
    decreases |acts|
  {
    if acts != [] {
      ClockGrows(st, acts);
      ReservedStep(st, acts[0], e, until);
      LeasedEventsAreExclusive(Next(st, acts[0]), acts[1..], e, until);
      forall i | 0 <= i < |acts| && acts[i].LeaseBatch? ensures e !in acts[i].batch {
        assert i > 0 ==> acts[i] == acts[1..][i - 1];
      }
    }
  }

  /** Leasing a batch reserves its events for the length of the lease. */
  lemma BatchIsReserved(st: State, a: Action, e: EventId)
    requires Can(st, a) && a.LeaseBatch? && a.fault != Refused && BatchArguments(a.p, a.limit, a.lease) && e in a.batch
    ensures Reserved(Next(st, a).db, e, st.clock + a.lease)
    ensures e in Next(st, a).db.outbox && Next(st, a).db.outbox[e].claimedBy == Some(a.p)
  {}

  /** The reconciliation's statement, begun in this state, picks the submission. */
  ghost predicate Picks(snapshot: State, a: Action, s: SubmissionId) {
    a.Reconcile? && a.begun == snapshot.clock && s in a.ids && NeedsEvent(snapshot.db, s, a.begun)
  }

  /**
   A reconciliation that begins after another has inserted an event for a submission picks that submission only more
   than five minutes later.
   */
  lemma ReconciliationsAreSpaced(st: State, a: Action, acts: seq<Action>, b: Action, s: SubmissionId)
    requires Inv(st) && a.Reconcile? && Can(st, a) && a.fault != Refused && s in a.ids
    requires Runs(Next(st, a), acts) && Picks(AfterAll(Next(st, a), acts), b, s)
    ensures b.begun > a.begun + 5 * 60 * 1000
  {
    InvStep(st, a);
    var e := a.ids[s];
    ReconcileInserts(st, a, s);
    EventsStay(Next(st, a), acts, e);
    assert NeedsEvent(AfterAll(Next(st, a), acts).db, s, b.begun);
  }

  lemma ReconcileInserts(st: State, a: Action, s: SubmissionId)
    requires a.Reconcile? && Can(st, a) && a.fault != Refused && s in a.ids
    ensures a.ids[s] in Next(st, a).db.outbox
    ensures Next(st, a).db.outbox[a.ids[s]] == Event(s, a.begun, a.begun, None, None, None)
  {
    assert a.ids[s] in a.ids.Values;
  }

  /** What a reconciliation picks, from the newest event of the submission. */
  lemma PickedOnceQuiet(db: Db, s: SubmissionId, now: Time, e: EventId)
    requires s in db.submissions && e in db.outbox && db.outbox[e].submission == s
    requires forall d :: d in db.outbox && db.outbox[d].submission == s ==>
      db.outbox[d].createdAt <= db.outbox[e].createdAt
    ensures NeedsEvent(db, s, now) <==>
      && db.submissions[s].status == Queued
      && (db.submissions[s].retryAfter.Some? ==> db.submissions[s].retryAfter.value <= now)
      && (forall d :: d in db.outbox && db.outbox[d].submission == s ==> db.outbox[d].publishedAt.Some?)
      && now - db.outbox[e].createdAt > 5 * 60 * 1000
  {
  }

  /**
   When they overlap, they are not spaced: from every state in which a submission needs an event, a second statement
   that begins d later picks it as well if and only if the first one has not inserted its event by then.
   */
  lemma SecondPicksIffFirstIsPending(st: State, a: Action, s: SubmissionId, d: nat)
    requires Inv(st) && Picks(st, a, s) && Can(st, a) && a.fault == Clean
    ensures var pending := Next(st, Tick(d, 0)); Can(pending, a) && NeedsEvent(pending.db, s, st.clock + d)
    ensures var inserted := Next(Next(st, a), Tick(d, 0)); !NeedsEvent(inserted.db, s, st.clock + d)
  {
    ReconcileInserts(st, a, s);
  }

  /** The database clock d later. */
  function Later(st: State, d: nat): (r: State)
    ensures r.clock == st.clock + d && r.db == st.db
  {
    st.(clock := st.clock + d)
  }

  /** A reconciliation that picked one submission. */
  function InsertOne(begun: Time, s: SubmissionId, e: EventId): (a: Action)
    ensures a.Reconcile? && a.begun == begun && s in a.ids
  {
    Reconcile(begun, map[s := e], Clean)
  }

  /** One event more. */
  function WithEvent(st: State, s: SubmissionId, e: EventId, begun: Time): (r: State)
    ensures r.clock == st.clock && r.db.submissions == st.db.submissions
    ensures r.db.outbox.Keys == st.db.outbox.Keys + {e}
  {
    st.(db := st.db.(outbox := st.db.outbox[e := NewEvent(s, begun, 0)]))
  }

  lemma StillNeedsEvent(db: Db, s: SubmissionId, now: Time, d: nat)
    requires NeedsEvent(db, s, now)
    ensures NeedsEvent(db, s, now + d)
  {}

  /**
   Two overlapping statements, of two API processes, say: both pick the submission, and it gets two events d apart.
   */
  lemma OverlappingReconciliationsDuplicate(st: State, s: SubmissionId, d: nat, e: EventId, f: EventId)
      returns (acts: seq<Action>, st': State)
    requires NeedsEvent(st.db, s, st.clock) && e !in st.db.outbox && f !in st.db.outbox && e != f
    ensures Picks(st, InsertOne(st.clock, s, e), s) && Picks(Later(st, d), InsertOne(st.clock + d, s, f), s)
    ensures acts == [Tick(d, 0)] + ([InsertOne(st.clock, s, e)] + [InsertOne(st.clock + d, s, f)]) && Run(st, acts, st')
    ensures st' == WithEvent(WithEvent(Later(st, d), s, e, st.clock), s, f, st.clock + d)
  {
    StillNeedsEvent(st.db, s, st.clock, d);
    acts, st' := OverlapRuns(st, s, d, e, f);
  }

  lemma OverlapRuns(st: State, s: SubmissionId, d: nat, e: EventId, f: EventId) returns (acts: seq<Action>, st': State)
    requires s in st.db.submissions && e !in st.db.outbox && f !in st.db.outbox && e != f
    ensures acts == [Tick(d, 0)] + ([InsertOne(st.clock, s, e)] + [InsertOne(st.clock + d, s, f)]) && Run(st, acts, st')
    ensures st' == WithEvent(WithEvent(Later(st, d), s, e, st.clock), s, f, st.clock + d)
  {
    TickRuns(st, d);
    var both;
    both, st' := BothInsert(Later(st, d), s, st.clock, st.clock + d, e, f);
    RunJoins(st, [Tick(d, 0)], Later(st, d), both, st');
    acts := [Tick(d, 0)] + both;
  }

  lemma BothInsert(st: State, s: SubmissionId, t: Time, u: Time, e: EventId, f: EventId)
      returns (both: seq<Action>, end: State)
    requires t <= st.clock && u <= st.clock && s in st.db.submissions && e !in st.db.outbox && f !in st.db.outbox &&
        e != f
    ensures both == [InsertOne(t, s, e)] + [InsertOne(u, s, f)]
    ensures Run(st, both, end) && end == WithEvent(WithEvent(st, s, e, t), s, f, u)
  {
    var mid := WithEvent(st, s, e, t);
    OneIdInsertsOne(st, t, s, e);
    OneIdInsertsOne(mid, u, s, f);
    end := WithEvent(mid, s, f, u);
    RunJoins(st, [InsertOne(t, s, e)], mid, [InsertOne(u, s, f)], end);
    both := [InsertOne(t, s, e)] + [InsertOne(u, s, f)];
  }

  lemma TickRuns(st: State, d: nat)
    ensures Run(st, [Tick(d, 0)], Later(st, d))
  {
    RunOfOne(st, Tick(d, 0));
  }

  lemma OneRow(db: Db, now: Time, s: SubmissionId, e: EventId)
    requires s in db.submissions && e !in db.outbox
    ensures Insertable(db, map[s := e])
    ensures ReconcileTx(db, now, map[s := e]).db == db.(outbox := db.outbox[e := NewEvent(s, now, 0)])
  {
    var ids := map[s := e];
    OneValue(s, e);
    var whole, one := ReconcileTx(db, now, ids).db.outbox, db.outbox[e := NewEvent(s, now, 0)];
    forall k ensures (k in whole <==> k in one) && (k in one ==> whole[k] == one[k]) {
      if k == e {
        assert Addressee(ids, e) == s;
      }
    }
    SameMap(whole, one);
  }

  lemma OneIdInsertsOne(st: State, begun: Time, s: SubmissionId, e: EventId)
    requires begun <= st.clock && s in st.db.submissions && e !in st.db.outbox
    ensures Run(st, [InsertOne(begun, s, e)], WithEvent(st, s, e, begun))
  {
    OneRow(st.db, begun, s, e);
    RunOfOne(st, InsertOne(begun, s, e));
  }

  /** Events keep their submission and their time of creation. */
  ghost predicate EventStands(was: Db, db: Db, e: EventId) {
    e in was.outbox ==>
      e in db.outbox && db.outbox[e].submission == was.outbox[e].submission &&
          db.outbox[e].createdAt == was.outbox[e].createdAt
  }

  lemma EventStandsStep(st: State, a: Action, e: EventId)
    requires Inv(st) && Can(st, a)
    ensures EventStands(st.db, Next(st, a).db, e)
  {
    DatabaseAdvances(st, a);
  }

  lemma {:induction false} EventsStay(st: State, acts: seq<Action>, e: EventId)
    requires Inv(st) && Runs(st, acts)
    ensures EventStands(st.db, AfterAll(st, acts).db, e)
    decreases |acts|
  {
    if acts != [] {
      EventStandsStep(st, acts[0], e);
      InvStep(st, acts[0]);
      EventsStay(Next(st, acts[0]), acts[1..], e);
    }
  }
}
