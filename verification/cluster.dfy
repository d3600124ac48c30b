/**
 The store and the stream together with everyone who calls them. Each method below is one remote call of one worker or
 publisher, that is, one action of the protocol; between its calls a caller is exposed to Interfere.
 */
module Deployment {
  import opened Basics
  import opened Lifecycle
  import opened Judging
  import opened Database
  import opened Queue
  import opened Protocol
  import opened Invariant
  import opened Safety
  import opened Answers
  import opened Repository
  import opened Transport

  lemma Extend(history: seq<Action>, st: State, act: Action)
    requires Run(EMPTY, history, st) && Can(st, act)
    ensures Run(EMPTY, history + [act], Next(st, act))
  {
    RunOfOne(st, act);
    RunJoins(EMPTY, history, st, [act], Next(st, act));
  }

  lemma RunIsInv(history: seq<Action>, st: State)
    requires Run(EMPTY, history, st)
    ensures Inv(st) && Reachable(st)
  {
    RunOpens(EMPTY, history, st);
    ReachableIsInv(st);
  }

  /** Whether an action is one of worker w. */
  predicate IsBy(a: Action, w: string) {
    ByWorker(a) && a.w == w
  }

  predicate IsByPublisher(a: Action, p: string) {
    ByPublisher(a) && a.p == p
  }

  class Cluster {
    const store: Store
    const stream: Stream
    var clock: Time
    var queueClock: Time
    ghost var workers: map<string, Worker>
    ghost var publishers: map<string, Publisher>
    ghost var seen: map<AttemptId, Evidence>
    ghost var history: seq<Action>

    ghost function St(): State
      reads this, store, stream
    {
      State(clock, queueClock, store.Rows(), stream.Contents(), workers, publishers, seen)
    }

    /** The objects are in the state that the recorded run of the protocol leads to. */
    ghost predicate Valid()
      reads this, store, stream
    {
      Run(EMPTY, history, St())
    }

    /** One protocol action happened, and it is on record. */
    twostate predicate Did(act: Action)
      reads this, store, stream
    {
      Valid() && history == old(history) + [act] && Can(old(St()), act) && St() == Next(old(St()), act)
    }

    twostate predicate DidNothing()
      reads this, store, stream
    {
      Valid() && history == old(history) && St() == old(St())
    }

    constructor ()
      ensures Valid() && history == [] && fresh(store) && fresh(stream)
    {
      store := new Store();
      stream := new Stream();
      clock, queueClock := 0, 0;
      workers, publishers, seen, history := map[], map[], map[], [];
      new;
      RunOpens(EMPTY, [], EMPTY);
    }

    lemma ValidIsInv()
      requires Valid()
      ensures Inv(St()) && Reachable(St())
    {
      RunIsInv(history, St());
    }

    /**
     Any number of actions of everyone else, clocks included. Callers learn nothing beyond this contract, so what they
     guarantee holds for every such interleaving.
     */
    method Interfere(ghost w: string) returns (ghost others: seq<Action>)
      requires Valid()
      modifies this, store, stream
      ensures Valid() && history == old(history) + others
      ensures Run(old(St()), others, St())
      ensures forall a :: a in others ==> !IsBy(a, w)
      ensures WorkerAt(St(), w) == old(WorkerAt(St(), w))
    {
      others := [];
      RunOpens(St(), [], St());
    }

    method InterferePublisher(ghost p: string) returns (ghost others: seq<Action>)
      requires Valid()
      modifies this, store, stream
      ensures Valid() && history == old(history) + others
      ensures Run(old(St()), others, St())
      ensures forall a :: a in others ==> !IsByPublisher(a, p)
      ensures PublisherAt(St(), p) == old(PublisherAt(St(), p))
    {
      others := [];
      RunOpens(St(), [], St());
    }

    // Receiving

    method AutoClaim(w: string, minIdle: Time) returns (reply: Reply<Option<MessageId>>, ghost act: Action)
      requires Valid() && WorkerAt(St(), w) == Idle && w != "" && minIdle > 0
      modifies this, stream
      ensures DidNothing() || (Did(act) && act.Fetch? && act.w == w)
      ensures if reply.Ok? then FirstPick(old(St()).mq, reply.value, old(queueClock), minIdle)
              else reply.error == Unavailable
      ensures if reply.Ok? && reply.value.Some? then Did(act) && act == Fetch(w, minIdle, reply.value, Clean)
              else reply.Ok? ==> DidNothing()
      ensures WorkerAt(St(), w) == if reply.Ok? && reply.value.Some? then Fetched(reply.value.value) else Idle
    {
      var fault: Fault := *;
      ValidIsInv();
      ghost var before := St();
      ghost var pick;
      reply, pick := stream.AutoClaim(w, queueClock, minIdle, fault);
      act := Fetch(w, minIdle, pick, fault);
      if pick.Some? {
        Record(before, act);
      }
    }

    method ReadGroup(w: string, minIdle: Time) returns (reply: Reply<MessageId>, ghost act: Action)
      requires Valid() && WorkerAt(St(), w) == Idle && w != "" && minIdle > 0
      modifies this, stream
      ensures DidNothing() || (Did(act) && act.Fetch? && act.w == w)
      ensures reply.Ok? ==>
        Did(act) && act == Fetch(w, minIdle, None, Clean) && reply.value == TakenMessage(old(St()).mq, None)
      ensures reply == Err(Empty) ==> DidNothing() && old(St()).mq.delivered >= |old(St()).mq.log|
      ensures WorkerAt(St(), w) == if reply.Ok? then Fetched(reply.value) else Idle
    {
      var fault: Fault := *;
      ghost var before := St();
      reply := stream.ReadGroup(w, queueClock, fault);
      act := Fetch(w, minIdle, None, fault);
      if before.mq.delivered < |before.mq.log| {
        Record(before, act);
      }
    }

    /** Brings the program counters and the record up to date once store and stream have been called. */
    ghost method Record(before: State, act: Action)
      requires Run(EMPTY, history, before) && Can(before, act)
      requires St() == Next(before, act).(workers := workers, publishers := publishers, seen := seen)
      modifies this
      ensures Valid() && history == old(history) + [act] && St() == Next(before, act)
      ensures clock == old(clock) && queueClock == old(queueClock)
    {
      Extend(history, before, act);
      workers, publishers, seen := Next(before, act).workers, Next(before, act).publishers, Next(before, act).seen;
      history := history + [act];
    }

    method Describe(w: string, m: MessageId) returns (reply: Reply<Delivery>, ghost act: Action)
      requires Valid() && WorkerAt(St(), w) == Fetched(m)
      modifies this
      ensures Did(act) && act.Inspect? && act.w == w
      ensures reply.Ok? ==>
        && m in old(St()).mq.pending && m < |old(St()).mq.log|
        && reply.value == Delivery(m, old(St()).mq.log[m], old(St()).mq.pending[m].count)
      ensures WorkerAt(St(), w) == if reply.Ok? then Received(reply.value) else Idle
    {
      var fault: Fault := *;
      ghost var before := St();
      act := Inspect(w, fault);
      reply := stream.Describe(m, fault);
      Record(before, act);
    }

    // Judging

    /** When a transaction began that gets its row locked now. */
    method Beginning() returns (begun: Time)
      ensures begun <= clock
    {
      begun := *;
      if begun > clock {
        begun := clock;
      }
    }

    method Claim(w: string, d: Delivery, lease: Time, maxDeliveries: int) returns (reply: Reply<Job>, ghost act: Action)
      requires Valid() && WorkerAt(St(), w) == Received(d)
      modifies this, store
      ensures Did(act) && act.Claim? && act.w == w && act.lease == lease && act.maxDeliveries == maxDeliveries
      ensures reply.Ok? ==> act.fault == Clean && reply.value.attempt !in old(St()).db.attempts
      ensures w != "" && lease > 0 && act.fault == Clean ==>
        && d.submission in old(St()).db.submissions
        && ClaimGets(old(St()).db.submissions[d.submission], d.submission, act.attempt, act.localNow, reply)
      ensures WorkerAt(St(), w) == match reply
                                   case Ok(job) => Holding(d, job, Limit(maxDeliveries), Opening)
                                   case Err(AlreadyTerminal(deadLetter)) => if deadLetter then Burying(d) else Acking(d)
                                   case Err(_) => Idle
    {
      var fault: Fault := *;
      var localNow: Time := *;
      var begun := Beginning();
      var attempt := NewId(store.attempts.Keys);
      ghost var before := St();
      act := Action.Claim(w, lease, begun, localNow, maxDeliveries, attempt, fault);
      reply := store.Claim(d.submission, w, lease, begun, localNow, attempt, fault);
      RunIsInv(history, before);
      ClaimAnswers(before, act);
      Record(before, act);
    }

    /** The worker notes what its sandbox showed; nobody else can see it. */
    ghost method Look(w: string, sight: Sight) returns (act: Action)
      requires Valid() && WorkerAt(St(), w).Holding?
      requires CanSee(WorkerAt(St(), w).job.problem.tests, WorkerAt(St(), w).stage, sight)
      requires WorkerAt(St(), w).stage.InTests? ==>
          0 <= WorkerAt(St(), w).stage.r.passed < |WorkerAt(St(), w).job.problem.tests|
      modifies this
      ensures Did(act) && act == Action.Look(w, sight)
      ensures var pc := old(WorkerAt(St(), w));
        WorkerAt(St(), w) == pc.(stage := See(pc.job.problem.tests, pc.stage, sight))
    {
      ValidIsInv();
      assert WorkerOk(St(), w);
      act := Action.Look(w, sight);
      Record(St(), act);
    }

    method Transition(w: string, attempt: AttemptId, to: Status) returns (reply: Reply<()>, ghost act: Action)
      requires Valid() && WorkerAt(St(), w).Holding? && WorkerAt(St(), w).job.attempt == attempt
      requires WorkerAt(St(), w).stage == EnterCompile || WorkerAt(St(), w).stage == EnterRun
      requires to == EntryStatus(WorkerAt(St(), w).stage)
      modifies this, store
      ensures Did(act) && act.Enter? && act.w == w
      ensures var pc := old(WorkerAt(St(), w));
        WorkerAt(St(), w) == pc.(stage := if reply.Ok? then Entered(pc.job.problem.tests, pc.stage) else Broken)
    {
      var fault: Fault := *;
      ghost var before := St();
      act := Enter(w, fault);
      reply := store.Transition(attempt, to, fault);
      Record(before, act);
    }

    method Finish(w: string, attempt: AttemptId, r: Result) returns (reply: Reply<()>, ghost act: Action)
      requires Valid() && WorkerAt(St(), w).Holding? && WorkerAt(St(), w).job.attempt == attempt
      requires WorkerAt(St(), w).stage == Done(r)
      modifies this, store
      ensures Did(act) && act.Finish? && act.w == w
      ensures reply.Ok? ==> var s := old(WorkerAt(St(), w)).d.submission;
                s in St().db.submissions && St().db.submissions[s].status == Final
      ensures WorkerAt(St(), w) == if reply.Ok? then Acking(old(WorkerAt(St(), w)).d) else Idle
    {
      var fault: Fault := *;
      ghost var before := St();
      var begun := Beginning();
      act := Action.Finish(w, begun, fault);
      reply := store.Finish(attempt, r, begun, fault);
      ghost var was := history;
      Record(before, act);
      if reply.Ok? {
        RunIsInv(was, before);
        FinishedIsFinal(before, act);
      }
    }

    method Retry(w: string, attempt: AttemptId, delay: Time) returns (reply: Reply<()>, ghost act: Action)
      requires Valid() && WorkerAt(St(), w).Holding? && WorkerAt(St(), w).job.attempt == attempt
      requires WorkerAt(St(), w).stage == Broken && WorkerAt(St(), w).job.number < WorkerAt(St(), w).limit
      requires delay == RetryDelay(WorkerAt(St(), w).job.number)
      modifies this, store
      ensures Did(act) && act.Retry? && act.w == w
      ensures reply.Ok? ==> IsPutBack(St(), old(WorkerAt(St(), w)).d.submission, attempt, w)
      ensures WorkerAt(St(), w) == if reply.Ok? then Acking(old(WorkerAt(St(), w)).d) else Idle
    {
      var fault: Fault := *;
      var e := NewId(store.outbox.Keys);
      ghost var before := St();
      var begun := Beginning();
      act := Action.Retry(w, begun, e, fault);
      reply := store.Retry(attempt, delay, begun, e, fault);
      ghost var was := history;
      Record(before, act);
      if reply.Ok? {
        RunIsInv(was, before);
        RetriedIsQueued(before, act);
      }
    }

    method Fail(w: string, attempt: AttemptId) returns (reply: Reply<()>, ghost act: Action)
      requires Valid() && WorkerAt(St(), w).Holding? && WorkerAt(St(), w).job.attempt == attempt
      requires WorkerAt(St(), w).stage == Broken && WorkerAt(St(), w).job.number >= WorkerAt(St(), w).limit
      modifies this, store
      ensures Did(act) && act.Fail? && act.w == w
      ensures var pc := old(WorkerAt(St(), w));
        WorkerAt(St(), w) == if reply.Ok? then Burying(Counted(pc.d, pc.job)) else Idle
    {
      var fault: Fault := *;
      ghost var before := St();
      var begun := Beginning();
      act := Action.Fail(w, begun, fault);
      reply := store.Fail(attempt, begun, fault);
      Record(before, act);
    }

    // Answering the queue

    method Ack(w: string, m: MessageId) returns (reply: Reply<()>, ghost act: Action)
      requires Valid() && WorkerAt(St(), w).Acking? && WorkerAt(St(), w).d.message == m
      modifies this, stream
      ensures Did(act) && act.Ack? && act.w == w && WorkerAt(St(), w) == Idle
      ensures reply.Ok? ==> !Unacked(St().mq, m)
    {
      var fault: Fault := *;
      ValidIsInv();
      assert WorkerOk(St(), w);
      ghost var before := St();
      act := Action.Ack(w, fault);
      reply := stream.Ack(m, fault);
      Record(before, act);
    }

    method DeadLetter(w: string, d: Delivery, reason: string) returns (reply: Reply<()>, ghost act: Action)
      requires Valid() && WorkerAt(St(), w) == Burying(d) && reason == REASON
      modifies this, stream
      ensures Did(act) && act.Bury? && act.w == w && WorkerAt(St(), w) == Idle
      ensures reply.Ok? ==> !Unacked(St().mq, d.message) && DeadEntryFor(St(), d.submission)
      ensures reply.Ok? ==>
          St().mq.dead == old(St()).mq.dead + [DeadEntry(d.submission, d.message, d.deliveries, reason)]
    {
      var fault: Fault := *;
      ValidIsInv();
      assert WorkerOk(St(), w);
      ghost var before := St();
      act := Bury(w, fault);
      reply := stream.DeadLetter(d, reason, fault);
      Record(before, act);
      if fault == Clean {
        BuriedIsDead(before, act);
      }
    }

    /** Handle returns in the middle: a stale lease, a shutdown or a failed call. */
    ghost method Stop(w: string) returns (act: Action)
      requires Valid()
      modifies this
      ensures Did(act) && act == StopWorker(w) && WorkerAt(St(), w) == Idle
    {
      act := StopWorker(w);
      Record(St(), act);
    }

    // Publishing

    /** Which rows other transactions hold locked at that moment is not up to the caller. */
    method ClaimOutbox(p: string, limit: nat, lease: Time) returns (reply: Reply<seq<OutboxEvent>>, ghost act: Action)
      requires Valid() && PublisherAt(St(), p) == Resting
      modifies this, store
      ensures Did(act) && act.LeaseBatch? && act.p == p && act.limit == limit && act.lease == lease
      ensures reply.Ok? ==> reply.value == Refs(old(St().db), act.batch)
      ensures PublisherAt(St(), p) == if reply.Ok? then Proceed(reply.value) else Resting
    {
      var fault: Fault := *;
      var locked: set<EventId> := *;
      ghost var before := St();
      var rows := store.SelectReady(clock, limit, locked);
      act := LeaseBatch(p, limit, lease, locked, rows, fault);
      reply := store.ClaimOutbox(p, limit, lease, clock, locked, rows, fault);
      Record(before, act);
    }

    method Publish(p: string, s: SubmissionId) returns (reply: Reply<()>, ghost act: Action)
      requires Valid() && PublisherAt(St(), p).Posting? && PublisherAt(St(), p).todo != [] &&
          PublisherAt(St(), p).todo[0].submission == s
      modifies this, stream
      ensures Did(act) && act.Post? && act.p == p
      ensures PublisherAt(St(), p) ==
              if reply.Ok? then Marking(old(PublisherAt(St(), p)).todo[0], old(PublisherAt(St(), p)).todo[1..])
                  else Resting
    {
      var fault: Fault := *;
      ghost var before := St();
      act := Post(p, fault);
      reply := stream.Publish(s, fault);
      Record(before, act);
    }

    method MarkPublished(p: string, e: EventId) returns (reply: Reply<()>, ghost act: Action)
      requires Valid() && PublisherAt(St(), p).Marking? && PublisherAt(St(), p).event.id == e
      modifies this, store
      ensures Did(act) && act.Mark? && act.p == p
      ensures PublisherAt(St(), p) == if reply.Ok? then Proceed(old(PublisherAt(St(), p)).rest) else Resting
      ensures reply.Ok? <==> act.fault == Clean && MarkPublishedTx(old(St()).db, e, old(clock)).Commit?
      ensures reply.Ok? ==> e in St().db.outbox && St().db.outbox[e].publishedAt.Some?
    {
      var fault: Fault := *;
      ghost var before := St();
      act := Mark(p, fault);
      reply := store.MarkPublished(e, clock, fault);
      Record(before, act);
    }

    // Reconciling

    /**
     One statement of an API process, in two instants: it picks from the rows as they are when it begins, and everyone
     else goes on until it inserts.
     */
    method Reconcile() returns (reply: Reply<nat>, ghost others: seq<Action>, ghost act: Action)
      requires Valid()
      modifies this, store, stream
      ensures Valid() && history == old(history) + others + [act]
      ensures act.Reconcile? && act.begun == old(clock)
      ensures forall s :: s in act.ids <==> NeedsEvent(old(St()).db, s, old(clock))
      ensures reply == if act.fault == Clean then Ok(|act.ids|) else Err(Unavailable)
    {
      var fault: Fault := *;
      var begun := clock;
      ghost var snapshot := St();
      var picked := store.SelectUncarried(begun);
      ValidIsInv();
      others := Interfere("");
      ghost var before := St();
      StillThere(snapshot, others, before, picked);
      var ids := NewIds(picked, store.outbox.Keys);
      act := Action.Reconcile(begun, ids, fault);
      reply := store.InsertEvents(begun, ids, fault);
      Record(before, act);
    }
  }

  /** Submissions stay, and the clock does not go back. */
  lemma StillThere(st: State, acts: seq<Action>, st': State, picked: set<SubmissionId>)
    requires Inv(st) && Run(st, acts, st') && picked <= st.db.submissions.Keys
    ensures picked <= st'.db.submissions.Keys && st.clock <= st'.clock
  {
    RunOpens(st, acts, st');
    forall s | s in picked ensures s in st'.db.submissions {
      TerminalRowsAreFrozen(st, acts, s);
    }
    ClockGrows(st, acts);
  }

  /** Identifiers that are not in use, a different one for each submission. */
  method NewIds(picked: set<SubmissionId>, used: set<EventId>) returns (ids: map<SubmissionId, EventId>)
    ensures ids.Keys == picked && Injective(ids) && forall s :: s in ids ==> ids[s] !in used
  {
    var left, taken := picked, used;
    ids := map[];
    while left != {}
      invariant ids.Keys + left == picked && ids.Keys !! left && Injective(ids) && used <= taken
      invariant forall s :: s in ids ==> ids[s] in taken && ids[s] !in used
      decreases left
    {
      var s :| s in left;
      var e := NewId(taken);
      ids := ids[s := e];
      left, taken := left - {s}, taken + {e};
    }
  }

  /** An identifier that is not in use. */
  method NewId(used: set<nat>) returns (id: nat)
    ensures id !in used
  {
    id := 0;
    var left := used;
    while left != {}
      invariant left <= used && forall x :: x in used && x !in left ==> x < id
      decreases left
    {
      var x :| x in left;
      left := left - {x};
      if id <= x {
        id := x + 1;
      }
    }
  }
}
