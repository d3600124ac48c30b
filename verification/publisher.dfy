/** internal/outbox/publisher.go: PublishBatch, running against a cluster that everyone else keeps changing. */
module Outbox {
  import opened Basics
  import opened Database
  import opened Protocol
  import opened Invariant
  import opened Deployment

  class Publisher {
    const id: string
    const lease: Time
    const batchSize: int
    const cluster: Cluster

    constructor (id: string, lease: Time, batchSize: int, cluster: Cluster)
      ensures this.id == id && this.lease == lease && this.batchSize == batchSize && this.cluster == cluster
    {
      this.id, this.lease, this.batchSize, this.cluster := id, lease, batchSize, cluster;
    }

    ghost function At(): Protocol.Publisher
      reads this, cluster, cluster.store, cluster.stream
    {
      PublisherAt(cluster.St(), id)
    }

    ghost predicate Valid()
      reads this, cluster, cluster.store, cluster.stream
    {
      cluster.Valid()
    }

    ghost predicate AllDone(events: seq<OutboxEvent>, n: int)
      requires 0 <= n <= |events|
      reads this, cluster, cluster.store, cluster.stream
    {
      forall i :: 0 <= i < n ==> DoneIn(cluster.St(), events[i])
    }

    /** The events are those of one batch that this publisher leased since the given point of the record. */
    ghost predicate Leased(events: seq<OutboxEvent>, since: nat)
      reads this, cluster
    {
      exists i :: since <= i < |cluster.history| && IsLeaseOf(cluster.history[i], id, events)
    }

    /** What this publisher has marked along the record since the given state. */
    ghost predicate Audited(from: State, since: nat, r: Report)
      reads this, cluster, cluster.store, cluster.stream
    {
      && since <= |cluster.history|
      && Run(from, cluster.history[since..], cluster.St())
      && Audit(from, cluster.history[since..], id, BLANK) == r
    }

    /**
     Publishes the leased events in order, each before it is marked. The first published events are done, whether the
     call succeeds or fails; without an error that is the whole batch. These are exactly the events that the call has
     marked, unless its last mark took effect and only the reply was lost: then it has marked the next one as well.
     */
    method PublishBatch()
        returns (published: nat, err: Option<Error>, ghost events: seq<OutboxEvent>, ghost report: Report)
      requires Valid() && At() == Resting
      modifies cluster, cluster.store, cluster.stream
      ensures Valid() && old(cluster.history) <= cluster.history && At() == Resting
      ensures published <= |events| && AllDone(events, published)
      ensures err == None ==> published == |events| && Leased(events, |old(cluster.history)|)
      ensures report == Audit(old(cluster.St()), cluster.history[|old(cluster.history)|..], id, BLANK)
      ensures report.lost ==> err.Some? && published < |events|
      ensures report.marked == Ids(events)[..if report.lost then published + 1 else published]
      ensures report.answered == published && (|report.marked| == published <==> !report.lost)
    {
      published, events := 0, [];
      ghost var from, since := cluster.St(), |cluster.history|;
      ghost var lease;
      var leased;
      leased, lease := Lease();
      report := Report([], 0, false);
      if leased.Err? {
        return 0, Some(leased.error), [], report;
      }
      events := leased.value;
      err := None;
      ghost var place := |cluster.history| - 1;
      while published < |leased.value| && err == None
        invariant published <= |events| && events == leased.value
        invariant Valid() && old(cluster.history) <= cluster.history
        invariant since <= place < |cluster.history| && cluster.history[place] == lease
        invariant At() == if err == None then Proceed(events[published..]) else Resting
        invariant AllDone(events, published)
        invariant Audited(from, since, report) && IsReportOf(report, events, published, err)
        decreases |leased.value| - published, if err == None then 1 else 0
      {
        err, report := PublishOne(leased.value[published], events, published, from, since);
        if err == None {
          published := published + 1;
        }
      }
    }

    /** Thirty seconds and fifty rows, unless configured otherwise. */
    method Lease() returns (reply: Reply<seq<OutboxEvent>>, ghost act: Action)
      requires Valid() && At() == Resting
      modifies cluster, cluster.store, cluster.stream
      ensures Valid() && old(cluster.history) < cluster.history && cluster.history[|cluster.history| - 1] == act
      ensures act.LeaseBatch? && act.p == id
      ensures act.lease == if lease <= 0 then 30 * 1000 else lease
      ensures act.limit == if batchSize <= 0 then 50 else batchSize
      ensures reply.Ok? ==> IsLeaseOf(act, id, reply.value)
      ensures At() == if reply.Ok? then Proceed(reply.value) else Resting
      ensures Audited(old(cluster.St()), |old(cluster.history)|, BLANK)
    {
      var duration, size := lease, batchSize;
      if duration <= 0 {
        duration := 30 * 1000;
      }
      if size <= 0 {
        size := 50;
      }
      ghost var from, since := cluster.St(), |cluster.history|;
      RunOfNothing(from);
      assert cluster.history[since..] == [];
      Meanwhile([], 0, from, since, BLANK);
      ghost var before, record := cluster.St(), cluster.history;
      reply, act := cluster.ClaimOutbox(id, size, duration);
      AuditOneMore(from, record, since, before, act, id, BLANK);
    }

    /** Publish, then mark; what was done before stays done. */
    method PublishOne(event: OutboxEvent, ghost events: seq<OutboxEvent>, ghost n: nat, ghost from: State,
                      ghost since: nat)
        returns (err: Option<Error>, ghost report: Report)
      requires n < |events| && event == events[n] && Valid() && At() == Posting(events[n..]) && AllDone(events, n)
      requires Audited(from, since, Report(Ids(events)[..n], n, false))
      modifies cluster, cluster.store, cluster.stream
      ensures Valid() && old(cluster.history) <= cluster.history
      ensures At() == if err == None then Proceed(events[n + 1..]) else Resting
      ensures AllDone(events, if err == None then n + 1 else n)
      ensures Audited(from, since, report) && IsReportOf(report, events, if err == None then n + 1 else n, err)
    {
      assert events[n..][1..] == events[n + 1..];
      report := Report(Ids(events)[..n], n, false);
      err := Post(event, events, n, from, since);
      if err == None {
        err, report := Mark(event, events, n, from, since);
      }
    }

    /** What everyone else does takes nothing back. */
    method Meanwhile(ghost events: seq<OutboxEvent>, ghost n: nat, ghost from: State, ghost since: nat, ghost r: Report)
      requires Valid() && n <= |events| && AllDone(events, n) && Audited(from, since, r)
      modifies cluster, cluster.store, cluster.stream
      ensures Valid() && old(cluster.history) <= cluster.history && AllDone(events, n) && At() == old(At())
      ensures Audited(from, since, r)
    {
      ghost var before, record := cluster.St(), cluster.history;
      cluster.ValidIsInv();
      ghost var others := cluster.InterferePublisher(id);
      DoneStaysOverRun(before, others, cluster.St(), events, n);
      AuditPastOthers(from, record, since, before, others, cluster.St(), id, r);
    }

    method Post(event: OutboxEvent, ghost events: seq<OutboxEvent>, ghost n: nat, ghost from: State, ghost since: nat)
        returns (err: Option<Error>)
      requires n < |events| && event == events[n] && Valid() && At() == Posting(events[n..]) && AllDone(events, n)
      requires Audited(from, since, Report(Ids(events)[..n], n, false))
      modifies cluster, cluster.store, cluster.stream
      ensures Valid() && old(cluster.history) <= cluster.history && AllDone(events, n)
      ensures At() == if err == None then Marking(event, events[n..][1..]) else Resting
      ensures Audited(from, since, Report(Ids(events)[..n], n, false))
    {
      Meanwhile(events, n, from, since, Report(Ids(events)[..n], n, false));
      ghost var before, record := cluster.St(), cluster.history;
      cluster.ValidIsInv();
      var posted, act := cluster.Publish(id, event.submission);
      DoneStays(before, act, events, n);
      AuditOneMore(from, record, since, before, act, id, Report(Ids(events)[..n], n, false));
      err := if posted.Ok? then None else Some(posted.error);
    }

    method Mark(event: OutboxEvent, ghost events: seq<OutboxEvent>, ghost n: nat, ghost from: State, ghost since: nat)
        returns (err: Option<Error>, ghost report: Report)
      requires n < |events| && event == events[n] && Valid() && At() == Marking(event, events[n..][1..]) &&
          AllDone(events, n)
      requires Audited(from, since, Report(Ids(events)[..n], n, false))
      modifies cluster, cluster.store, cluster.stream
      ensures Valid() && old(cluster.history) <= cluster.history
      ensures At() == if err == None then Proceed(events[n..][1..]) else Resting
      ensures AllDone(events, if err == None then n + 1 else n)
      ensures Audited(from, since, report) && IsReportOf(report, events, if err == None then n + 1 else n, err)
    {
      ghost var clean := Report(Ids(events)[..n], n, false);
      Meanwhile(events, n, from, since, clean);
      ghost var before, record := cluster.St(), cluster.history;
      cluster.ValidIsInv();
      var marked, act := cluster.MarkPublished(id, event.id);
      err := if marked.Ok? then None else Some(marked.error);
      DoneOneMore(before, act, events, n, err);
      AuditOneMore(from, record, since, before, act, id, clean);
      report := Noted(before, act, id, clean);
      MarkNoted(before, act, events, n, err);
    }
  }

  function Ids(events: seq<OutboxEvent>): (ids: seq<EventId>)
    ensures |ids| == |events|
  {
    seq(|events|, i requires 0 <= i < |events| => events[i].id)
  }

  // An audit of a record: which events a publisher has marked

  /** The events marked, in order; how many marks were answered; whether the last call marked one without an answer. */
  datatype Report = Report(marked: seq<EventId>, answered: nat, lost: bool)

  const BLANK := Report([], 0, false)

  /** The database marks the event; the reply may still get lost. */
  ghost predicate Commits(st: State, a: Action)
    requires Can(st, a) && a.Mark?
  {
    a.fault != Refused && MarkPublishedTx(st.db, PublisherAt(st, a.p).event.id, st.clock).Commit?
  }

  ghost function Noted(st: State, a: Action, p: string, r: Report): Report
    requires Can(st, a)
  {
    if !IsByPublisher(a, p) then r
    else if a.Mark? && Commits(st, a) then
      Report(r.marked + [PublisherAt(st, p).event.id], r.answered + (if a.fault == Clean then 1 else 0),
             a.fault == ReplyLost)
    else Report(r.marked, r.answered, false)
  }

  ghost function Audit(st: State, acts: seq<Action>, p: string, r: Report): Report
    decreases |acts|
  {
    if acts == [] || !Can(st, acts[0]) then r
    else Audit(Next(st, acts[0]), acts[1..], p, Noted(st, acts[0], p, r))
  }

  /** The report of a call that has counted n events: it has marked these, and one more if a reply was lost. */
  ghost predicate IsReportOf(r: Report, events: seq<OutboxEvent>, n: nat, err: Option<Error>) {
    && n <= |events| && (r.lost ==> err.Some? && n < |events|)
    && r.answered == n && r.marked == Ids(events)[..if r.lost then n + 1 else n]
  }

  lemma {:induction false} AuditJoins(st: State, xs: seq<Action>, mid: State, ys: seq<Action>, p: string, r: Report)
    requires Run(st, xs, mid)
    ensures Audit(st, xs + ys, p, r) == Audit(mid, ys, p, Audit(st, xs, p, r))
    decreases |xs|
  {
    RunOpens(st, xs, mid);
    if xs == [] {
      assert xs + ys == ys;
    } else {
      assert (xs + ys)[1..] == xs[1..] + ys;
      RunOpens(Next(st, xs[0]), xs[1..], mid);
      AuditJoins(Next(st, xs[0]), xs[1..], mid, ys, p, Noted(st, xs[0], p, r));
    }
  }

  lemma AuditOfOne(st: State, a: Action, p: string, r: Report)
    requires Can(st, a)
    ensures Audit(st, [a], p, r) == Noted(st, a, p, r)
  {
    assert [a][1..] == [];
  }

  lemma {:induction false} AuditOfOthers(st: State, others: seq<Action>, p: string, r: Report)
    requires forall a :: a in others ==> !IsByPublisher(a, p)
    ensures Audit(st, others, p, r) == r
    decreases |others|
  {
    if others != [] && Can(st, others[0]) {
      AuditOfOthers(Next(st, others[0]), others[1..], p, r);
    }
  }

  lemma AuditPastOthers(from: State, record: seq<Action>, since: nat, mid: State, others: seq<Action>, st: State,
                        p: string, r: Report)
    requires since <= |record| && Run(from, record[since..], mid) && Run(mid, others, st)
    requires Audit(from, record[since..], p, BLANK) == r && forall a :: a in others ==> !IsByPublisher(a, p)
    ensures Run(from, (record + others)[since..], st) && Audit(from, (record + others)[since..], p, BLANK) == r
  {
    DropConcat(record, others, since);
    RunJoins(from, record[since..], mid, others, st);
    AuditJoins(from, record[since..], mid, others, p, BLANK);
    AuditOfOthers(mid, others, p, r);
  }

  lemma AuditOneMore(from: State, record: seq<Action>, since: nat, mid: State, a: Action, p: string, r: Report)
    requires since <= |record| && Run(from, record[since..], mid) && Can(mid, a)
    requires Audit(from, record[since..], p, BLANK) == r
    ensures Run(from, (record + [a])[since..], Next(mid, a))
    ensures Audit(from, (record + [a])[since..], p, BLANK) == Noted(mid, a, p, r)
  {
    DropConcat(record, [a], since);
    RunOfOne(mid, a);
    RunJoins(from, record[since..], mid, [a], Next(mid, a));
    AuditJoins(from, record[since..], mid, [a], p, BLANK);
    AuditOfOne(mid, a, p, r);
  }

  /** What a mark of the next event adds to the report, by its outcome. */
  lemma MarkNoted(st: State, a: Action, events: seq<OutboxEvent>, n: nat, err: Option<Error>)
    requires Can(st, a) && a.Mark? && n < |events| && PublisherAt(st, a.p).event == events[n]
    requires err == None <==> a.fault == Clean && Commits(st, a)
    ensures var report := Noted(st, a, a.p, Report(Ids(events)[..n], n, false));
      IsReportOf(report, events, if err == None then n + 1 else n, err)
  {
    assert Ids(events)[..n] + [events[n].id] == Ids(events)[..n + 1];
  }

  // Events that are done

  /** The event is marked, and a message for its submission was appended. */
  ghost predicate DoneIn(st: State, event: OutboxEvent) {
    && event.id in st.db.outbox && st.db.outbox[event.id].publishedAt.Some? &&
        st.db.outbox[event.id].submission == event.submission
    && Appended(st, event.submission)
  }

  ghost predicate IsLeaseOf(a: Action, p: string, events: seq<OutboxEvent>) {
    a.LeaseBatch? && a.p == p && |a.batch| == |events| && forall i :: 0 <= i < |events| ==> events[i].id == a.batch[i]
  }

  lemma MarkedIsDone(st: State, a: Action)
    requires Inv(st) && Can(st, a) && a.Mark?
    requires PublisherAt(st, a.p).event.id in Next(st, a).db.outbox
    requires Next(st, a).db.outbox[PublisherAt(st, a.p).event.id].publishedAt.Some?
    ensures DoneIn(Next(st, a), PublisherAt(st, a.p).event)
  {
    assert PublisherOk(st, a.p);
    DatabaseAdvances(st, a);
    QueueAdvances(st, a);
    AppendedStays(st, Next(st, a), PublisherAt(st, a.p).event.submission);
  }

  lemma DoneStays(st: State, a: Action, events: seq<OutboxEvent>, n: nat)
    requires Inv(st) && Can(st, a) && n <= |events|
    requires forall i :: 0 <= i < n ==> DoneIn(st, events[i])
    ensures forall i :: 0 <= i < n ==> DoneIn(Next(st, a), events[i])
  {
    DatabaseAdvances(st, a);
    QueueAdvances(st, a);
    forall i | 0 <= i < n ensures DoneIn(Next(st, a), events[i]) {
      AppendedStays(st, Next(st, a), events[i].submission);
    }
  }

  lemma DoneOneMore(st: State, a: Action, events: seq<OutboxEvent>, n: nat, err: Option<Error>)
    requires Inv(st) && Can(st, a) && a.Mark? && n < |events| && PublisherAt(st, a.p).event == events[n]
    requires forall i :: 0 <= i < n ==> DoneIn(st, events[i])
    requires err == None ==>
        events[n].id in Next(st, a).db.outbox && Next(st, a).db.outbox[events[n].id].publishedAt.Some?
    ensures forall i :: 0 <= i < (if err == None then n + 1 else n) ==> DoneIn(Next(st, a), events[i])
  {
    DoneStays(st, a, events, n);
    if err == None {
      MarkedIsDone(st, a);
    }
  }

  lemma {:induction false} DoneStaysOverRun(st: State, acts: seq<Action>, st': State, events: seq<OutboxEvent>, n: nat)
    requires Inv(st) && Run(st, acts, st') && n <= |events|
    requires forall i :: 0 <= i < n ==> DoneIn(st, events[i])
    ensures forall i :: 0 <= i < n ==> DoneIn(st', events[i])
    decreases |acts|
  {
    RunOpens(st, acts, st');
    if acts != [] {
      var mid := Next(st, acts[0]);
      InvStep(st, acts[0]);
      DoneStays(st, acts[0], events, n);
      RunOpens(mid, acts[1..], st');
      DoneStaysOverRun(mid, acts[1..], st', events, n);
    }
  }
}
