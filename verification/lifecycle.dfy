/** The attempt lifecycle graph of internal/submissions/state.go. */
module Lifecycle {

  datatype Status = Queued | Claimed | Compiling | Running | Final | FailedInternal

  predicate CanTransition(from: Status, to: Status) {
    match from
    case Queued => to == Claimed || to == FailedInternal
    case Claimed => to == Compiling || to == Running || to == FailedInternal
    case Compiling => to == Running || to == Final || to == FailedInternal
    case Running => to == Final || to == FailedInternal
    case _ => false
  }

  predicate Terminal(s: Status) {
    s == Final || s == FailedInternal
  }

  /** The statuses named by the SQL guard status IN ('CLAIMED','COMPILING','RUNNING'). */
  predicate Active(s: Status) {
    s == Claimed || s == Compiling || s == Running
  }

  /** The longest path from QUEUED. */
  function Rank(s: Status): nat {
    match s
    case Queued => 0
    case Claimed => 1
    case Compiling => 2
    case Running => 3
    case Final => 4
    case FailedInternal => 4
  }

  /** Every edge climbs, so the graph is acyclic; terminal statuses are exactly the sinks. */
  lemma EdgesClimb(from: Status)
    ensures forall to :: CanTransition(from, to) ==> Rank(from) < Rank(to) <= 4
    ensures Terminal(from) <==> forall to :: !CanTransition(from, to)
    ensures Active(from) <==> from != Queued && exists to :: CanTransition(from, to)
  {
    assert !Terminal(from) ==> CanTransition(from, FailedInternal);
  }

  /** Where each status is entered from: the stages in order, COMPILING may be skipped, and any stage may fail. */
  lemma EdgesInto(from: Status, to: Status)
    ensures CanTransition(from, Queued) <==> false
    ensures CanTransition(from, Claimed) <==> from == Queued
    ensures CanTransition(from, Compiling) <==> from == Claimed
    ensures CanTransition(from, Running) <==> from == Claimed || from == Compiling
    ensures CanTransition(from, Final) <==> from == Compiling || from == Running
    ensures CanTransition(from, FailedInternal) <==> from != Final && from != FailedInternal
  {
  }
}
