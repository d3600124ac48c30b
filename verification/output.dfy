/**
 internal/judge/output.go and launchClock of internal/judge/docker.go: two readers share one byte budget, and a launch
 marker is stripped from standard error, whatever the chunks in which the bytes arrive.
 */
module Output {
  import opened Basics

  type Byte = x: int | 0 <= x < 256

  /** One byte of the interleaved stdout and stderr of a command. */
  datatype Piece = Piece(stdout: bool, b: Byte)

  function Tagged(stdout: bool, p: seq<Byte>): (r: seq<Piece>)
    ensures |r| == |p| && forall i :: 0 <= i < |p| ==> r[i] == Piece(stdout, p[i])
  {
    seq(|p|, i requires 0 <= i < |p| => Piece(stdout, p[i]))
  }

  /** The bytes of one stream. */
  function Stream(stdout: bool, h: seq<Piece>): seq<Byte> {
    if h == [] then []
    else
      var k := |h| - 1;
      Stream(stdout, h[..k]) + if h[k].stdout == stdout then [h[k].b] else []
  }

  lemma {:induction false} StreamConcat(stdout: bool, g: seq<Piece>, h: seq<Piece>)
    ensures Stream(stdout, g + h) == Stream(stdout, g) + Stream(stdout, h)
  {
    if h == [] {
      assert g + h == g;
    } else {
      var k := |h| - 1;
      assert (g + h)[..|g| + k] == g + h[..k];
      StreamConcat(stdout, g, h[..k]);
    }
  }

  lemma {:induction false} StreamOfTagged(stdout: bool, tag: bool, p: seq<Byte>)
    ensures Stream(stdout, Tagged(tag, p)) == if stdout == tag then p else []
  {
    if p != [] {
      var k := |p| - 1;
      assert Tagged(tag, p)[..k] == Tagged(tag, p[..k]);
      StreamOfTagged(stdout, tag, p[..k]);
      assert p == p[..k] + [p[k]];
    }
  }

  function Prefix<T>(s: seq<T>, n: nat): seq<T> {
    s[..Min(n, |s|)]
  }

  /** One budget for both streams; charged records every byte that either adapter was given. */
  class OutputBudget {
    var remaining: nat
    var stdout: seq<Byte>
    var exceeded: bool
    var cancels: nat
    ghost const limit: nat
    ghost var charged: seq<Piece>

    /** What the budget shows depends only on the limit and on the bytes charged so far. */
    ghost predicate Valid()
      reads this
    {
      && remaining == Max(0, limit - |charged|)
      && stdout == Stream(true, Prefix(charged, limit))
      && (exceeded <==> |charged| > limit)
      && cancels == if exceeded then 1 else 0
    }

    constructor (limit: nat)
      ensures Valid() && this.limit == limit && charged == []
    {
      this.limit := limit;
      remaining, stdout, exceeded, cancels, charged := limit, [], false, 0, [];
    }

    /** budgetWriter.Write: always reports full consumption, keeps stdout bytes within the budget, cancels once. */
    method Write(toStdout: bool, p: seq<Byte>) returns (n: nat)
      requires Valid()
      modifies this
      ensures Valid() && charged == old(charged) + Tagged(toStdout, p) && n == |p|
    {
      var taken := Min(|p|, remaining);
      if toStdout {
        stdout := stdout + p[..taken];
      }
      remaining := remaining - taken;
      if taken < |p| && !exceeded {
        exceeded := true;
        cancels := cancels + 1;
      }
      BudgetTakes(limit, charged, toStdout, p, taken);
      charged := charged + Tagged(toStdout, p);
      n := |p|;
    }
  }

  /** The bytes within the budget after one more write. */
  lemma BudgetTakes(limit: nat, charged: seq<Piece>, tag: bool, p: seq<Byte>, taken: nat)
    requires taken == Min(|p|, Max(0, limit - |charged|))
    ensures Stream(true, Prefix(charged + Tagged(tag, p), limit))
         == Stream(true, Prefix(charged, limit)) + if tag then p[..taken] else []
  {
    assert Prefix(charged + Tagged(tag, p), limit) == Prefix(charged, limit) + Tagged(tag, p[..taken]);
    StreamConcat(true, Prefix(charged, limit), Tagged(tag, p[..taken]));
    StreamOfTagged(true, tag, p[..taken]);
  }

  // JUDGE_STARTED followed by a newline
  const MARKER: seq<Byte> := [74, 85, 68, 71, 69, 95, 83, 84, 65, 82, 84, 69, 68, 10]

  lemma MarkerText()
    ensures |MARKER| == |"JUDGE_STARTED\n"|
    ensures forall i :: 0 <= i < |MARKER| ==> MARKER[i] == "JUDGE_STARTED\n"[i] as int
  {
  }

  predicate Started(stderr: seq<Byte>) {
    |stderr| >= |MARKER| && stderr[..|MARKER|] == MARKER
  }

  /** Which bytes reach the budget: all of stdout, and stderr from behind a correct marker. */
  function Charge(h: seq<Piece>): seq<Piece> {
    if h == [] then []
    else
      var k := |h| - 1;
      Charge(h[..k]) + if h[k].stdout || Started(Stream(false, h[..k])) then [h[k]] else []
  }

  /** The first bytes decide once and for all. */
  lemma StartedIsDecided(s: seq<Byte>, more: seq<Byte>)
    requires |s| >= |MARKER|
    ensures Started(s + more) <==> Started(s)
  {
    assert (s + more)[..|MARKER|] == s[..|MARKER|];
  }

  /**
   Charging keeps stdout whole and strips exactly the marker; behind a wrong marker no stderr byte is ever charged.
   */
  lemma {:induction false} ChargeStripsMarker(h: seq<Piece>)
    ensures Stream(true, Charge(h)) == Stream(true, h)
    ensures Stream(false, Charge(h)) == if Started(Stream(false, h)) then Stream(false, h)[|MARKER|..] else []
  {
    if h != [] {
      var k := |h| - 1;
      var before, last := h[..k], if h[k].stdout || Started(Stream(false, h[..k])) then [h[k]] else [];
      ChargeStripsMarker(before);
      StreamConcat(true, Charge(before), last);
      StreamConcat(false, Charge(before), last);
      OneStream(true, last);
      OneStream(false, last);
      BehindMarker(Stream(false, before), if h[k].stdout then [] else [h[k].b]);
    }
  }

  /** One byte more: it is behind the marker exactly if the marker was complete. */
  lemma BehindMarker(s: seq<Byte>, more: seq<Byte>)
    requires |more| <= 1
    ensures (if Started(s + more) then (s + more)[|MARKER|..] else [])
         == (if Started(s) then s[|MARKER|..] + more else [])
  {
    if |s| >= |MARKER| {
      StartedIsDecided(s, more);
      DropConcat(s, more, |MARKER|);
    }
  }

  lemma OneStream(stdout: bool, h: seq<Piece>)
    requires |h| <= 1
    ensures Stream(stdout, h) == if h != [] && h[0].stdout == stdout then [h[0].b] else []
  {
    if h != [] {
      assert h[..0] == [];
    }
  }

  lemma ChargeOfLast(h: seq<Piece>, tag: bool, p: seq<Byte>)
    requires p != []
    ensures var k := |p| - 1;
      Tagged(tag, p) == Tagged(tag, p[..k]) + [Piece(tag, p[k])]
    ensures var k := |p| - 1; var before := h + Tagged(tag, p[..k]);
      Charge(h + Tagged(tag, p))
        == Charge(before) + if tag || Started(Stream(false, before)) then [Piece(tag, p[k])] else []
  {
    var k := |p| - 1;
    var whole := h + Tagged(tag, p);
    assert whole[..|h| + k] == h + Tagged(tag, p[..k]);
    assert whole[|whole| - 1] == Piece(tag, p[k]);
  }

  lemma {:induction false} ChargeOfStdout(h: seq<Piece>, p: seq<Byte>)
    ensures Charge(h + Tagged(true, p)) == Charge(h) + Tagged(true, p)
  {
    if p == [] {
      assert h + Tagged(true, p) == h;
    } else {
      var k := |p| - 1;
      ChargeOfLast(h, true, p);
      ChargeOfStdout(h, p[..k]);
      ConcatAssociates(Charge(h), Tagged(true, p[..k]), [Piece(true, p[k])]);
    }
  }

  /** Once started, stderr is charged like stdout. */
  lemma {:induction false} ChargeOfStderr(h: seq<Piece>, p: seq<Byte>)
    requires Started(Stream(false, h))
    ensures Charge(h + Tagged(false, p)) == Charge(h) + Tagged(false, p)
  {
    if p == [] {
      assert h + Tagged(false, p) == h;
    } else {
      var k := |p| - 1;
      ChargeOfLast(h, false, p);
      ChargeOfStderr(h, p[..k]);
      StreamGrows(h, p[..k]);
      StartedIsDecided(Stream(false, h), p[..k]);
      ConcatAssociates(Charge(h), Tagged(false, p[..k]), [Piece(false, p[k])]);
    }
  }

  /** No byte of p arrives behind a complete marker. */
  ghost predicate Silent(before: seq<Byte>, p: seq<Byte>) {
    forall i | 0 <= i < |p| :: !Started(before + p[..i])
  }

  lemma SilenceBeforeStart(before: seq<Byte>, p: seq<Byte>)
    requires !Started(before + p)
    ensures Silent(before, p)
  {
    forall i | 0 <= i < |p| ensures !Started(before + p[..i]) {
      var s, more := before + p[..i], p[i..];
      assert before + p == s + more;
      StartedLater(s, more);
    }
  }

  /** While the marker is incomplete, and behind a wrong one, stderr is not charged at all. */
  lemma {:induction false} ChargeOfSilence(h: seq<Piece>, p: seq<Byte>)
    requires Silent(Stream(false, h), p)
    ensures Charge(h + Tagged(false, p)) == Charge(h)
  {
    if p == [] {
      assert h + Tagged(false, p) == h;
    } else {
      var k := |p| - 1;
      ChargeOfLast(h, false, p);
      StreamGrows(h, p[..k]);
      assert forall i | 0 <= i < k :: p[..k][..i] == p[..i];
      ChargeOfSilence(h, p[..k]);
    }
  }

  /** launchClock: consumes the marker, arms the deadline, forwards the rest of stderr. */
  class LaunchClock {
    const budget: OutputBudget
    const runLimit: Time
    var prefix: seq<Byte>
    var start: Option<Time>
    var deadline: Time
    ghost var received: seq<Byte>

    ghost predicate Valid()
      reads this
    {
      && prefix == Prefix(received, |MARKER|)
      && (start.Some? <==> Started(received))
      && (start.Some? ==> deadline == start.value + runLimit)
    }

    /** Thirty seconds are allowed until the marker arrives. */
    constructor (budget: OutputBudget, runLimit: Time, now: Time)
      ensures Valid() && this.budget == budget && this.runLimit == runLimit
      ensures received == [] && start == None && deadline == now + 30000
    {
      this.budget, this.runLimit := budget, runLimit;
      prefix, start, deadline, received := [], None, now + 30000, [];
    }

    /** The part of the chunk behind the marker: everything once started, nothing before. */
    ghost function Passed(before: seq<Byte>, p: seq<Byte>): seq<Byte> {
      if !Started(before + p) then [] else (before + p)[Max(|before|, |MARKER|)..]
    }

    method Write(p: seq<Byte>, now: Time) returns (n: nat, ok: bool)
      requires Valid() && budget.Valid()
      modifies this, budget
      ensures Valid() && budget.Valid() && received == old(received) + p && n == |p|
      ensures budget.charged == old(budget.charged) + Tagged(false, Passed(old(received), p))
      ensures start == if old(start).Some? then old(start) else if Started(received) then Some(now) else None
      ensures ok <==> |received| < |MARKER| || Started(received)
      ensures start == old(start) ==> deadline == old(deadline)
    {
      n, ok := |p|, true;
      var rest := p;
      ghost var before := received;
      received := received + p;
      if |before| >= |MARKER| {
        StartedIsDecided(before, p);
      }
      if start == None {
        var needed := |MARKER| - |prefix|;
        var take := Min(needed, |rest|);
        prefix := prefix + rest[..take];
        rest := rest[take..];
        assert prefix == Prefix(received, |MARKER|);
        if |prefix| == |MARKER| {
          if prefix != MARKER {
            return n, false;
          }
          start := Some(now);
          deadline := now + runLimit;
        }
      }
      assert prefix == Prefix(received, |MARKER|);
      assert rest == Passed(before, p);
      if |rest| > 0 {
        var _ := budget.Write(false, rest);
      } else {
        assert budget.charged == budget.charged + Tagged(false, rest);
      }
    }
  }

  lemma StreamGrows(h: seq<Piece>, p: seq<Byte>)
    ensures Stream(false, h + Tagged(false, p)) == Stream(false, h) + p
  {
    StreamConcat(false, h, Tagged(false, p));
    StreamOfTagged(false, false, p);
  }

  lemma TaggedSplit(h: seq<Piece>, tag: bool, p: seq<Byte>, cut: nat)
    requires cut <= |p|
    ensures h + Tagged(tag, p) == h + Tagged(tag, p[..cut]) + Tagged(tag, p[cut..])
  {
    TaggedConcat(tag, p[..cut], p[cut..]);
    assert p == p[..cut] + p[cut..];
    ConcatAssociates(h, Tagged(tag, p[..cut]), Tagged(tag, p[cut..]));
  }

  lemma TaggedConcat(tag: bool, p: seq<Byte>, q: seq<Byte>)
    ensures Tagged(tag, p + q) == Tagged(tag, p) + Tagged(tag, q)
  {
  }

  lemma ChargeBehind(h: seq<Piece>, p: seq<Byte>, quiet: seq<Piece>, loud: seq<Byte>)
    requires Started(Stream(false, quiet)) && h + Tagged(false, p) == quiet + Tagged(false, loud)
    ensures Charge(h + Tagged(false, p)) == Charge(quiet) + Tagged(false, loud)
  {
    ChargeOfStderr(quiet, loud);
  }

  lemma MarkerEndsInside(before: seq<Byte>, p: seq<Byte>)
    requires !Started(before) && Started(before + p)
    ensures |before| < |MARKER| <= |before| + |p|
    ensures var cut := |MARKER| - |before|;
            Started(before + p[..cut]) && Silent(before, p[..cut]) && (before + p)[|MARKER|..] == p[cut..]
  {
    if |before| >= |MARKER| {
      StartedIsDecided(before, p);
    } else {
      var cut := |MARKER| - |before|;
      assert before + p[..cut] == (before + p)[..|MARKER|];
    }
  }

  lemma ChargeOfMarkerChunk(h: seq<Piece>, p: seq<Byte>)
    requires !Started(Stream(false, h)) && Started(Stream(false, h) + p)
    ensures |Stream(false, h)| < |MARKER|
    ensures Charge(h + Tagged(false, p)) == Charge(h) + Tagged(false, (Stream(false, h) + p)[|MARKER|..])
  {
    var before := Stream(false, h);
    MarkerEndsInside(before, p);
    var cut := |MARKER| - |before|;
    ChargeOfSilence(h, p[..cut]);
    StreamGrows(h, p[..cut]);
    TaggedSplit(h, false, p, cut);
    ChargeBehind(h, p, h + Tagged(false, p[..cut]), p[cut..]);
  }

  lemma ChargeOfSilentChunk(h: seq<Piece>, p: seq<Byte>)
    requires !Started(Stream(false, h) + p)
    ensures Charge(h + Tagged(false, p)) == Charge(h)
  {
    SilenceBeforeStart(Stream(false, h), p);
    ChargeOfSilence(h, p);
  }

  lemma ChargeOfChunk(h: seq<Piece>, p: seq<Byte>, passed: seq<Byte>)
    requires var before := Stream(false, h);
             passed == if !Started(before + p) then [] else (before + p)[Max(|before|, |MARKER|)..]
    ensures Charge(h + Tagged(false, p)) == Charge(h) + Tagged(false, passed)
    ensures Stream(false, h + Tagged(false, p)) == Stream(false, h) + p
  {
    var before := Stream(false, h);
    StreamGrows(h, p);
    if Started(before) {
      StartedIsDecided(before, p);
      ChargeOfStderr(h, p);
      assert passed == p;
    } else if Started(before + p) {
      ChargeOfMarkerChunk(h, p);
    } else {
      ChargeOfSilentChunk(h, p);
      assert Tagged(false, passed) == [];
    }
  }

  lemma StartedLater(s: seq<Byte>, more: seq<Byte>)
    ensures Started(s) ==> Started(s + more)
  {
    if |s| >= |MARKER| {
      StartedIsDecided(s, more);
    }
  }

  // A whole command: chunks of both streams, in the order in which the readers deliver them

  datatype Chunk = Chunk(stdout: bool, bytes: seq<Byte>, now: Time)

  function Flatten(chunks: seq<Chunk>): seq<Piece> {
    if chunks == [] then []
    else
      var k := |chunks| - 1;
      Flatten(chunks[..k]) + Tagged(chunks[k].stdout, chunks[k].bytes)
  }

  /** What the budget and the clock have seen corresponds to the interleaved bytes h. */
  ghost predicate Consumed(budget: OutputBudget, clock: LaunchClock, h: seq<Piece>)
    reads budget, clock
  {
    && budget.Valid() && clock.Valid() && clock.budget == budget
    && budget.charged == Charge(h) && clock.received == Stream(false, h)
  }

  lemma FlattenNext(chunks: seq<Chunk>, i: nat)
    requires i < |chunks|
    ensures Flatten(chunks[..i + 1]) == Flatten(chunks[..i]) + Tagged(chunks[i].stdout, chunks[i].bytes)
  {
    assert chunks[..i + 1][..i] == chunks[..i];
  }

  /** Chunk k holds the last byte of a correct marker. */
  predicate CompletesMarker(chunks: seq<Chunk>, k: nat)
    requires k < |chunks|
  {
    && !chunks[k].stdout
    && !Started(Stream(false, Flatten(chunks[..k]))) && Started(Stream(false, Flatten(chunks[..k + 1])))
  }

  /** The time of the chunk that completes the marker. */
  function StartOf(chunks: seq<Chunk>): Option<Time> {
    if chunks == [] then None
    else
      var k := |chunks| - 1;
      var before := StartOf(chunks[..k]);
      if before.Some? || chunks[k].stdout || !Started(Stream(false, Flatten(chunks))) then before
          else Some(chunks[k].now)
  }

  lemma StartOfNext(chunks: seq<Chunk>, i: nat)
    requires i < |chunks|
    ensures var before, stderr := StartOf(chunks[..i]), Stream(false, Flatten(chunks[..i + 1]));
      StartOf(chunks[..i + 1])
        == if before.Some? || chunks[i].stdout || !Started(stderr) then before else Some(chunks[i].now)
  {
    assert chunks[..i + 1][..i] == chunks[..i];
  }

  lemma StreamOfChunk(h: seq<Piece>, c: Chunk)
    ensures Stream(false, h + Tagged(c.stdout, c.bytes)) == Stream(false, h) + if c.stdout then [] else c.bytes
  {
    StreamConcat(false, h, Tagged(c.stdout, c.bytes));
    StreamOfTagged(false, c.stdout, c.bytes);
  }

  /**
   There is a start if and only if stderr begins with the marker, and it is the time of the chunk with its last byte.
   */
  lemma {:induction false} StartIsCompletion(chunks: seq<Chunk>)
    ensures StartOf(chunks).Some? <==> Started(Stream(false, Flatten(chunks)))
    ensures StartOf(chunks).Some? ==>
      exists k: nat :: k < |chunks| && CompletesMarker(chunks, k) && StartOf(chunks).value == chunks[k].now
  {
    if chunks != [] {
      var k := |chunks| - 1;
      var before := chunks[..k];
      StartIsCompletion(before);
      LastChunkStarts(chunks, before);
      if StartOf(before).Some? {
        var j: nat :| j < k && CompletesMarker(before, j) && StartOf(before).value == before[j].now;
        CompletionStays(chunks, k, j);
      } else if StartOf(chunks).Some? {
        assert CompletesMarker(chunks, k);
      }
    }
  }

  /** What the last chunk does to the beginning of stderr. */
  lemma LastChunkStarts(chunks: seq<Chunk>, before: seq<Chunk>)
    requires chunks != [] && before == chunks[..|chunks| - 1]
    ensures chunks[..|chunks|] == chunks
    ensures Started(Stream(false, Flatten(before))) ==> Started(Stream(false, Flatten(chunks)))
    ensures chunks[|chunks| - 1].stdout ==> Stream(false, Flatten(chunks)) == Stream(false, Flatten(before))
  {
    var c := chunks[|chunks| - 1];
    StreamOfChunk(Flatten(before), c);
    StartedLater(Stream(false, Flatten(before)), if c.stdout then [] else c.bytes);
  }

  lemma CompletionStays(chunks: seq<Chunk>, k: nat, j: nat)
    requires j < k <= |chunks| && CompletesMarker(chunks[..k], j)
    ensures CompletesMarker(chunks, j)
  {
    assert chunks[..k][..j] == chunks[..j] && chunks[..k][..j + 1] == chunks[..j + 1];
  }

  /** One chunk: stdout goes to the budget, stderr to the clock. */
  method Feed(budget: OutputBudget, clock: LaunchClock, c: Chunk, ghost h: seq<Piece>)
    requires Consumed(budget, clock, h)
    modifies budget, clock
    ensures Consumed(budget, clock, h + Tagged(c.stdout, c.bytes))
    ensures clock.start == if old(clock.start).Some? || c.stdout || !Started(clock.received) then old(clock.start)
                           else Some(c.now)
    ensures clock.start == old(clock.start) ==> clock.deadline == old(clock.deadline)
  {
    StreamOfChunk(h, c);
    if c.stdout {
      var _ := budget.Write(true, c.bytes);
      ChargeOfStdout(h, c.bytes);
    } else {
      ghost var before := clock.received;
      var _, _ := clock.Write(c.bytes, c.now);
      ChargeOfChunk(h, c.bytes, clock.Passed(before, c.bytes));
    }
  }

  /**
   Feeding a command's output chunk by chunk ends in a state that is a function of the interleaved bytes alone: what is
   kept, whether the limit was exceeded and whether the program started do not depend on the chunks. It started when
   the chunk with the marker's last byte came, and the deadline counts from there.
   */
  method Drain(budget: OutputBudget, clock: LaunchClock, chunks: seq<Chunk>)
    requires budget.Valid() && clock.Valid() && clock.budget == budget && budget.charged == [] && clock.received == []
    modifies budget, clock
    ensures Consumed(budget, clock, Flatten(chunks))
    ensures budget.stdout == Stream(true, Prefix(Charge(Flatten(chunks)), budget.limit))
    ensures budget.exceeded <==> |Charge(Flatten(chunks))| > budget.limit
    ensures budget.cancels == if budget.exceeded then 1 else 0
    ensures clock.start == StartOf(chunks)
    ensures clock.deadline == if clock.start.Some? then clock.start.value + clock.runLimit else old(clock.deadline)
  {
    var i := 0;
    while i < |chunks|
      invariant 0 <= i <= |chunks|
      invariant Consumed(budget, clock, Flatten(chunks[..i]))
      invariant clock.start == StartOf(chunks[..i])
      invariant clock.start == None ==> clock.deadline == old(clock.deadline)
    {
      Feed(budget, clock, chunks[i], Flatten(chunks[..i]));
      FlattenNext(chunks, i);
      StartOfNext(chunks, i);
      i := i + 1;
    }
    assert chunks[..i] == chunks;
  }
}
