/**
 The event stream of one submission: the loop of internal/api/api.go that writes frames, and the loop of
 web/app/page.jsx that reads them back from chunks of any size.
 */
module EventStream {
  import opened Basics
  import opened Lifecycle
  import opened Tokens

  // Characters and lines

  /** The characters that String.prototype.trimStart removes. */
  predicate IsBlank(c: char) {
    || '\t' <= c <= '\r' || c == ' '
    || c == '\U{00A0}' || c == '\U{1680}' || '\U{2000}' <= c <= '\U{200A}' || c == '\U{2028}' || c == '\U{2029}'
    || c == '\U{202F}' || c == '\U{205F}' || c == '\U{3000}' || c == '\U{FEFF}'
  }

  /** ECMAScript's white space is Unicode's, with the byte order mark instead of NEL. */
  lemma BlankIsWhiteSpace(c: char)
    ensures IsBlank(c) <==> (c in WHITE_SPACE && c != '\U{0085}') || c == '\U{FEFF}'
  {
    SpaceIsWhiteSpace(c);
  }

  function TrimStart(s: string): (r: string)
    ensures r == "" || !IsBlank(r[0])
    ensures |r| <= |s| && (|r| == |s| ==> r == s)
    ensures s == "" || !IsBlank(s[0]) ==> r == s
  {
    if s != "" && IsBlank(s[0]) then TrimStart(s[1..]) else s
  }

  /** What is trimmed are blanks, and only at the beginning. */
  lemma {:induction false} TrimStartMeans(s: string)
    ensures TrimStart(s) == s[|s| - |TrimStart(s)|..]
    ensures forall i :: 0 <= i < |s| - |TrimStart(s)| ==> IsBlank(s[i])
  {
    if s != "" && IsBlank(s[0]) {
      TrimStartMeans(s[1..]);
    }
  }

  predicate PairAt(s: string, i: int) {
    0 <= i < |s| - 1 && s[i] == '\r' && s[i + 1] == '\n'
  }

  /** Each carriage return before a newline is dropped, scanning from the left. */
  function Normalised(s: string): string {
    if s == "" then ""
    else if PairAt(s, 0) then "\n" + Normalised(s[2..])
    else [s[0]] + Normalised(s[1..])
  }

  /** The chunk boundary falls between a carriage return and its newline. */
  predicate Splits(s: string, t: string) {
    s != "" && t != "" && s[|s| - 1] == '\r' && t[0] == '\n'
  }

  lemma {:induction false} NormalisedConcat(s: string, t: string)
    ensures !Splits(s, t) ==> Normalised(s + t) == Normalised(s) + Normalised(t)
    ensures Splits(s, t) ==> |Normalised(s + t)| + 1 == |Normalised(s)| + |Normalised(t)|
  {
    if s == "" {
      assert s + t == t;
    } else if |s| == 1 && Splits(s, t) {
      assert (s + t)[2..] == t[1..];
    } else {
      var n := if PairAt(s, 0) then 2 else 1;
      assert PairAt(s, 0) <==> PairAt(s + t, 0);
      DropConcat(s, t, n);
      assert Splits(s[n..], t) <==> Splits(s, t);
      NormalisedConcat(s[n..], t);
      ConcatAssociates([if n == 2 then '\n' else s[0]], Normalised(s[n..]), Normalised(t));
    }
  }

  lemma {:induction false} NormalisedShrinks(s: string)
    ensures |Normalised(s)| <= |s|
    ensures |Normalised(s)| == |s| <==> forall i :: !PairAt(s, i)
    ensures |Normalised(s)| == |s| ==> Normalised(s) == s
  {
    if s != "" {
      if PairAt(s, 0) {
        NormalisedShrinks(s[2..]);
      } else {
        NormalisedShrinks(s[1..]);
        forall i ensures PairAt(s, i + 1) <==> PairAt(s[1..], i) {
        }
        assert forall i | PairAt(s, i) :: PairAt(s[1..], i - 1);
      }
    }
  }

  // The reader

  predicate BreakAt(s: string, i: int) {
    0 <= i < |s| - 1 && s[i] == '\n' && s[i + 1] == '\n'
  }

  /** The first empty line, as indexOf finds it. */
  function Boundary(s: string): (b: int)
    ensures b < 0 ==> forall i :: !BreakAt(s, i)
    ensures b >= 0 ==> BreakAt(s, b) && forall i | i < b :: !BreakAt(s, i)
  {
    if |s| < 2 then -1
    else if BreakAt(s, 0) then 0
    else
      var b := Boundary(s[1..]);
      assert forall i | BreakAt(s, i) :: BreakAt(s[1..], i - 1);
      if b < 0 then -1 else b + 1
  }

  /** A boundary that satisfies the description is the one found. */
  lemma BoundaryIs(s: string, b: nat)
    requires BreakAt(s, b) && forall i | 0 <= i < b :: !BreakAt(s, i)
    ensures Boundary(s) == b
  {
  }

  function LineEnd(s: string): (e: nat)
    ensures e <= |s| && '\n' !in s[..e] && (e < |s| ==> s[e] == '\n')
  {
    if s == "" || s[0] == '\n' then 0 else
      assert s[..1 + LineEnd(s[1..])] == [s[0]] + s[1..][..LineEnd(s[1..])];
      1 + LineEnd(s[1..])
  }

  /** The values of the data lines of a block, in order. */
  function Values(block: string): seq<string> {
    var e := LineEnd(block);
    Value(block[..e]) + if e < |block| then Values(block[e + 1..]) else []
  }

  function Value(line: string): seq<string> {
    if |line| >= 5 && line[..5] == "data:" then [TrimStart(line[5..])] else []
  }

  function JoinLines(values: seq<string>): string {
    if values == [] then ""
    else if |values| == 1 then values[0]
    else values[0] + "\n" + JoinLines(values[1..])
  }

  function Data(block: string): string {
    JoinLines(Values(block))
  }

  /** The updates that a received text amounts to. */
  function Updates(text: string): seq<string> {
    var b := Boundary(text);
    if b < 0 then [] else
      Update(text[..b]) + Updates(text[b + 2..])
  }

  /** A block without data is skipped. */
  function Update(block: string): seq<string> {
    if Data(block) == "" then [] else [Data(block)]
  }

  /** What waits for more characters. */
  function Rest(text: string): string {
    var b := Boundary(text);
    if b < 0 then text else Rest(text[b + 2..])
  }

  lemma BoundaryStays(s: string, t: string)
    requires Boundary(s) >= 0
    ensures Boundary(s + t) == Boundary(s)
  {
    var b := Boundary(s);
    assert forall i | 0 <= i <= b :: BreakAt(s, i) <==> BreakAt(s + t, i);
    BoundaryIs(s + t, b);
  }

  lemma FirstBlockStays(s: string, t: string, b: nat)
    requires Boundary(s) == b
    ensures Updates(s + t) == Update(s[..b]) + Updates(s[b + 2..] + t)
    ensures Rest(s + t) == Rest(s[b + 2..] + t)
  {
    BoundaryStays(s, t);
    DropConcat(s, t, b + 2);
    assert (s + t)[..b] == s[..b];
  }

  /** Reading s and later t is reading s + t: nothing but the unfinished block has to be remembered. */
  lemma {:induction false} ReadingResumes(s: string, t: string)
    ensures Updates(s + t) == Updates(s) + Updates(Rest(s) + t)
    ensures Rest(s + t) == Rest(Rest(s) + t)
  {
    var b := Boundary(s);
    if b >= 0 {
      var first, more := Update(s[..b]), s[b + 2..];
      FirstBlockStays(s, t, b);
      ReadingResumes(more, t);
      ConcatAssociates(first, Updates(more), Updates(Rest(more) + t));
    }
  }

  function Joined(chunks: seq<string>): string {
    if chunks == [] then ""
    else
      var k := |chunks| - 1;
      Joined(chunks[..k]) + chunks[k]
  }

  /** What reaches the buffer: every chunk is normalised by itself. */
  function Received(chunks: seq<string>): string {
    if chunks == [] then ""
    else
      var k := |chunks| - 1;
      Received(chunks[..k]) + Normalised(chunks[k])
  }

  /** The boundary in front of chunk k cuts a pair. */
  predicate CutsPair(chunks: seq<string>, k: nat)
    requires k < |chunks|
  {
    Splits(Joined(chunks[..k]), chunks[k])
  }

  predicate NoSplitPair(chunks: seq<string>) {
    forall k | 0 <= k < |chunks| :: !CutsPair(chunks, k)
  }

  /** Normalising chunk by chunk normalises the text if and only if no chunk boundary cuts a pair. */
  lemma {:induction false} ChunkwiseNormalisation(chunks: seq<string>)
    ensures Received(chunks) == Normalised(Joined(chunks)) <==> NoSplitPair(chunks)
    ensures |Received(chunks)| >= |Normalised(Joined(chunks))|
    ensures |Received(chunks)| == |Normalised(Joined(chunks))| ==> NoSplitPair(chunks)
  {
    if chunks != [] {
      var k := |chunks| - 1;
      ChunkwiseNormalisation(chunks[..k]);
      NormalisedConcat(Joined(chunks[..k]), chunks[k]);
      NoSplitPairLast(chunks, k);
    }
  }

  lemma CutsStay(chunks: seq<string>, k: nat, j: nat)
    requires j < k <= |chunks|
    ensures CutsPair(chunks[..k], j) <==> CutsPair(chunks, j)
  {
    assert chunks[..k][..j] == chunks[..j];
  }

  lemma NoSplitPairLast(chunks: seq<string>, k: nat)
    requires |chunks| == k + 1
    ensures NoSplitPair(chunks) <==> NoSplitPair(chunks[..k]) && !CutsPair(chunks, k)
  {
    forall j | 0 <= j < k ensures CutsPair(chunks[..k], j) <==> CutsPair(chunks, j) {
      CutsStay(chunks, k, j);
    }
  }

  /** The text was read completely: its updates were handed out and its unfinished block waits. */
  ghost predicate HasRead(text: string, updates: seq<string>, buffer: string) {
    updates == Updates(text) && buffer == Rest(text)
  }

  /** What was handed out and what the buffer still holds make up all that is due; rest will stay behind. */
  ghost predicate Reading(due: seq<string>, rest: string, updates: seq<string>, buffer: string) {
    updates + Updates(buffer) == due && Rest(buffer) == rest
  }

  lemma OneMoreBlock(due: seq<string>, rest: string, updates: seq<string>, buffer: string, b: nat)
    requires Reading(due, rest, updates, buffer) && Boundary(buffer) == b
    ensures var data := Data(buffer[..b]);
      Reading(due, rest, if data == "" then updates else updates + [data], buffer[b + 2..])
  {
    var first, others := Update(buffer[..b]), Updates(buffer[b + 2..]);
    Regrouped(updates, first, others, Updates(buffer), due);
    AppendNothing(updates);
  }

  lemma Regrouped(updates: seq<string>, first: seq<string>, others: seq<string>, whole: seq<string>, due: seq<string>)
    requires whole == first + others && updates + whole == due
    ensures updates + first + others == due
  {
    ConcatAssociates(updates, first, others);
  }

  lemma OneMoreChunk(text: string, chunk: string, due: seq<string>, rest: string, updates: seq<string>, buffer: string)
    requires due == Updates(text) + Updates(Rest(text) + chunk) && rest == Rest(Rest(text) + chunk)
    requires Reading(due, rest, updates, buffer) && Boundary(buffer) < 0
    ensures HasRead(text + chunk, updates, buffer)
  {
    ReadingResumes(text, chunk);
    assert updates + Updates(buffer) == updates;
  }

  lemma ReceivedNext(chunks: seq<string>, i: nat)
    requires i < |chunks|
    ensures Received(chunks[..i + 1]) == Received(chunks[..i]) + Normalised(chunks[i])
  {
    assert chunks[..i + 1][..i] == chunks[..i];
  }

  /** The reader of the web client: the updates depend only on the text, however it was cut. */
  method Follow(chunks: seq<string>) returns (updates: seq<string>)
    ensures updates == Updates(Received(chunks))
    ensures NoSplitPair(chunks) ==> updates == Updates(Normalised(Joined(chunks)))
  {
    updates := [];
    var buffer := "";
    var i := 0;
    while i < |chunks|
      invariant 0 <= i <= |chunks|
      invariant HasRead(Received(chunks[..i]), updates, buffer)
    {
      buffer := buffer + Normalised(chunks[i]);
      ghost var due, rest := updates + Updates(buffer), Rest(buffer);
      var boundary := Boundary(buffer);
      while boundary >= 0
        invariant boundary == Boundary(buffer)
        invariant Reading(due, rest, updates, buffer)
        decreases |buffer|
      {
        var data := Data(buffer[..boundary]);
        OneMoreBlock(due, rest, updates, buffer, boundary);
        buffer := buffer[boundary + 2..];
        boundary := Boundary(buffer);
        if data == "" {
          continue;
        }
        updates := updates + [data];
      }
      OneMoreChunk(Received(chunks[..i]), Normalised(chunks[i]), due, rest, updates, buffer);
      ReceivedNext(chunks, i);
      i := i + 1;
    }
    assert chunks[..i] == chunks;
    assert NoSplitPair(chunks) ==> Received(chunks) == Normalised(Joined(chunks)) by {
      ChunkwiseNormalisation(chunks);
    }
  }

  // The writer

  const EVENT: string := "event: submission"
  const FIELD: string := "data: "
  const HEAD: string := EVENT + "\n" + FIELD

  function Frame(payload: string): string {
    HEAD + payload + "\n\n"
  }

  lemma FrameText(payload: string)
    ensures Frame(payload) == "event: submission\ndata: " + payload + "\n\n"
  {
  }

  function Frames(payloads: seq<string>): string {
    if payloads == [] then ""
    else
      var k := |payloads| - 1;
      Frames(payloads[..k]) + Frame(payloads[k])
  }

  /** One look at the submission: the query fails, finds nothing, or yields its encoding and status. */
  datatype Poll = Failed | Missing | Found(payload: string, status: Status)

  datatype Response = Response(code: nat, body: string)

  /** How many polls the connection serves: up to a failure, or up to and including a terminal status. */
  function Served(polls: seq<Poll>): (n: nat)
    ensures n <= |polls| && forall i | 0 <= i < n :: polls[i].Found?
    ensures forall i | 0 <= i < n - 1 :: !Terminal(polls[i].status)
    ensures n < |polls| && polls[n].Found? ==> n > 0 && Terminal(polls[n - 1].status)
  {
    if polls == [] || !polls[0].Found? then 0
    else if Terminal(polls[0].status) then 1
    else 1 + Served(polls[1..])
  }

  /** Of the first n payloads, those that differ from the one polled before them. */
  function Changes(polls: seq<Poll>, n: nat): seq<string>
    requires n <= |polls| && forall i | 0 <= i < n :: polls[i].Found?
  {
    if n == 0 then []
    else if polls[n - 1].payload == Previous(polls, n - 1) then Changes(polls, n - 1)
    else Changes(polls, n - 1) + [polls[n - 1].payload]
  }

  function Previous(polls: seq<Poll>, k: nat): string
    requires k <= |polls| && forall i | 0 <= i < k :: polls[i].Found?
  {
    if k == 0 then "" else polls[k - 1].payload
  }

  /** The terminal status was reached, so nothing is polled any more. */
  predicate Complete(polls: seq<Poll>) {
    var n := Served(polls);
    n > 0 && Terminal(polls[n - 1].status)
  }

  /** The stream ends in a failed poll. */
  predicate Broken(polls: seq<Poll>) {
    Served(polls) < |polls| && !Complete(polls)
  }

  function ErrorBody(poll: Poll): string
    requires !poll.Found?
  {
    if poll == Missing then "{\"error\":\"Not Found\"}" else "{\"error\":\"Internal Server Error\"}"
  }

  /** A failure puts its body behind the frames; its code is seen only when there are none. */
  function Trailer(polls: seq<Poll>): string {
    if Broken(polls) then ErrorBody(polls[Served(polls)]) else ""
  }

  /** Everything the connection carries. */
  function Body(polls: seq<Poll>): string {
    Frames(Changes(polls, Served(polls))) + Trailer(polls)
  }

  lemma FramesSnoc(payloads: seq<string>, payload: string)
    ensures Frames(payloads + [payload]) == Frames(payloads) + Frame(payload)
  {
    assert (payloads + [payload])[..|payloads|] == payloads;
  }

  lemma NoFrames(payloads: seq<string>)
    ensures Frames(payloads) == "" <==> payloads == []
  {
    assert forall p: string :: |Frame(p)| == |HEAD| + |p| + 2;
    assert payloads != [] ==> |Frames(payloads)| >= |HEAD|;
  }

  lemma BodyIs(polls: seq<Poll>, n: nat, body: string)
    requires n == Served(polls) && body == Frames(Changes(polls, n))
    ensures Body(polls) == if Broken(polls) then body + ErrorBody(polls[n]) else body
  {
  }

  /** No terminal status was polled before poll i. */
  predicate Open(polls: seq<Poll>, i: nat) {
    i <= Served(polls) && forall j | 0 <= j < i :: !Terminal(polls[j].status)
  }

  lemma OpenGoesOn(polls: seq<Poll>, i: nat)
    requires Open(polls, i) && i < |polls|
    ensures !polls[i].Found? ==> i == Served(polls) && Broken(polls)
    ensures polls[i].Found? ==> i < Served(polls)
    ensures polls[i].Found? && Terminal(polls[i].status) ==> Served(polls) == i + 1 && !Broken(polls)
    ensures polls[i].Found? && !Terminal(polls[i].status) ==> Open(polls, i + 1)
  {
  }

  /** What the loop has sent and remembers after i polls. */
  ghost predicate HasSent(polls: seq<Poll>, i: nat, last: string, body: string) {
    Open(polls, i) && last == Previous(polls, i) && body == Frames(Changes(polls, i))
  }

  /** One turn of the loop that finds the submission. */
  lemma OneMorePoll(polls: seq<Poll>, i: nat, last: string, body: string)
    requires HasSent(polls, i, last, body) && i < |polls| && polls[i].Found?
    ensures var sent, n := if polls[i].payload == last then body else body + Frame(polls[i].payload), i + 1;
      && n <= Served(polls) && polls[i].payload == Previous(polls, n) && sent == Frames(Changes(polls, n))
      && if Terminal(polls[i].status) then n == Served(polls) && !Broken(polls) else Open(polls, n)
  {
    OpenGoesOn(polls, i);
    FramesSnoc(Changes(polls, i), polls[i].payload);
  }

  /** The turn that does not. */
  lemma FailedPoll(polls: seq<Poll>, i: nat, last: string, body: string)
    requires HasSent(polls, i, last, body) && i < |polls| && !polls[i].Found?
    ensures i == Served(polls) && Broken(polls) && Body(polls) == body + ErrorBody(polls[i])
    ensures body == "" <==> Changes(polls, i) == []
  {
    OpenGoesOn(polls, i);
    BodyIs(polls, i, body);
    NoFrames(Changes(polls, i));
  }

  /** The loop of the server; the request is cancelled after the last poll unless it ended before. */
  method Serve(polls: seq<Poll>) returns (r: Response)
    ensures r.body == Body(polls)
    ensures r.code == if !Broken(polls) || Changes(polls, Served(polls)) != [] then 200
                      else if polls[Served(polls)] == Missing then 404 else 500
    ensures r.code == 404 ==> r.body == "{\"error\":\"Not Found\"}"
    ensures r.code == 500 ==> r.body == "{\"error\":\"Internal Server Error\"}"
  {
    var i, last, body := 0, "", "";
    while i < |polls|
      invariant 0 <= i <= |polls| && HasSent(polls, i, last, body)
    {
      if !polls[i].Found? {
        FailedPoll(polls, i, last, body);
        var code := if body != "" then 200 else if polls[i] == Missing then 404 else 500;
        return Response(code, body + ErrorBody(polls[i]));
      }
      OneMorePoll(polls, i, last, body);
      var payload := polls[i].payload;
      if payload != last {
        body := body + Frame(payload);
        last := payload;
      }
      i := i + 1;
      if Terminal(polls[i - 1].status) {
        break;
      }
    }
    BodyIs(polls, i, body);
    r := Response(200, body);
  }

  // What the reader makes of what the writer sends

  /** The payloads that survive: not empty, on one line, no leading blank, no trailing carriage return. */
  predicate Exact(p: string) {
    p != "" && !IsBlank(p[0]) && '\n' !in p && p[|p| - 1] != '\r'
  }

  lemma LineEndIs(s: string, e: nat)
    requires e <= |s| && '\n' !in s[..e] && (e < |s| ==> s[e] == '\n')
    ensures LineEnd(s) == e
  {
  }

  lemma HeadShape()
    ensures |HEAD| == 24 && HEAD[23] == ' ' && '\r' !in HEAD && Boundary(HEAD) < 0
  {
  }

  /** A first line and its value. */
  lemma FirstLine(line: string, more: string)
    requires '\n' !in line
    ensures Values(line) == Value(line) && Values(line + "\n" + more) == Value(line) + Values(more)
  {
    var block := line + "\n" + more;
    LineEndIs(line, |line|);
    LineEndIs(block, |line|);
    assert line[..|line|] == line == block[..|line|] && block[|line| + 1..] == more;
  }

  /** Which lines count: the ones that begin with data:, and what they carry is trimmed. */
  lemma ValueMeans(line: string)
    ensures Value(line) == if "data:" <= line then [TrimStart(line[5..])] else []
  {
  }

  /** Line by line: the values of data lines are joined with newlines, and every other line is skipped. */
  lemma DataByLine(line: string, more: string)
    requires '\n' !in line
    ensures Data(line) == if Value(line) == [] then "" else Value(line)[0]
    ensures Data(line + "\n" + more)
         == if Value(line) == [] then Data(more)
            else if Values(more) == [] then Data(line) else Data(line) + "\n" + Data(more)
  {
    FirstLine(line, more);
    OneOrNone(Value(line), Values(more));
  }

  lemma OneOrNone(first: seq<string>, values: seq<string>)
    requires |first| <= 1
    ensures JoinLines(first) == if first == [] then "" else first[0]
    ensures JoinLines(first + values)
         == if first == [] then JoinLines(values)
            else if values == [] then first[0] else first[0] + "\n" + JoinLines(values)
  {
    if first == [] {
      assert first + values == values;
    } else {
      assert (first + values)[1..] == values;
    }
  }

  /** The blank behind the colon is trimmed. */
  lemma DataLine(l: string)
    ensures Value(FIELD + l) == [TrimStart(l)] && ('\n' !in l ==> '\n' !in FIELD + l)
  {
    var line := FIELD + l;
    assert line[..5] == "data:";
    assert line[5..] == " " + l;
    assert (" " + l)[1..] == l;
  }

  lemma BeforeLineEnd(q: string)
    ensures var e := LineEnd(q);
      '\n' !in q[..e] && if e < |q| then q == q[..e] + "\n" + q[e + 1..] else q == q[..e]
  {
    if LineEnd(q) < |q| {
      SplitAround(q, LineEnd(q));
    }
  }

  lemma BehindEvent(event: string, field: string, q: string)
    requires '\n' !in event && Value(event) == []
    ensures Values(event + "\n" + field + q) == Values(field + q)
  {
    FirstLine(event, field + q);
    ConcatAssociates(event + "\n", field, q);
  }

  lemma BehindField(field: string, q: string)
    requires var l := q[..LineEnd(q)]; Value(field + l) == [TrimStart(l)] && '\n' !in field + l
    ensures var e := LineEnd(q);
      Values(field + q) == [TrimStart(q[..e])] + if e < |q| then Values(q[e + 1..]) else []
  {
    BeforeLineEnd(q);
    var e := LineEnd(q);
    var line := field + q[..e];
    if e < |q| {
      FirstLine(line, q[e + 1..]);
      ConcatAssociates(field, q[..e] + "\n", q[e + 1..]);
      ConcatAssociates(field, q[..e], "\n");
    } else {
      FirstLine(line, "");
    }
  }

  /** The event line carries no data. */
  lemma BehindHead(q: string)
    ensures Values(HEAD + q) == Values(FIELD + q)
  {
    assert EVENT[..5][0] != "data:"[0];
    BehindEvent(EVENT, FIELD, q);
  }

  lemma DataOfFrame(q: string)
    ensures var e := LineEnd(q);
      Values(HEAD + q) == [TrimStart(q[..e])] + if e < |q| then Values(q[e + 1..]) else []
  {
    BehindHead(q);
    DataLine(q[..LineEnd(q)]);
    BehindField(FIELD, q);
  }

  /** At least this many characters of a block go into the values. */
  function Size(values: seq<string>): nat {
    if values == [] then 0 else |JoinLines(values)| + 5
  }

  lemma SizeOfFirst(v: string, rest: seq<string>)
    ensures Size([v] + rest) <= |v| + 5 + Size(rest)
    ensures |JoinLines([v] + rest)| == |v| + if rest == [] then 0 else 1 + |JoinLines(rest)|
    ensures rest == [] ==> JoinLines([v] + rest) == v
  {
    assert ([v] + rest)[1..] == rest;
  }

  lemma {:induction false} ValuesAreShorter(block: string)
    ensures Size(Values(block)) <= |block|
  {
    var e := LineEnd(block);
    var first, rest := Value(block[..e]), if e < |block| then Values(block[e + 1..]) else [];
    if e < |block| {
      ValuesAreShorter(block[e + 1..]);
    }
    if first == [] {
      assert first + rest == rest;
    } else {
      SizeOfFirst(first[0], rest);
    }
  }

  /** The data of a frame has its payload's length only if it is the payload, on one line and without leading blanks. */
  lemma FrameDataIsExact(q: string)
    ensures |Data(HEAD + q)| <= |q|
    ensures |Data(HEAD + q)| == |q| ==> '\n' !in q && TrimStart(q) == q == Data(HEAD + q)
    ensures '\n' !in q ==> Data(HEAD + q) == TrimStart(q)
  {
    DataOfFrame(q);
    var e := LineEnd(q);
    var first, rest := TrimStart(q[..e]), if e < |q| then Values(q[e + 1..]) else [];
    SizeOfFirst(first, rest);
    if e < |q| {
      assert q[e] == '\n';
      ValuesAreShorter(q[e + 1..]);
    } else {
      assert q[..e] == q;
    }
  }

  lemma {:induction false} UpdatesAreShorter(text: string, u: string)
    requires u in Updates(text)
    ensures |u| + 2 <= |text|
  {
    var b := Boundary(text);
    var block, rest := text[..b], text[b + 2..];
    assert Updates(text) == Update(block) + Updates(rest);
    if u in Updates(rest) {
      UpdatesAreShorter(rest, u);
    } else {
      assert u in Update(block);
      ValuesAreShorter(block);
    }
  }

  lemma HeadIsNormal(t: string)
    ensures Normalised(HEAD + t) == HEAD + Normalised(t)
  {
    HeadShape();
    NormalisedConcat(HEAD, t);
    NormalisedShrinks(HEAD);
  }

  lemma BoundaryBehindHead(t: string)
    ensures Boundary(HEAD + t) == if Boundary(t) < 0 then -1 else 24 + Boundary(t)
  {
    HeadShape();
    BoundaryBehind(HEAD, t);
  }

  lemma BoundaryBehind(head: string, t: string)
    requires head != "" && head[|head| - 1] != '\n' && Boundary(head) < 0
    ensures Boundary(head + t) == if Boundary(t) < 0 then -1 else |head| + Boundary(t)
  {
    var text, n := head + t, |head|;
    assert forall i | 0 <= i < n - 1 :: BreakAt(text, i) ==> BreakAt(head, i);
    assert forall i | n <= i :: BreakAt(text, i) ==> BreakAt(t, i - n);
    if Boundary(t) >= 0 {
      assert forall i | 0 <= i < n + Boundary(t) :: !BreakAt(text, i);
      BoundaryIs(text, n + Boundary(t));
    }
  }

  lemma BoundaryOfPayload(p: string, t: string)
    requires '\n' !in p
    ensures Boundary(p + "\n\n" + t) == |p|
  {
    BoundaryIs(p + "\n\n" + t, |p|);
  }

  /** A frame with a one-line payload is read as one update, unless only blanks are left of it. */
  lemma FrameIsRead(p: string, t: string)
    requires '\n' !in p
    ensures Updates(Frame(p) + t) == (if TrimStart(p) == "" then [] else [TrimStart(p)]) + Updates(t)
    ensures Rest(Frame(p) + t) == Rest(t)
  {
    var text := p + "\n\n" + t;
    assert Frame(p) + t == HEAD + text;
    BoundaryOfPayload(p, t);
    BoundaryBehindHead(text);
    assert text[..|p|] == p && text[|p| + 2..] == t;
    FirstBlockOf(text, |p|);
    FrameDataIsExact(p);
  }

  ghost predicate AllExact(payloads: seq<string>) {
    forall i | 0 <= i < |payloads| :: Exact(payloads[i])
  }

  lemma ExactFrameIsRead(p: string, t: string)
    requires Exact(p)
    ensures Updates(Frame(p) + t) == [p] + Updates(t) && Rest(Frame(p) + t) == Rest(t)
  {
    FrameIsRead(p, t);
  }

  lemma OneMoreFrame(init: seq<string>, p: string, t: string)
    requires Exact(p)
    ensures Frames(init + [p]) + t == Frames(init) + (Frame(p) + t)
    ensures init + [p] + Updates(t) == init + Updates(Frame(p) + t)
    ensures Rest(Frame(p) + t) == Rest(t)
  {
    FramesSnoc(init, p);
    ExactFrameIsRead(p, t);
    ConcatAssociates(Frames(init), Frame(p), t);
    ConcatAssociates(init, [p], Updates(t));
  }

  lemma {:induction false} FramesAreRead(payloads: seq<string>, t: string)
    requires AllExact(payloads)
    ensures Updates(Frames(payloads) + t) == payloads + Updates(t)
    ensures Rest(Frames(payloads) + t) == Rest(t)
  {
    if payloads == [] {
      assert Frames(payloads) + t == t;
    } else {
      var k := |payloads| - 1;
      var init, p := payloads[..k], payloads[k];
      assert payloads == init + [p];
      OneMoreFrame(init, p, t);
      FramesAreRead(init, Frame(p) + t);
    }
  }

  ghost predicate PairFree(s: string) {
    forall i :: !PairAt(s, i)
  }

  lemma PairFreeConcat(s: string, t: string)
    requires PairFree(s) && PairFree(t) && !Splits(s, t)
    ensures PairFree(s + t)
  {
    forall i ensures !PairAt(s + t, i) {
      assert !PairAt(s, i) && !PairAt(t, i - |s|);
    }
  }

  lemma FrameIsPairFree(p: string)
    requires Exact(p)
    ensures PairFree(Frame(p))
  {
    HeadShape();
    var framed := HEAD + p;
    assert '\r' !in "\n\n";
    PairFreeConcat(HEAD, p);
    PairFreeConcat(framed, "\n\n");
  }

  lemma {:induction false} FramesArePairFree(payloads: seq<string>)
    requires AllExact(payloads)
    ensures PairFree(Frames(payloads)) && (payloads != [] ==> Frames(payloads)[|Frames(payloads)| - 1] == '\n')
  {
    if payloads != [] {
      var k := |payloads| - 1;
      FramesArePairFree(payloads[..k]);
      FrameIsPairFree(payloads[k]);
      PairFreeConcat(Frames(payloads[..k]), Frame(payloads[k]));
    }
  }

  lemma {:induction false} JoinedGrows(chunks: seq<string>, k: nat)
    requires k <= |chunks|
    ensures Joined(chunks[..k]) <= Joined(chunks)
  {
    if k < |chunks| {
      JoinedGrows(chunks[..|chunks| - 1], k);
      assert chunks[..|chunks| - 1][..k] == chunks[..k];
    } else {
      assert chunks[..k] == chunks;
    }
  }

  lemma NoSplitInside(chunks: seq<string>, k: nat)
    requires k < |chunks| && PairFree(Joined(chunks))
    ensures !CutsPair(chunks, k)
  {
    var before, through := Joined(chunks[..k]), Joined(chunks[..k + 1]);
    assert through == before + chunks[k] by {
      assert chunks[..k + 1][..k] == chunks[..k];
    }
    JoinedGrows(chunks, k + 1);
    if Splits(before, chunks[k]) {
      assert PairAt(through, |before| - 1);
      assert PairAt(Joined(chunks), |before| - 1);
    }
  }

  /** Without pairs no chunk boundary can do harm. */
  lemma PairFreeChunks(chunks: seq<string>)
    requires PairFree(Joined(chunks))
    ensures Received(chunks) == Joined(chunks)
  {
    forall k | 0 <= k < |chunks| ensures !CutsPair(chunks, k) {
      NoSplitInside(chunks, k);
    }
    ChunkwiseNormalisation(chunks);
    NormalisedShrinks(Joined(chunks));
  }

  /** Round trip: whatever the chunks, the reader yields exactly the payloads that were framed. */
  lemma FramesRoundTrip(payloads: seq<string>, chunks: seq<string>)
    requires AllExact(payloads)
    requires Joined(chunks) == Frames(payloads)
    ensures Updates(Received(chunks)) == payloads
  {
    FramesArePairFree(payloads);
    PairFreeChunks(chunks);
    FramesAreRead(payloads, "");
    assert Frames(payloads) + "" == Frames(payloads);
  }

  lemma UnchangedFrame(p: string)
    requires Exact(p)
    ensures Updates(Normalised(Frame(p))) == [p]
  {
    FrameIsPairFree(p);
    NormalisedShrinks(Frame(p));
    ExactFrameIsRead(p, "");
    assert Frame(p) + "" == Frame(p);
  }

  /** If a frame yields its payload at all, its first block is the whole payload. */
  lemma ReadBackIsWhole(p: string, t: string)
    requires Updates(HEAD + t) == [p] && |t| <= |p| + 2
    ensures |t| == |p| + 2 && p == t[..|p|] && '\n' !in p && TrimStart(p) == p && p != ""
  {
    var c := Boundary(t);
    BoundaryBehindHead(t);
    FirstBlockOf(t, c);
    var block, rest := t[..c], t[c + 2..];
    FrameDataIsExact(block);
    if Data(HEAD + block) == "" {
      UpdatesAreShorter(rest, p);
    }
  }

  lemma FirstBlockOf(t: string, c: nat)
    requires Boundary(t) == c
    ensures Updates(HEAD + t) == Update(HEAD + t[..c]) + Updates(t[c + 2..])
    ensures Data(HEAD + t[..c]) == "" ==> Updates(HEAD + t) == Updates(t[c + 2..])
    ensures Data(HEAD + t[..c]) != "" ==> Updates(HEAD + t) != [] && Updates(HEAD + t)[0] == Data(HEAD + t[..c])
  {
    HeadShape();
    BoundaryBehindHead(t);
    SplitBehind(HEAD, t, c);
  }

  lemma SplitBehind(head: string, t: string, c: nat)
    requires c + 2 <= |t|
    ensures (head + t)[..|head| + c] == head + t[..c]
    ensures (head + t)[|head| + c + 2..] == t[c + 2..]
  {
  }

  lemma OnlyExactSurvives(p: string)
    requires Updates(Normalised(Frame(p))) == [p]
    ensures Exact(p)
  {
    var tail := p + "\n\n";
    assert Frame(p) == HEAD + tail;
    HeadIsNormal(tail);
    NormalisedShrinks(tail);
    ReadBackIsWhole(p, Normalised(tail));
    assert !PairAt(tail, |p| - 1);
  }

  /** A payload survives framing and reading if and only if it is exact. */
  lemma RoundTripIffExact(p: string)
    ensures Updates(Normalised(Frame(p))) == [p] <==> Exact(p)
  {
    if Exact(p) {
      UnchangedFrame(p);
    }
    if Updates(Normalised(Frame(p))) == [p] {
      OnlyExactSurvives(p);
    }
  }

  lemma {:induction false} ChangesAreExact(polls: seq<Poll>, n: nat)
    requires n <= |polls| && forall i | 0 <= i < n :: polls[i].Found? && Exact(polls[i].payload)
    ensures AllExact(Changes(polls, n))
  {
    if n > 0 {
      ChangesAreExact(polls, n - 1);
    }
  }

  /** The last frame always shows the latest poll, and no frame repeats the one before it. */
  lemma {:induction false} ChangesShowTheLatest(polls: seq<Poll>, n: nat)
    requires n <= |polls| && forall i | 0 <= i < n :: polls[i].Found? && polls[i].payload != ""
    ensures var sent := Changes(polls, n);
      && (n > 0 ==> sent != [] && sent[|sent| - 1] == polls[n - 1].payload)
      && forall i | 0 < i < |sent| :: sent[i - 1] != sent[i]
  {
    if n > 0 {
      ChangesShowTheLatest(polls, n - 1);
    }
  }

  predicate OneLine(s: string) {
    '\n' !in s && '\r' !in s
  }

  lemma ErrorBodyIsOneLine(poll: Poll)
    requires !poll.Found?
    ensures OneLine(ErrorBody(poll))
  {
    if poll == Missing {
      assert OneLine("{\"error\":\"Not Found\"}");
    } else {
      assert OneLine("{\"error\":\"Internal Server Error\"}");
    }
  }

  lemma TrailerIsSilent(polls: seq<Poll>)
    ensures OneLine(Trailer(polls))
  {
    if Broken(polls) {
      ErrorBodyIsOneLine(polls[Served(polls)]);
    }
  }

  lemma BodyIsPairFree(polls: seq<Poll>)
    requires AllExact(Changes(polls, Served(polls)))
    ensures PairFree(Body(polls))
  {
    TrailerIsSilent(polls);
    FramesArePairFree(Changes(polls, Served(polls)));
    PairFreeConcat(Frames(Changes(polls, Served(polls))), Trailer(polls));
  }

  lemma BodyIsRead(polls: seq<Poll>)
    requires AllExact(Changes(polls, Served(polls)))
    ensures Updates(Body(polls)) == Changes(polls, Served(polls))
  {
    TrailerIsSilent(polls);
    FramesAreRead(Changes(polls, Served(polls)), Trailer(polls));
    assert Boundary(Trailer(polls)) < 0;
  }

  /**
   From the polls of the server to the updates of the client, over any chunks: what has arrived so far yields a prefix
   of the changes, the whole body yields all of them, and a complete run ends with the terminal status.
   */
  lemma ChangesArrive(polls: seq<Poll>, chunks: seq<string>, later: string)
    requires forall i | 0 <= i < Served(polls) :: Exact(polls[i].payload)
    requires Joined(chunks) + later == Body(polls)
    ensures Updates(Received(chunks)) <= Changes(polls, Served(polls))
    ensures later == "" ==> Updates(Received(chunks)) == Changes(polls, Served(polls))
    ensures var shown := Updates(Received(chunks));
      later == "" && Complete(polls) ==> shown != [] && shown[|shown| - 1] == polls[Served(polls) - 1].payload
  {
    ChangesAreExact(polls, Served(polls));
    ChangesShowTheLatest(polls, Served(polls));
    BodyIsPairFree(polls);
    BodyIsRead(polls);
    PartOfPairFree(Joined(chunks), later);
    PairFreeChunks(chunks);
    ReadingResumes(Joined(chunks), later);
    AppendNothing(Joined(chunks));
  }

  lemma PartOfPairFree(s: string, t: string)
    requires PairFree(s + t)
    ensures PairFree(s)
  {
    forall i ensures !PairAt(s, i) {
      assert !PairAt(s + t, i);
    }
  }
}
