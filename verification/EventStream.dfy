/**
 Resumable delivery of a conversation's event log to the browser: the server's cursor and
 replay, the client's deduplicating subscription, and any number of connections cut at any point.

 The cursor is the Last-Event-ID of the WHATWG HTML Standard, section 9.2.4.
 */
module EventStream {
  import opened Options
  import opened EventFrames

  datatype Envelope = Envelope(eventId: string, eventType: string, sequence: int, payload: string)

  /** The JSON codec both sides share: `json.dumps` on the server and `JSON.parse` in the browser. */
  datatype Codec = Codec(encode: Envelope -> string, decode: string -> Option<Envelope>)

  /** What the two JSON libraries guarantee: an encoded event is one line and decodes to itself. */
  ghost predicate Lawful(codec: Codec) {
    forall e :: OneLine(codec.encode(e)) && codec.decode(codec.encode(e)) == Some(e)
  }

  ghost predicate OneLine(text: string) {
    LineFree(text) && CrFree(text)
  }

  // ---------- The server ----------

  /** The conversation log: consecutive sequence numbers from 1, fresh non-empty ids, one-line names. */
  ghost predicate ValidLog(log: seq<Envelope>) {
    && (forall i :: 0 <= i < |log| ==>
          && log[i].sequence == i + 1
          && log[i].eventId != ""
          && OneLine(log[i].eventId)
          && OneLine(log[i].eventType))
    && (forall i, j :: 0 <= i < j < |log| ==> log[i].eventId != log[j].eventId)
  }

  function FindEvent(log: seq<Envelope>, eventId: string): Option<Envelope> {
    if log == [] then None
    else if log[0].eventId == eventId then Some(log[0])
    else FindEvent(log[1..], eventId)
  }

  /** Where replay starts; None stands for the 404 the server answers to a foreign cursor. */
  function CursorSequence(log: seq<Envelope>, lastEventId: Option<string>): Option<int> {
    match lastEventId
    case None => Some(0)
    case Some(id) =>
      if id == "" then Some(0)
      else match FindEvent(log, id)
        case None => None
        case Some(e) => Some(e.sequence)
  }

  /** Events whose sequence exceeds the cursor's, in log order. */
  function ListAfter(log: seq<Envelope>, after: int): seq<Envelope> {
    if log == [] then []
    else (if log[0].sequence > after then [log[0]] else []) + ListAfter(log[1..], after)
  }

  function PrintAll(events: seq<Envelope>, codec: Codec): string {
    if events == [] then ""
    else SseEvent(events[0].eventId, events[0].eventType, codec.encode(events[0])) + PrintAll(events[1..], codec)
  }

  /** The text of one response body, were it never cut; a rejected cursor has no body. */
  function ResponseText(log: seq<Envelope>, lastEventId: Option<string>, codec: Codec): string {
    match CursorSequence(log, lastEventId)
    case None => ""
    case Some(after) => PrintAll(ListAfter(log, after), codec)
  }

  lemma {:induction false} FindEventAt(log: seq<Envelope>, i: nat)
    requires i < |log|
    requires forall a, b :: 0 <= a < b < |log| ==> log[a].eventId != log[b].eventId
    ensures FindEvent(log, log[i].eventId) == Some(log[i])
  {
    if i > 0 {
      FindEventAt(log[1..], i - 1);
    }
  }

  /** A cursor is refused exactly if it names an event and the log has none of that id. */
  lemma {:induction false} CursorIsRefusedExactly(log: seq<Envelope>, lastEventId: Option<string>)
    ensures CursorSequence(log, lastEventId) == None <==>
      lastEventId.Some? && lastEventId.value != "" && forall e :: e in log ==> e.eventId != lastEventId.value
  {
    if lastEventId.Some? {
      FoundExactly(log, lastEventId.value);
    }
  }

  lemma {:induction false} FoundExactly(log: seq<Envelope>, eventId: string)
    ensures FindEvent(log, eventId) == None <==> forall e :: e in log ==> e.eventId != eventId
  {
    if log != [] {
      FoundExactly(log[1..], eventId);
      assert log == [log[0]] + log[1..];
    }
  }

  lemma {:induction false} ListAfterIsSuffix(log: seq<Envelope>, base: int, after: nat)
    requires forall i :: 0 <= i < |log| ==> log[i].sequence == base + i + 1
    requires base <= after <= base + |log|
    ensures ListAfter(log, after) == log[after - base..]
  {
    if log != [] {
      if after == base {
        ListAfterAll(log, after);
      } else {
        ListAfterIsSuffix(log[1..], base + 1, after);
      }
    }
  }

  lemma {:induction false} ListAfterAll(log: seq<Envelope>, after: int)
    requires forall i :: 0 <= i < |log| ==> log[i].sequence > after
    ensures ListAfter(log, after) == log
  {
    if log != [] {
      ListAfterAll(log[1..], after);
      assert [log[0]] + log[1..] == log;
    }
  }

  // ---------- The client ----------

  /** The subscription's variables, and the events handed to `onEvent` so far. */
  datatype Client = Client(
    seenEventIds: set<string>,
    receivedSequences: set<int>,
    contiguousSequence: int,
    lastEventId: Option<string>,
    delivered: seq<Envelope>)

  const NewClient := Client({}, {}, 0, None, [])

  /** `end` is the last number of the unbroken run of received sequences that follows `start`. */
  ghost predicate IsRunEnd(received: set<int>, start: int, end: int) {
    start <= end && (forall k :: start < k <= end ==> k in received) && end + 1 !in received
  }

  function UpTo(n: nat): (r: set<int>)
    ensures forall i :: i in r <==> 0 < i <= n
  {
    if n == 0 then {} else UpTo(n - 1) + {n}
  }

  function RunEnd(received: set<int>, start: int): (end: int)
    ensures IsRunEnd(received, start, end)
    decreases |received|
  {
    if start + 1 in received then
      var end := RunEnd(received - {start + 1}, start + 1);
      assert forall k {:trigger k in received} :: start + 1 < k <= end ==> k in received - {start + 1};
      end
    else start
  }

  lemma RunEndIsUnique(received: set<int>, start: int, a: int, b: int)
    requires IsRunEnd(received, start, a) && IsRunEnd(received, start, b)
    ensures a == b
  {
    assert start < a + 1 <= b ==> a + 1 in received;
    assert start < b + 1 <= a ==> b + 1 in received;
  }

  /** Parse, drop unparsable and already seen events, advance the cursor and the contiguous prefix, deliver. */
  function Handle(s: Client, frame: SseFrame, codec: Codec): Client {
    match codec.decode(frame.data)
    case None => s
    case Some(event) =>
      if event.eventId == "" || event.eventId in s.seenEventIds then s
      else
        var received := s.receivedSequences + {event.sequence};
        Client(
          s.seenEventIds + {event.eventId},
          received,
          RunEnd(received, s.contiguousSequence),
          Some(frame.id.GetOr(event.eventId)),
          s.delivered + [event])
  }

  function HandleAll(s: Client, frames: seq<string>, codec: Codec): Client
    decreases |frames|
  {
    if frames == [] then s
    else
      var s' := match FrameOf(frames[0]) case None => s case Some(frame) => Handle(s, frame, codec);
      HandleAll(s', frames[1..], codec)
  }

  lemma {:induction false} HandleAllAppend(s: Client, a: seq<string>, b: seq<string>, codec: Codec)
    ensures HandleAll(s, a + b, codec) == HandleAll(HandleAll(s, a, codec), b, codec)
    decreases |a|
  {
    if a == [] {
      assert a + b == b;
    } else {
      assert (a + b)[1..] == a[1..] + b;
      var s' := match FrameOf(a[0]) case None => s case Some(frame) => Handle(s, frame, codec);
      HandleAllAppend(s', a[1..], b, codec);
    }
  }

  /** The client after one connection whose decoded chunks, line endings normalized, read `text`. */
  function AfterText(s: Client, text: string, codec: Codec): Client {
    HandleAll(s, Drain(text).frames, codec)
  }

  class Subscription {
    const codec: Codec
    var buffer: string
    var seenEventIds: set<string>
    var receivedSequences: set<int>
    var contiguousSequence: int
    var lastEventId: Option<string>
    var delivered: seq<Envelope>

    constructor (codec: Codec)
      ensures State() == NewClient && buffer == "" && this.codec == codec
    {
      this.codec := codec;
      buffer, seenEventIds, receivedSequences, contiguousSequence := "", {}, {}, 0;
      lastEventId, delivered := None, [];
    }

    ghost function State(): Client
      reads this
    {
      Client(seenEventIds, receivedSequences, contiguousSequence, lastEventId, delivered)
    }

    method HandleFrame(frame: SseFrame)
      modifies this
      ensures buffer == old(buffer)
      ensures State() == Handle(old(State()), frame, codec)
    {
      match codec.decode(frame.data) {
        case None =>
          return;
        case Some(parsed) =>
          if parsed.eventId == "" || parsed.eventId in seenEventIds {
            return;
          }
          seenEventIds := seenEventIds + {parsed.eventId};
          lastEventId := Some(frame.id.GetOr(parsed.eventId));
          receivedSequences := receivedSequences + {parsed.sequence};
          ghost var start := contiguousSequence;
          ghost var ahead := receivedSequences;
          while contiguousSequence + 1 in receivedSequences
            invariant start <= contiguousSequence
            invariant forall k :: start < k <= contiguousSequence ==> k in receivedSequences
            invariant ahead == set k | k in receivedSequences && !(start < k <= contiguousSequence)
            invariant buffer == old(buffer) && delivered == old(delivered)
            invariant seenEventIds == old(seenEventIds) + {parsed.eventId}
            invariant lastEventId == Some(frame.id.GetOr(parsed.eventId))
            invariant receivedSequences == old(receivedSequences) + {parsed.sequence}
            decreases ahead
          {
            ahead := ahead - {contiguousSequence + 1};
            contiguousSequence := contiguousSequence + 1;
          }
          RunEndIsUnique(receivedSequences, start, contiguousSequence, RunEnd(receivedSequences, start));
          delivered := delivered + [parsed];
      }
    }

    /** One read of the response body: extend the buffer, then handle every complete frame in it. */
    method ReadChunk(chunk: string)
      modifies this
      ensures State() == HandleAll(old(State()), Drain(old(buffer) + NormalizeChunk(chunk)).frames, codec)
      ensures buffer == Drain(old(buffer) + NormalizeChunk(chunk)).rest
    {
      buffer := buffer + NormalizeChunk(chunk);
      ghost var whole := buffer;
      ghost var start := State();
      var boundary := Boundary(buffer);
      while boundary != -1
        invariant boundary == Boundary(buffer)
        invariant HandleAll(State(), Drain(buffer).frames, codec) == HandleAll(start, Drain(whole).frames, codec)
        invariant Drain(buffer).rest == Drain(whole).rest
        decreases |buffer|
      {
        ghost var frames := Drain(buffer).frames;
        var text := buffer[..boundary];
        var frame := ParseFrame(text);
        buffer := buffer[boundary + 2..];
        assert frames[1..] == Drain(buffer).frames;
        if frame.Some? {
          HandleFrame(frame.value);
        }
        boundary := Boundary(buffer);
      }
    }

    /** One connection: a fresh buffer, then every chunk until the body ends or breaks off. */
    method ReadConnection(chunks: seq<string>)
      modifies this
      ensures State() == AfterText(old(State()), NormalizeEach(chunks), codec)
    {
      buffer := "";
      ghost var start := State();
      for i := 0 to |chunks|
        invariant State() == HandleAll(start, Drain(NormalizeEach(chunks[..i])).frames, codec)
        invariant buffer == Drain(NormalizeEach(chunks[..i])).rest
      {
        ghost var read := NormalizeEach(chunks[..i]);
        NormalizeEachSnoc(chunks[..i], chunks[i]);
        assert chunks[..i + 1] == chunks[..i] + [chunks[i]];
        DrainAppend(read, NormalizeChunk(chunks[i]));
        HandleAllAppend(start, Drain(read).frames, Drain(Drain(read).rest + NormalizeChunk(chunks[i])).frames, codec);
        ReadChunk(chunks[i]);
      }
      assert chunks[..|chunks|] == chunks;
    }

    /** The reconnect loop of `connect`, one element per connection the network granted. */
    method Connect(connections: seq<seq<string>>)
      modifies this
      ensures State() == AfterConnections(old(State()), connections, codec)
    {
      ghost var start := State();
      for i := 0 to |connections|
        invariant State() == AfterConnections(start, connections[..i], codec)
      {
        assert connections[..i + 1][..i] == connections[..i];
        ReadConnection(connections[i]);
      }
      assert connections[..|connections|] == connections;
    }
  }

  lemma {:induction false} NormalizeEachSnoc(chunks: seq<string>, last: string)
    ensures NormalizeEach(chunks + [last]) == NormalizeEach(chunks) + NormalizeChunk(last)
  {
    if chunks == [] {
      assert chunks + [last] == [last] && [last][1..] == [];
      assert NormalizeEach([last]) == NormalizeChunk(last) + "";
    } else {
      assert (chunks + [last])[1..] == chunks[1..] + [last];
      NormalizeEachSnoc(chunks[1..], last);
    }
  }

  function AfterConnections(s: Client, connections: seq<seq<string>>, codec: Codec): Client
    decreases |connections|
  {
    if connections == [] then s
    else
      var n := |connections| - 1;
      AfterText(AfterConnections(s, connections[..n], codec), NormalizeEach(connections[n]), codec)
  }

  // ---------- Chunking does not matter; printing and parsing undo each other ----------

  /** For text without carriage returns the frames depend on the text alone, never on how it was cut. */
  lemma {:induction false} ChunkingIsInvisible(s: Client, chunks: seq<string>, chunks': seq<string>, codec: Codec)
    requires Concat(chunks) == Concat(chunks') && CrFree(Concat(chunks))
    ensures AfterText(s, NormalizeEach(chunks), codec) == AfterText(s, NormalizeEach(chunks'), codec)
  {
    ChunkwiseNormalizationExact(chunks);
    ChunkwiseNormalizationExact(chunks');
  }

  function FrameTexts(events: seq<Envelope>, codec: Codec): (texts: seq<string>)
    ensures |texts| == |events|
    ensures forall i :: 0 <= i < |texts| ==>
      texts[i] == FrameText(events[i].eventId, events[i].eventType, codec.encode(events[i]))
  {
    if events == [] then []
    else [FrameText(events[0].eventId, events[0].eventType, codec.encode(events[0]))] + FrameTexts(events[1..], codec)
  }

  ghost predicate Printable(events: seq<Envelope>) {
    forall e :: e in events ==> OneLine(e.eventId) && OneLine(e.eventType)
  }

  /** Cutting the printed stream gives back exactly the printed frames, in order and with nothing left over. */
  lemma {:induction false} CutPrintedStream(events: seq<Envelope>, codec: Codec)
    requires Lawful(codec) && Printable(events)
    ensures Drain(PrintAll(events, codec)) == Drained(FrameTexts(events, codec), "")
  {
    if events != [] {
      var e := events[0];
      var text := FrameText(e.eventId, e.eventType, codec.encode(e));
      assert OneLine(codec.encode(e));
      assert LineFree(e.eventId) && LineFree(e.eventType) && LineFree(codec.encode(e));
      hide FrameText, Drain, Boundary, OneLine, LineFree;
      CutPrintedStream(events[1..], codec);
      FrameTextIsOneFrame(e.eventId, e.eventType, codec.encode(e));
      BoundaryAfterText(text, PrintAll(events[1..], codec));
      assert PrintAll(events, codec) == text + [LF, LF] + PrintAll(events[1..], codec);
      DrainOne(PrintAll(events, codec), text, PrintAll(events[1..], codec));
    }
  }

  lemma PrintedFrameParses(events: seq<Envelope>, i: nat, codec: Codec)
    requires Lawful(codec) && Printable(events) && i < |events|
    ensures FrameOf(FrameTexts(events, codec)[i]) == Some(SseFrame(Some(events[i].eventId), codec.encode(events[i])))
  {
    var e := events[i];
    assert OneLine(codec.encode(e));
    ParsePrintedFrame(e.eventId, e.eventType, codec.encode(e));
  }

  /**
   Printing and parsing undo each other: cutting the printed stream into frames and parsing each of
   them gives back exactly the events' (id, data) pairs, in order, with nothing left over; and the data
   decode to the events themselves.
   */
  lemma {:induction false} ParsePrintedStream(events: seq<Envelope>, codec: Codec)
    requires Lawful(codec) && Printable(events)
    ensures var d := Drain(PrintAll(events, codec));
      && d.rest == "" && |d.frames| == |events|
      && forall i :: 0 <= i < |events| ==>
           && FrameOf(d.frames[i]) == Some(SseFrame(Some(events[i].eventId), codec.encode(events[i])))
           && codec.decode(FrameOf(d.frames[i]).value.data) == Some(events[i])
  {
    hide Drain, PrintAll, FrameOf;
    CutPrintedStream(events, codec);
    forall i | 0 <= i < |events|
      ensures FrameOf(FrameTexts(events, codec)[i]) == Some(SseFrame(Some(events[i].eventId), codec.encode(events[i])))
    {
      PrintedFrameParses(events, i, codec);
    }
  }

  lemma {:induction false} PrintedStreamIsCrFree(events: seq<Envelope>, codec: Codec)
    requires Lawful(codec) && Printable(events)
    ensures CrFree(PrintAll(events, codec))
  {
    if events != [] {
      assert OneLine(codec.encode(events[0]));
      PrintedStreamIsCrFree(events[1..], codec);
    }
  }

  // ---------- Exactly once, in order ----------

  /**
   What reaches the browser over one connection: the response text cut after any character, plus
   whatever a decoder flushes at the end (no line feed, no carriage return), in any chunks.
   */
  ghost predicate Carries(chunks: seq<string>, response: string, received: string, flushed: string) {
    received <= response && OneLine(flushed) && Concat(chunks) == received + flushed
  }

  /** One granted connection: the log as it stood when the body ended, and the chunks that arrived. */
  datatype Connection = Connection(log: seq<Envelope>, chunks: seq<string>, received: string, flushed: string)

  function ChunksOf(run: seq<Connection>): (r: seq<seq<string>>)
    ensures |r| == |run|
    ensures forall i :: 0 <= i < |run| ==> r[i] == run[i].chunks
  {
    seq(|run|, i requires 0 <= i < |run| => run[i].chunks)
  }

  /** A run of connections against one growing log, each resumed with the client's own cursor. */
  ghost predicate ServedRun(run: seq<Connection>, codec: Codec)
    decreases |run|
  {
    run == [] ||
    (var n := |run| - 1;
     var before := AfterConnections(NewClient, ChunksOf(run[..n]), codec);
     && ServedRun(run[..n], codec)
     && (n > 0 ==> run[n - 1].log <= run[n].log)
     && Carries(run[n].chunks, ResponseText(run[n].log, before.lastEventId, codec), run[n].received, run[n].flushed))
  }

  /** The client holds exactly the first `contiguousSequence` events of the log. */
  ghost predicate InSync(s: Client, log: seq<Envelope>) {
    var k := s.contiguousSequence;
    && 0 <= k <= |log|
    && s.delivered == log[..k]
    && s.seenEventIds == (set e | e in log[..k] :: e.eventId)
    && s.receivedSequences == UpTo(k)
    && s.lastEventId == (if k == 0 then None else Some(log[k - 1].eventId))
  }

  lemma InSyncHandlesNext(s: Client, log: seq<Envelope>, codec: Codec)
    requires Lawful(codec) && ValidLog(log) && InSync(s, log) && s.contiguousSequence < |log|
    ensures var k := s.contiguousSequence;
      var s' := Handle(s, SseFrame(Some(log[k].eventId), codec.encode(log[k])), codec);
      InSync(s', log) && s'.contiguousSequence == k + 1
  {
    var k := s.contiguousSequence;
    var event := log[k];
    assert codec.decode(codec.encode(event)) == Some(event);
    assert log[..k + 1] == log[..k] + [event];
    var received := s.receivedSequences + {event.sequence};
    assert received == UpTo(k + 1);
    RunEndIsUnique(received, k, k + 1, RunEnd(received, k));
  }

  lemma {:induction false} InSyncHandlesRun(s: Client, log: seq<Envelope>, upto: nat, frames: seq<string>, codec: Codec)
    requires Lawful(codec) && ValidLog(log) && InSync(s, log) && s.contiguousSequence <= upto <= |log|
    requires frames == FrameTexts(log[s.contiguousSequence..upto], codec)
    ensures InSync(HandleAll(s, frames, codec), log)
    ensures HandleAll(s, frames, codec).contiguousSequence == upto
    decreases upto - s.contiguousSequence
  {
    hide Handle, FrameOf;
    var k := s.contiguousSequence;
    if k < upto {
      var frame := SseFrame(Some(log[k].eventId), codec.encode(log[k]));
      assert FrameOf(frames[0]) == Some(frame) by {
        assert OneLine(codec.encode(log[k]));
        ParsePrintedFrame(log[k].eventId, log[k].eventType, codec.encode(log[k]));
      }
      InSyncHandlesNext(s, log, codec);
      var s' := Handle(s, frame, codec);
      assert frames[1..] == FrameTexts(log[k + 1..upto], codec) by {
        assert log[k..upto][1..] == log[k + 1..upto];
      }
      InSyncHandlesRun(s', log, upto, frames[1..], codec);
    }
  }

  /** A cut stream yields the frames of some first events, all of them if it was not cut. */
  lemma CutStream(events: seq<Envelope>, received: string, codec: Codec) returns (n: nat)
    requires Lawful(codec) && Printable(events) && received <= PrintAll(events, codec)
    ensures n <= |events| && Drain(received).frames == FrameTexts(events[..n], codec)
    ensures received == PrintAll(events, codec) ==> n == |events|
  {
    var response := PrintAll(events, codec);
    CutPrintedStream(events, codec);
    assert response == received + response[|received|..];
    DrainAppend(received, response[|received|..]);
    n := |Drain(received).frames|;
    assert Drain(received).frames == FrameTexts(events, codec)[..n];
    assert FrameTexts(events, codec)[..n] == FrameTexts(events[..n], codec);
  }

  /** However the arriving text is chunked and flushed, the frames are those of the received part. */
  lemma ArrivedFrames(events: seq<Envelope>, chunks: seq<string>, received: string, flushed: string, codec: Codec)
    requires Lawful(codec) && Printable(events)
    requires Carries(chunks, PrintAll(events, codec), received, flushed)
    ensures Drain(NormalizeEach(chunks)).frames == Drain(received).frames
  {
    PrintedStreamIsCrFree(events, codec);
    assert forall c :: c in received ==> c in PrintAll(events, codec);
    ChunkwiseNormalizationExact(chunks);
    DrainIgnoresLineFreeTail(received, flushed);
  }

  /** What one connection brings: the frames of the next few events the client does not have. */
  lemma ArrivedEvents(s: Client, c: Connection, codec: Codec) returns (upto: nat)
    requires Lawful(codec) && ValidLog(c.log) && InSync(s, c.log)
    requires Carries(c.chunks, ResponseText(c.log, s.lastEventId, codec), c.received, c.flushed)
    ensures s.contiguousSequence <= upto <= |c.log|
    ensures Drain(NormalizeEach(c.chunks)).frames == FrameTexts(c.log[s.contiguousSequence..upto], codec)
    ensures c.received == ResponseText(c.log, s.lastEventId, codec) ==> upto == |c.log|
  {
    hide Drain, NormalizeEach, FrameTexts, PrintAll, ListAfter;
    var k := s.contiguousSequence;
    ResumePoint(s, c.log);
    var events := c.log[k..];
    assert Printable(events);
    ArrivedFrames(events, c.chunks, c.received, c.flushed, codec);
    var n := CutStream(events, c.received, codec);
    upto := k + n;
    assert events[..n] == c.log[k..upto];
  }

  /** Whatever part of the resumed stream arrives, the client stays in step with the log. */
  lemma InSyncAfterConnection(s: Client, c: Connection, codec: Codec)
    requires Lawful(codec) && ValidLog(c.log) && InSync(s, c.log)
    requires Carries(c.chunks, ResponseText(c.log, s.lastEventId, codec), c.received, c.flushed)
    ensures InSync(AfterText(s, NormalizeEach(c.chunks), codec), c.log)
    ensures s.contiguousSequence <= AfterText(s, NormalizeEach(c.chunks), codec).contiguousSequence
    ensures c.received == ResponseText(c.log, s.lastEventId, codec) ==>
      AfterText(s, NormalizeEach(c.chunks), codec).contiguousSequence == |c.log|
  {
    var upto := ArrivedEvents(s, c, codec);
    InSyncHandlesRun(s, c.log, upto, Drain(NormalizeEach(c.chunks)).frames, codec);
  }

  /** The client's cursor is known to the server, and replay starts right after what was delivered. */
  lemma ResumePoint(s: Client, log: seq<Envelope>)
    requires ValidLog(log) && InSync(s, log)
    ensures CursorSequence(log, s.lastEventId) == Some(s.contiguousSequence)
    ensures ListAfter(log, s.contiguousSequence) == log[s.contiguousSequence..]
  {
    var k := s.contiguousSequence;
    if k > 0 {
      FindEventAt(log, k - 1);
    }
    assert ListAfter(log, k) == log[k - 0..] by {
      ListAfterIsSuffix(log, 0, k);
    }
  }

  lemma InSyncWithLongerLog(s: Client, log: seq<Envelope>, log': seq<Envelope>)
    requires InSync(s, log) && log <= log'
    ensures InSync(s, log')
  {
    assert log'[..s.contiguousSequence] == log[..s.contiguousSequence];
  }

  lemma NewClientInSync(log: seq<Envelope>)
    ensures InSync(NewClient, log)
  {
  }

  /** Before each connection of a run the client is in step with the log that connection serves. */
  lemma {:induction false} InSyncBeforeLast(run: seq<Connection>, codec: Codec)
    requires Lawful(codec) && run != [] && ServedRun(run, codec)
    requires forall c :: c in run ==> ValidLog(c.log)
    ensures InSync(AfterConnections(NewClient, ChunksOf(run[..|run| - 1]), codec), run[|run| - 1].log)
    decreases |run|
  {
    hide InSync, AfterText, Carries, ResponseText, Lawful, ValidLog;
    var n := |run| - 1;
    var earlier := run[..n];
    if n > 0 {
      assert earlier[n - 1] == run[n - 1];
      InSyncBeforeLast(earlier, codec);
      LastConnection(earlier, codec);
      InSyncWithLongerLog(AfterConnections(NewClient, ChunksOf(earlier), codec), run[n - 1].log, run[n].log);
    } else {
      assert ChunksOf(earlier) == [];
      NewClientInSync(run[n].log);
    }
  }

  /** The last connection of a run, given that the client was in step before it. */
  lemma LastConnection(run: seq<Connection>, codec: Codec)
    requires Lawful(codec) && run != [] && ServedRun(run, codec)
    requires ValidLog(run[|run| - 1].log)
    requires InSync(AfterConnections(NewClient, ChunksOf(run[..|run| - 1]), codec), run[|run| - 1].log)
    ensures InSync(AfterConnections(NewClient, ChunksOf(run), codec), run[|run| - 1].log)
    ensures var n := |run| - 1;
      var before := AfterConnections(NewClient, ChunksOf(run[..n]), codec);
      var after := AfterConnections(NewClient, ChunksOf(run), codec);
      && before.contiguousSequence <= after.contiguousSequence
      && (run[n].received == ResponseText(run[n].log, before.lastEventId, codec) ==>
            after.contiguousSequence == |run[n].log|)
  {
    hide InSync, AfterText, Carries, ResponseText, Lawful, ValidLog;
    var n := |run| - 1;
    assert ChunksOf(run)[..n] == ChunksOf(run[..n]);
    InSyncAfterConnection(AfterConnections(NewClient, ChunksOf(run[..n]), codec), run[n], codec);
  }

  /**
   Exactly-once, in-order delivery over any run of connections and disconnects at any character:
   the events handed to `onEvent` are the first `contiguousSequence` events of the log, with no gap
   and no duplicate, and no connection ever takes any of them back.
   */
  lemma ExactlyOnceInOrder(run: seq<Connection>, codec: Codec)
    requires Lawful(codec) && run != [] && ServedRun(run, codec)
    requires forall c :: c in run ==> ValidLog(c.log)
    ensures var before := AfterConnections(NewClient, ChunksOf(run[..|run| - 1]), codec);
      var after := AfterConnections(NewClient, ChunksOf(run), codec);
      var log := run[|run| - 1].log;
      && 0 <= before.contiguousSequence <= after.contiguousSequence <= |log|
      && before.delivered == log[..before.contiguousSequence]
      && after.delivered == log[..after.contiguousSequence]
  {
    hide AfterConnections, Carries, ResponseText, Lawful, ValidLog, ServedRun;
    InSyncBeforeLast(run, codec);
    LastConnection(run, codec);
  }

  /** Once a connection survives to the end of its response, the client has been given the whole log. */
  lemma {:induction false} CompleteConnectionCatchesUp(run: seq<Connection>, codec: Codec)
    requires Lawful(codec) && run != [] && ServedRun(run, codec)
    requires forall c :: c in run ==> ValidLog(c.log)
    requires var n := |run| - 1;
      run[n].received ==
      ResponseText(run[n].log, AfterConnections(NewClient, ChunksOf(run[..n]), codec).lastEventId, codec)
    ensures AfterConnections(NewClient, ChunksOf(run), codec).delivered == run[|run| - 1].log
  {
    hide AfterConnections, Carries, ResponseText, Lawful, ValidLog, ServedRun;
    InSyncBeforeLast(run, codec);
    LastConnection(run, codec);
    var log := run[|run| - 1].log;
    assert log[..|log|] == log;
  }
}
