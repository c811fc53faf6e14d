/** What a subscription makes of any frames at all, whichever server sent them and whatever they repeat. */
module EventDelivery {
  import opened Options
  import opened EventFrames
  import opened EventStream

  // ---------- Frames ----------

  /** The frames that parse, in order. */
  function Parsed(texts: seq<string>): seq<SseFrame>
    decreases |texts|
  {
    if texts == [] then []
    else (match FrameOf(texts[0]) case None => [] case Some(frame) => [frame]) + Parsed(texts[1..])
  }

  /** All the frames of a number of connections. */
  function Arrived(connections: seq<seq<string>>): seq<SseFrame>
    decreases |connections|
  {
    if connections == [] then []
    else
      var n := |connections| - 1;
      Arrived(connections[..n]) + Parsed(Drain(NormalizeEach(connections[n])).frames)
  }

  function Fold(s: Client, frames: seq<SseFrame>, codec: Codec): Client
    decreases |frames|
  {
    if frames == [] then s
    else
      var n := |frames| - 1;
      Handle(Fold(s, frames[..n], codec), frames[n], codec)
  }

  lemma {:induction false} FoldAppend(s: Client, a: seq<SseFrame>, b: seq<SseFrame>, codec: Codec)
    ensures Fold(s, a + b, codec) == Fold(Fold(s, a, codec), b, codec)
    decreases |b|
  {
    if b == [] {
      assert a + b == a;
    } else {
      var n := |b| - 1;
      assert (a + b)[..|a| + n] == a + b[..n];
      FoldAppend(s, a, b[..n], codec);
    }
  }

  lemma {:induction false} HandlingFolds(s: Client, texts: seq<string>, codec: Codec)
    ensures HandleAll(s, texts, codec) == Fold(s, Parsed(texts), codec)
    decreases |texts|
  {
    hide Handle, FrameOf;
    if texts != [] {
      var first := match FrameOf(texts[0]) case None => [] case Some(frame) => [frame];
      var s' := match FrameOf(texts[0]) case None => s case Some(frame) => Handle(s, frame, codec);
      assert Fold(s, first, codec) == s' by {
        if first != [] {
          assert first[..0] == [];
        }
      }
      FoldAppend(s, first, Parsed(texts[1..]), codec);
      HandlingFolds(s', texts[1..], codec);
    }
  }

  lemma {:induction false} ConnectionsFold(s: Client, connections: seq<seq<string>>, codec: Codec)
    ensures AfterConnections(s, connections, codec) == Fold(s, Arrived(connections), codec)
    decreases |connections|
  {
    hide HandleAll, Drain, NormalizeEach, Parsed, Handle;
    if connections != [] {
      var n := |connections| - 1;
      var texts := Drain(NormalizeEach(connections[n])).frames;
      ConnectionsFold(s, connections[..n], codec);
      HandlingFolds(AfterConnections(s, connections[..n], codec), texts, codec);
      FoldAppend(s, Arrived(connections[..n]), Parsed(texts), codec);
    }
  }

  // ---------- What is delivered ----------

  /** Frame i carries an event with this id. */
  ghost predicate Names(frames: seq<SseFrame>, codec: Codec, i: nat, id: string)
    requires i < |frames|
  {
    codec.decode(frames[i].data).Some? && codec.decode(frames[i].data).value.eventId == id
  }

  /** Frame i is the first to carry its event, and the event has an id. */
  ghost predicate IsNew(frames: seq<SseFrame>, codec: Codec, i: nat)
    requires i < |frames|
  {
    && codec.decode(frames[i].data).Some?
    && (var id := codec.decode(frames[i].data).value.eventId;
        id != "" && forall j: nat :: j < i ==> !Names(frames, codec, j, id))
  }

  function EventAt(frames: seq<SseFrame>, codec: Codec, i: nat): Envelope
    requires i < |frames|
  {
    codec.decode(frames[i].data).GetOr(Envelope("", "", 0, ""))
  }

  ghost predicate NamedBefore(frames: seq<SseFrame>, n: nat, codec: Codec, id: string)
    requires n <= |frames|
  {
    exists i: nat :: i < n && Names(frames, codec, i, id)
  }

  ghost predicate NumbersOf(received: set<int>, frames: seq<SseFrame>, codec: Codec, at: seq<nat>)
    requires forall k :: 0 <= k < |at| ==> at[k] < |frames|
  {
    forall number :: number in received <==>
      exists k :: 0 <= k < |at| && EventAt(frames, codec, at[k]).sequence == number
  }

  /**
   What a client holds after the first n frames: the events of the new ones, in order, which stand at
   the given positions; the ids of all of them; the new ones' numbers; the end of the unbroken run of
   numbers from 1; and as its cursor the last new frame's id or, without one, its event's.
   */
  ghost predicate Given(s: Client, frames: seq<SseFrame>, n: nat, codec: Codec, at: seq<nat>)
    requires n <= |frames|
  {
    && (forall k :: 0 <= k < |at| ==> at[k] < n && IsNew(frames, codec, at[k]))
    && (forall k, m :: 0 <= k < m < |at| ==> at[k] < at[m])
    && (forall i: nat :: i < n && IsNew(frames, codec, i) ==> i in at)
    && |s.delivered| == |at|
    && (forall k :: 0 <= k < |at| ==> s.delivered[k] == EventAt(frames, codec, at[k]))
    && (forall id :: id in s.seenEventIds <==> id != "" && NamedBefore(frames, n, codec, id))
    && NumbersOf(s.receivedSequences, frames, codec, at)
    && IsRunEnd(s.receivedSequences, 0, s.contiguousSequence)
    && s.lastEventId == (if at == [] then None
                         else
                           var last := at[|at| - 1];
                           Some(frames[last].id.GetOr(EventAt(frames, codec, last).eventId)))
  }

  lemma NamesFront(frames: seq<SseFrame>, codec: Codec, n: nat)
    requires n <= |frames|
    ensures forall i: nat, id :: i < n ==> (Names(frames[..n], codec, i, id) <==> Names(frames, codec, i, id))
    ensures forall i: nat :: i < n ==> (IsNew(frames[..n], codec, i) <==> IsNew(frames, codec, i))
    ensures forall i: nat :: i < n ==> EventAt(frames[..n], codec, i) == EventAt(frames, codec, i)
  {
    var front := frames[..n];
    assert forall i: nat :: i < n ==> front[i] == frames[i];
    assert forall i: nat, id :: i < n ==> (Names(front, codec, i, id) <==> Names(frames, codec, i, id));
    forall i: nat | i < n ensures IsNew(front, codec, i) <==> IsNew(frames, codec, i) {
      if codec.decode(frames[i].data).Some? {
        var id := codec.decode(frames[i].data).value.eventId;
        assert forall j: nat :: j < i ==> (Names(front, codec, j, id) <==> Names(frames, codec, j, id));
      }
    }
  }

  lemma NamedFront(frames: seq<SseFrame>, codec: Codec, n: nat)
    requires n <= |frames|
    ensures forall id :: NamedBefore(frames[..n], n, codec, id) <==> NamedBefore(frames, n, codec, id)
  {
    NamesFront(frames, codec, n);
  }

  lemma FrontExactly(s: Client, frames: seq<SseFrame>, n: nat, codec: Codec, at: seq<nat>)
    requires n <= |frames|
    ensures Given(s, frames[..n], n, codec, at) <==> Given(s, frames, n, codec, at)
  {
    hide IsNew, Names, EventAt, IsRunEnd, NamedBefore;
    NamesFront(frames, codec, n);
    NamedFront(frames, codec, n);
  }

  lemma {:induction false} FoldGives(frames: seq<SseFrame>, codec: Codec) returns (at: seq<nat>)
    ensures Given(Fold(NewClient, frames, codec), frames, |frames|, codec, at)
    decreases |frames|
  {
    hide Handle, Given;
    if frames == [] {
      at := [];
      assert Given(NewClient, frames, 0, codec, at) by { NothingGiven(codec); }
    } else {
      var n := |frames| - 1;
      at := FoldGives(frames[..n], codec);
      var s := Fold(NewClient, frames[..n], codec);
      FrontExactly(s, frames, n, codec, at);
      if IsNew(frames, codec, n) {
        NewFrame(s, frames, n, codec, at);
        at := at + [n];
      } else {
        StaleFrame(s, frames, n, codec, at);
      }
    }
  }

  lemma NothingGiven(codec: Codec)
    ensures Given(NewClient, [], 0, codec, [])
  {
  }

  lemma NamedOnceMore(frames: seq<SseFrame>, n: nat, codec: Codec, id: string)
    requires n < |frames|
    ensures NamedBefore(frames, n + 1, codec, id) <==> NamedBefore(frames, n, codec, id) || Names(frames, codec, n, id)
  {
    hide Names;
  }

  lemma StaleFrame(s: Client, frames: seq<SseFrame>, n: nat, codec: Codec, at: seq<nat>)
    requires n < |frames| && Given(s, frames, n, codec, at) && !IsNew(frames, codec, n)
    ensures Given(Handle(s, frames[n], codec), frames, n + 1, codec, at)
  {
    StaleIsIgnored(s, frames, n, codec, at);
    hide IsNew, Names, EventAt, IsRunEnd, NamedBefore, Handle, NumbersOf;
  }

  lemma StaleIsIgnored(s: Client, frames: seq<SseFrame>, n: nat, codec: Codec, at: seq<nat>)
    requires n < |frames| && Given(s, frames, n, codec, at) && !IsNew(frames, codec, n)
    ensures Handle(s, frames[n], codec) == s
    ensures forall id :: id != "" ==> (NamedBefore(frames, n + 1, codec, id) <==> NamedBefore(frames, n, codec, id))
  {
    hide EventAt, IsRunEnd;
    forall id | id != "" ensures NamedBefore(frames, n + 1, codec, id) <==> NamedBefore(frames, n, codec, id) {
      NamedOnceMore(frames, n, codec, id);
    }
  }

  lemma NewFrame(s: Client, frames: seq<SseFrame>, n: nat, codec: Codec, at: seq<nat>)
    requires n < |frames| && Given(s, frames, n, codec, at) && IsNew(frames, codec, n)
    ensures Given(Handle(s, frames[n], codec), frames, n + 1, codec, at + [n])
  {
    NewIsTaken(s, frames, n, codec, at);
    OneMoreNumber(s.receivedSequences, frames, codec, at, n);
    LongerRun(s.receivedSequences, Handle(s, frames[n], codec).receivedSequences, s.contiguousSequence,
              Handle(s, frames[n], codec).contiguousSequence);
    hide IsNew, Names, NamedBefore, Handle, EventAt, NumbersOf, IsRunEnd;
  }

  lemma LongerRun(received: set<int>, more: set<int>, middle: int, end: int)
    requires IsRunEnd(received, 0, middle) && received <= more && IsRunEnd(more, middle, end)
    ensures IsRunEnd(more, 0, end)
  {
  }

  lemma OneMoreNumber(received: set<int>, frames: seq<SseFrame>, codec: Codec, at: seq<nat>, n: nat)
    requires n < |frames| && forall k :: 0 <= k < |at| ==> at[k] < |frames|
    requires NumbersOf(received, frames, codec, at)
    ensures NumbersOf(received + {EventAt(frames, codec, n).sequence}, frames, codec, at + [n])
  {
    hide EventAt;
    var after := at + [n];
    assert forall k :: 0 <= k < |at| ==> after[k] == at[k];
    assert after[|at|] == n;
    forall number ensures number in received + {EventAt(frames, codec, n).sequence} <==>
      exists k :: 0 <= k < |after| && EventAt(frames, codec, after[k]).sequence == number
    {
      if number in received {
        var k :| 0 <= k < |at| && EventAt(frames, codec, at[k]).sequence == number;
        assert EventAt(frames, codec, after[k]).sequence == number;
      }
    }
  }

  lemma NewIsTaken(s: Client, frames: seq<SseFrame>, n: nat, codec: Codec, at: seq<nat>)
    requires n < |frames| && Given(s, frames, n, codec, at) && IsNew(frames, codec, n)
    ensures var s', event := Handle(s, frames[n], codec), EventAt(frames, codec, n);
      && s'.delivered == s.delivered + [event] && s'.lastEventId == Some(frames[n].id.GetOr(event.eventId))
      && s'.receivedSequences == s.receivedSequences + {event.sequence}
      && IsRunEnd(s'.receivedSequences, s.contiguousSequence, s'.contiguousSequence)
      && (forall id :: id in s'.seenEventIds <==> id != "" && NamedBefore(frames, n + 1, codec, id))
  {
    var s' := Handle(s, frames[n], codec);
    forall id ensures id in s'.seenEventIds <==> id != "" && NamedBefore(frames, n + 1, codec, id) {
      NamedOnceMore(frames, n, codec, id);
    }
  }

  /**
   Whatever arrives over whatever connections, from any server, in any chunks: the subscription hands
   over the event of each frame that is the first to carry it, in the order of the frames, once each,
   and of no other; its cursor, its numbers and its contiguous number are those of the events handed over.
   */
  lemma EachEventIsDeliveredOnce(connections: seq<seq<string>>, codec: Codec) returns (at: seq<nat>)
    ensures var frames := Arrived(connections);
      Given(AfterConnections(NewClient, connections, codec), frames, |frames|, codec, at)
  {
    ConnectionsFold(NewClient, connections, codec);
    at := FoldGives(Arrived(connections), codec);
  }
}
