/**
 The wire format of the conversation event stream: the server-side printer and the
 browser-side frame parser, as text functions.

 The format is that of the WHATWG HTML Standard, section 9.2.5 (parsing an event stream)
 and section 9.2.6 (interpreting an event stream), restricted to what the two sides use.
 */
module EventFrames {
  import opened Options

  const CR: char := '\r'
  const LF: char := '\n'

  /** What the parser hands on: the `id` field, if any, and the joined `data` fields. */
  datatype SseFrame = SseFrame(id: Option<string>, data: string)

  /** Parser state while the lines of one frame are read. */
  datatype FrameFields = FrameFields(id: Option<string>, data: seq<string>)

  ghost predicate LineFree(text: string) {
    LF !in text
  }

  ghost predicate CrFree(text: string) {
    CR !in text
  }

  // ---------- Searching ----------

  ghost predicate BlankLineAt(text: string, i: int) {
    0 <= i && i + 1 < |text| && text[i] == LF && text[i + 1] == LF
  }

  /** Index of the first occurrence of a character, or -1. */
  function IndexOfChar(text: string, c: char): (r: int)
    ensures -1 <= r < |text|
    ensures r >= 0 ==> text[r] == c && c !in text[..r]
    ensures r == -1 ==> c !in text
  {
    if text == "" then -1
    else if text[0] == c then 0
    else
      var k := IndexOfChar(text[1..], c);
      assert k >= 0 ==> text[..k + 1] == [text[0]] + text[1..][..k];
      if k == -1 then -1 else k + 1
  }

  /** Index of the first blank line ("\n\n"), or -1. */
  function Boundary(text: string): (r: int)
    ensures -1 <= r
    ensures r >= 0 ==> BlankLineAt(text, r)
    ensures forall k :: BlankLineAt(text, k) ==> 0 <= r <= k
  {
    if |text| < 2 then -1
    else if text[0] == LF && text[1] == LF then 0
    else
      var k := Boundary(text[1..]);
      assert forall j :: BlankLineAt(text, j) ==> j > 0 && BlankLineAt(text[1..], j - 1);
      if k == -1 then -1 else k + 1
  }

  /** Appending text without line feeds creates no blank line. */
  lemma LineFreeTailAddsNoBlankLine(a: string, b: string)
    requires LineFree(b)
    ensures forall k :: BlankLineAt(a + b, k) ==> BlankLineAt(a, k)
  {
    forall k | BlankLineAt(a + b, k) ensures BlankLineAt(a, k) {
      assert (a + b)[k + 1] != LF || k + 1 < |a|;
    }
  }

  /** A first blank line stays first when text is appended; text without line feeds brings none. */
  lemma BoundaryOfPrefix(a: string, b: string)
    ensures Boundary(a) >= 0 ==> Boundary(a + b) == Boundary(a)
    ensures Boundary(a) == -1 && LineFree(b) ==> Boundary(a + b) == -1
  {
    if Boundary(a) >= 0 {
      assert BlankLineAt(a + b, Boundary(a));
      assert BlankLineAt(a, Boundary(a + b));
    } else if LineFree(b) {
      LineFreeTailAddsNoBlankLine(a, b);
    }
  }

  // ---------- Cutting the buffer into frames ----------

  datatype Drained = Drained(frames: seq<string>, rest: string)

  /** All complete frames at the front of the buffer, and what is left in the buffer. */
  function Drain(text: string): Drained
    decreases |text|
  {
    var b := Boundary(text);
    if b == -1 then Drained([], text)
    else
      var tail := Drain(text[b + 2..]);
      Drained([text[..b]] + tail.frames, tail.rest)
  }

  lemma DrainOne(text: string, frame: string, more: string)
    requires text == frame + [LF, LF] + more && Boundary(text) == |frame|
    ensures Drain(text) == Drained([frame] + Drain(more).frames, Drain(more).rest)
  {
    assert text[..|frame|] == frame;
    assert text[|frame| + 2..] == more;
  }

  /**
   Incremental draining: handing over the text in two pieces yields the frames of the whole text,
   in the same order, and leaves the same remainder.
   */
  lemma {:induction false} DrainAppend(a: string, b: string)
    ensures Drain(a + b).frames == Drain(a).frames + Drain(Drain(a).rest + b).frames
    ensures Drain(a + b).rest == Drain(Drain(a).rest + b).rest
    decreases |a|
  {
    var k := Boundary(a);
    if k != -1 {
      BoundaryOfPrefix(a, b);
      var first, more := a[..k], a[k + 2..];
      assert a == first + [LF, LF] + more;
      assert a + b == first + [LF, LF] + (more + b);
      DrainOne(a, first, more);
      DrainOne(a + b, first, more + b);
      DrainAppend(more, b);
    }
  }

  lemma {:induction false} RestHasNoBoundary(text: string)
    ensures Boundary(Drain(text).rest) == -1
    decreases |text|
  {
    if Boundary(text) != -1 {
      RestHasNoBoundary(text[Boundary(text) + 2..]);
    }
  }

  /** Appended text without a line feed (a decoder's final replacement character, say) completes no frame. */
  lemma DrainIgnoresLineFreeTail(text: string, tail: string)
    requires LineFree(tail)
    ensures Drain(text + tail).frames == Drain(text).frames
  {
    DrainAppend(text, tail);
    RestHasNoBoundary(text);
    BoundaryOfPrefix(Drain(text).rest, tail);
  }

  // ---------- Line endings ----------

  /** `replace(/\r\n/g, "\n")`, applied to one decoded chunk. */
  function NormalizeChunk(chunk: string): (r: string)
    ensures CrFree(chunk) ==> r == chunk
  {
    if |chunk| == 0 then ""
    else if |chunk| >= 2 && chunk[0] == CR && chunk[1] == LF then [LF] + NormalizeChunk(chunk[2..])
    else [chunk[0]] + NormalizeChunk(chunk[1..])
  }

  function Concat(chunks: seq<string>): string {
    if chunks == [] then "" else chunks[0] + Concat(chunks[1..])
  }

  function NormalizeEach(chunks: seq<string>): (r: string) {
    if chunks == [] then "" else NormalizeChunk(chunks[0]) + NormalizeEach(chunks[1..])
  }

  /** A carriage return ends one piece and its line feed starts the next. */
  ghost predicate SplitsLineEnding(before: string, after: string) {
    |before| > 0 && |after| > 0 && before[|before| - 1] == CR && after[0] == LF
  }

  lemma NormalizePairFirst(rest: string)
    ensures NormalizeChunk([CR, LF] + rest) == [LF] + NormalizeChunk(rest)
  {
    assert ([CR, LF] + rest)[2..] == rest;
  }

  lemma NormalizeOtherFirst(c: char, rest: string)
    requires !SplitsLineEnding([c], rest)
    ensures NormalizeChunk([c] + rest) == [c] + NormalizeChunk(rest)
  {
    assert ([c] + rest)[1..] == rest;
  }

  /** Line endings of two pieces are rewritten independently unless the cut splits one of them. */
  lemma {:induction false} NormalizeAppend(a: string, b: string)
    requires !SplitsLineEnding(a, b)
    ensures NormalizeChunk(a + b) == NormalizeChunk(a) + NormalizeChunk(b)
    decreases |a|
  {
    hide NormalizeChunk;
    if a == "" {
      assert a + b == b;
      NormalizeNothing();
    } else {
      var pair := |a| >= 2 && a[0] == CR && a[1] == LF;
      var rest := if pair then a[2..] else a[1..];
      NormalizeAppend(rest, b);
      if pair {
        assert a == [CR, LF] + rest && a + b == [CR, LF] + (rest + b);
        NormalizePairFirst(rest);
        NormalizePairFirst(rest + b);
      } else {
        assert a == [a[0]] + rest && a + b == [a[0]] + (rest + b);
        NormalizeOtherFirst(a[0], rest);
        NormalizeOtherFirst(a[0], rest + b);
      }
    }
  }

  lemma NormalizeNothing()
    ensures NormalizeChunk("") == ""
  {
  }

  /** A cut inside CRLF leaves one character too many. */
  lemma NormalizeAcrossCut(a: string, b: string)
    requires SplitsLineEnding(a, b)
    ensures |NormalizeChunk(a + b)| + 1 == |NormalizeChunk(a)| + |NormalizeChunk(b)|
  {
    hide NormalizeChunk;
    var front, back := a[..|a| - 1], b[1..];
    assert a == front + [CR] && b == [LF] + back && a + b == front + ([CR, LF] + back);
    NormalizeAppend(front, [CR]);
    NormalizeAppend(front, [CR, LF] + back);
    NormalizePairFirst(back);
    NormalizeOne([CR]);
    NormalizeOtherFirst(LF, back);
  }

  lemma NormalizeOne(chunk: string)
    requires |chunk| == 1
    ensures NormalizeChunk(chunk) == chunk
  {
    assert chunk[1..] == "";
  }

  /** Some chunk boundary falls between a carriage return and its line feed. */
  ghost predicate CutsALineEnding(chunks: seq<string>) {
    chunks != [] && (SplitsLineEnding(chunks[0], Concat(chunks[1..])) || CutsALineEnding(chunks[1..]))
  }

  lemma {:induction false} NormalizeEachLength(chunks: seq<string>)
    ensures |NormalizeEach(chunks)| >= |NormalizeChunk(Concat(chunks))|
    ensures |NormalizeEach(chunks)| == |NormalizeChunk(Concat(chunks))| ==> !CutsALineEnding(chunks)
    ensures !CutsALineEnding(chunks) ==> NormalizeEach(chunks) == NormalizeChunk(Concat(chunks))
  {
    if chunks != [] {
      if SplitsLineEnding(chunks[0], Concat(chunks[1..])) {
        NormalizeAcrossCut(chunks[0], Concat(chunks[1..]));
      } else {
        NormalizeAppend(chunks[0], Concat(chunks[1..]));
      }
      NormalizeEachLength(chunks[1..]);
    }
  }

  /**
   Rewriting line endings chunk by chunk equals rewriting the whole text exactly when no chunk
   boundary falls inside a CRLF pair. Text without carriage returns is therefore always safe.
   */
  lemma ChunkwiseNormalizationExact(chunks: seq<string>)
    ensures NormalizeEach(chunks) == NormalizeChunk(Concat(chunks)) <==> !CutsALineEnding(chunks)
    ensures CrFree(Concat(chunks)) ==> !CutsALineEnding(chunks)
  {
    NormalizeEachLength(chunks);
    if CrFree(Concat(chunks)) {
      CrFreeNeverCut(chunks);
    }
  }

  lemma {:induction false} CrFreeNeverCut(chunks: seq<string>)
    requires CrFree(Concat(chunks))
    ensures !CutsALineEnding(chunks)
  {
    if chunks != [] {
      var whole := Concat(chunks);
      forall c | c in chunks[0] ensures c != CR {
        assert c in whole;
      }
      forall c | c in Concat(chunks[1..]) ensures c != CR {
        assert c in whole;
      }
      CrFreeNeverCut(chunks[1..]);
    }
  }

  /** The failing family is real: a blank line delivered as "...CR LF CR" and "LF" is never seen as one. */
  lemma {:induction false} CutLineEndingLosesABlankLine(body: string)
    requires CrFree(body) && LineFree(body)
    ensures Drain(NormalizeChunk(body + [CR, LF, CR, LF])).frames == [body]
    ensures Drain(NormalizeEach([body + [CR, LF, CR], [LF]])).frames == []
  {
    hide Drain, Boundary;
    NormalizeOne([CR]);
    NormalizeOne([LF]);
    assert NormalizeChunk(body + [CR, LF, CR, LF]) == body + [LF, LF] by {
      assert [CR, LF][2..] == [] && [CR, LF, CR, LF][2..] == [CR, LF];
      NormalizeAppend(body, [CR, LF, CR, LF]);
    }
    assert NormalizeChunk(body + [CR, LF, CR]) == body + [LF, CR] by {
      assert [CR, LF, CR][2..] == [CR];
      NormalizeAppend(body, [CR, LF, CR]);
    }
    NormalizePair(body + [CR, LF, CR], [LF]);
    LoneBlankLine(body);
  }

  lemma NormalizePair(first: string, second: string)
    ensures NormalizeEach([first, second]) == NormalizeChunk(first) + NormalizeChunk(second)
  {
    assert [first, second][1..] == [second] && [second][1..] == [];
    assert NormalizeEach([second]) == NormalizeChunk(second) + "";
  }

  lemma LoneBlankLine(body: string)
    requires LineFree(body)
    ensures Drain(body + [LF, LF]).frames == [body]
    ensures Drain(body + [LF, CR] + [LF]).frames == []
  {
    BoundaryOfPrefix("", body);
    assert "" + body == body;
    BoundaryAfterText(body, "");
    assert body + [LF, LF] + "" == body + [LF, LF];
    DrainOne(body + [LF, LF], body, "");
    NoBoundaryAcrossLine(body, [CR, LF]);
    assert body + [LF] + [CR, LF] == body + [LF, CR] + [LF];
  }

  // ---------- Parsing one frame ----------

  function SplitLines(text: string): (lines: seq<string>)
    ensures |lines| > 0
    ensures LF !in text ==> lines == [text]
  {
    if text == "" then [""]
    else
      assert text == [text[0]] + text[1..];
      var rest := SplitLines(text[1..]);
      if text[0] == LF then [""] + rest
      else [[text[0]] + rest[0]] + rest[1..]
  }

  function JoinLines(lines: seq<string>): string {
    if lines == [] then ""
    else if |lines| == 1 then lines[0]
    else lines[0] + [LF] + JoinLines(lines[1..])
  }

  lemma {:induction false} SplitAtLineFeed(line: string, rest: string)
    requires LineFree(line)
    ensures SplitLines(line + [LF] + rest) == [line] + SplitLines(rest)
  {
    var text := line + [LF] + rest;
    if line == "" {
      assert text[1..] == rest;
    } else {
      assert text[1..] == line[1..] + [LF] + rest;
      SplitAtLineFeed(line[1..], rest);
      assert [line[0]] + line[1..] == line;
    }
  }

  /** One line of a frame: comments and blank lines are skipped, the last `id` wins, `data` accumulates. */
  function ReadLine(fields: FrameFields, line: string): FrameFields {
    if line == "" || line[0] == ':' then fields
    else
      var separator := IndexOfChar(line, ':');
      var field := if separator == -1 then line else line[..separator];
      var raw := if separator == -1 then "" else line[separator + 1..];
      var value := if raw != "" && raw[0] == ' ' then raw[1..] else raw;
      if field == "id" then fields.(id := Some(value))
      else if field == "data" then fields.(data := fields.data + [value])
      else fields
  }

  function ReadLines(fields: FrameFields, lines: seq<string>): FrameFields
    decreases |lines|
  {
    if lines == [] then fields
    else ReadLine(ReadLines(fields, lines[..|lines| - 1]), lines[|lines| - 1])
  }

  /** The frame a text denotes; a frame without a `data` field denotes nothing. */
  function FrameOf(text: string): Option<SseFrame> {
    var fields := ReadLines(FrameFields(None, []), SplitLines(text));
    if |fields.data| > 0 then Some(SseFrame(fields.id, JoinLines(fields.data))) else None
  }

  method ParseFrame(frame: string) returns (r: Option<SseFrame>)
    ensures r == FrameOf(frame)
  {
    var id: Option<string> := None;
    var data: seq<string> := [];
    var lines := SplitLines(frame);
    for i := 0 to |lines|
      invariant FrameFields(id, data) == ReadLines(FrameFields(None, []), lines[..i])
    {
      var line := lines[i];
      assert lines[..i + 1][..i] == lines[..i];
      if line == "" || line[0] == ':' {
        continue;
      }
      var separator := IndexOfChar(line, ':');
      var field := if separator == -1 then line else line[..separator];
      var value := if separator == -1 then "" else line[separator + 1..];
      if value != "" && value[0] == ' ' {
        value := value[1..];
      }
      if field == "id" {
        id := Some(value);
      }
      if field == "data" {
        data := data + [value];
      }
    }
    assert lines[..|lines|] == lines;
    r := if |data| > 0 then Some(SseFrame(id, JoinLines(data))) else None;
  }

  // ---------- Printing one event ----------

  /** The text the server yields for one event, without the blank line that ends it. */
  function FrameText(eventId: string, eventType: string, data: string): string {
    "id: " + eventId + [LF] + "event: " + eventType + [LF] + "data: " + data
  }

  function SseEvent(eventId: string, eventType: string, data: string): string {
    FrameText(eventId, eventType, data) + [LF, LF]
  }

  lemma {:induction false} FirstColon(name: string, rest: string)
    requires ':' !in name
    ensures IndexOfChar(name + ":" + rest, ':') == |name|
  {
    if name != "" {
      assert (name + ":" + rest)[1..] == name[1..] + ":" + rest;
      FirstColon(name[1..], rest);
    }
  }

  lemma NamedField(fields: FrameFields, name: string, value: string)
    requires name != "" && ':' !in name
    ensures ReadLine(fields, name + ": " + value) ==
            (if name == "id" then fields.(id := Some(value))
             else if name == "data" then fields.(data := fields.data + [value])
             else fields)
  {
    var line := name + ": " + value;
    FirstColon(name, " " + value);
    assert line == name + ":" + (" " + value);
    assert line[..|name|] == name;
    assert line[|name| + 1..] == " " + value;
    assert (" " + value)[1..] == value;
    assert line[0] == name[0];
  }

  lemma SplitFrameText(eventId: string, eventType: string, data: string)
    requires LineFree(eventId) && LineFree(eventType) && LineFree(data)
    ensures SplitLines(FrameText(eventId, eventType, data))
        == ["id: " + eventId, "event: " + eventType, "data: " + data]
  {
    var l0, l1, l2 := "id: " + eventId, "event: " + eventType, "data: " + data;
    assert FrameText(eventId, eventType, data) == l0 + [LF] + l1 + [LF] + l2;
    ThreeLines(l0, l1, l2);
  }

  lemma ThreeLines(l0: string, l1: string, l2: string)
    requires LineFree(l0) && LineFree(l1) && LineFree(l2)
    ensures SplitLines(l0 + [LF] + l1 + [LF] + l2) == [l0, l1, l2]
  {
    hide SplitLines;
    SplitAtLineFeed(l0, l1 + [LF] + l2);
    SplitAtLineFeed(l1, l2);
    assert l0 + [LF] + l1 + [LF] + l2 == l0 + [LF] + (l1 + [LF] + l2);
    assert [l0] + ([l1] + [l2]) == [l0, l1, l2];
  }

  lemma ReadThreeLines(fields: FrameFields, l0: string, l1: string, l2: string)
    ensures ReadLines(fields, [l0, l1, l2]) == ReadLine(ReadLine(ReadLine(fields, l0), l1), l2)
  {
    assert [l0, l1, l2][..2] == [l0, l1] && [l0, l1][..1] == [l0] && [l0][..0] == [];
    assert ReadLines(fields, [l0]) == ReadLine(fields, l0);
    assert ReadLines(fields, [l0, l1]) == ReadLine(ReadLines(fields, [l0]), l1);
  }

  /** The frame parser recovers exactly the id and the data the printer was given. */
  lemma ParsePrintedFrame(eventId: string, eventType: string, data: string)
    requires LineFree(eventId) && LineFree(eventType) && LineFree(data)
    ensures FrameOf(FrameText(eventId, eventType, data)) == Some(SseFrame(Some(eventId), data))
  {
    SplitFrameText(eventId, eventType, data);
    ReadThreeLines(FrameFields(None, []), "id: " + eventId, "event: " + eventType, "data: " + data);
    assert "id" + ": " == "id: " && "event" + ": " == "event: " && "data" + ": " == "data: ";
    NamedField(FrameFields(None, []), "id", eventId);
    NamedField(FrameFields(Some(eventId), []), "event", eventType);
    NamedField(FrameFields(Some(eventId), []), "data", data);
    assert FrameFields(Some(eventId), []).data + [data] == [data];
  }

  /** Text with no blank line in it and no line feed at its end is followed by the first blank line. */
  lemma {:induction false} BoundaryAfterText(body: string, more: string)
    requires Boundary(body) == -1 && (body == "" || body[|body| - 1] != LF)
    ensures Boundary(body + [LF, LF] + more) == |body|
  {
    var text := body + [LF, LF] + more;
    if body != "" {
      assert text[1..] == body[1..] + [LF, LF] + more;
      assert body[1..] == "" || body[1..][|body| - 2] == body[|body| - 1];
      BoundaryAfterText(body[1..], more);
    }
  }

  /** A line, a line feed and text that starts no blank line make text without a blank line. */
  lemma {:induction false} NoBoundaryAcrossLine(line: string, rest: string)
    requires LineFree(line) && Boundary(rest) == -1 && rest != "" && rest[0] != LF
    ensures Boundary(line + [LF] + rest) == -1
  {
    if line == "" {
      assert (line + [LF] + rest)[1..] == rest;
    } else {
      assert (line + [LF] + rest)[1..] == line[1..] + [LF] + rest;
      NoBoundaryAcrossLine(line[1..], rest);
    }
  }

  lemma FrameTextIsOneFrame(eventId: string, eventType: string, data: string)
    requires LineFree(eventId) && LineFree(eventType) && LineFree(data)
    ensures Boundary(FrameText(eventId, eventType, data)) == -1
    ensures FrameText(eventId, eventType, data)[|FrameText(eventId, eventType, data)| - 1] != LF
  {
    hide Boundary;
    var l0, l1, l2 := "id: " + eventId, "event: " + eventType, "data: " + data;
    assert FrameText(eventId, eventType, data) == l0 + [LF] + (l1 + [LF] + l2);
    NoBoundaryInLines(l0, l1, l2);
  }

  lemma NoBoundaryInLines(l0: string, l1: string, l2: string)
    requires LineFree(l0) && LineFree(l1) && LineFree(l2) && l1 != "" && l2 != ""
    ensures Boundary(l0 + [LF] + (l1 + [LF] + l2)) == -1
  {
    hide Boundary;
    assert l1[0] in l1 && l2[0] in l2;
    assert Boundary("") == -1;
    BoundaryOfPrefix("", l2);
    assert "" + l2 == l2;
    NoBoundaryAcrossLine(l1, l2);
    NoBoundaryAcrossLine(l0, l1 + [LF] + l2);
  }
}
