/** What the frame parser makes of any text at all: its lines, their fields, and the frame they denote. */
module EventFields {
  import opened Options
  import opened EventFrames

  /** The line is the named field with this value: a comment is none, and one space after the colon is dropped. */
  ghost predicate IsField(line: string, name: string, value: string) {
    && name != "" && ':' !in name
    && (|| (line == name && value == "")
        || (exists rest :: line == name + ":" + rest && Unspaced(rest, value)))
  }

  ghost predicate Unspaced(rest: string, value: string) {
    rest == " " + value || (rest == value && (value == "" || value[0] != ' '))
  }

  lemma {:induction false} LinesJoin(text: string)
    ensures JoinLines(SplitLines(text)) == text
  {
    if text != "" {
      LinesJoin(text[1..]);
      var rest := SplitLines(text[1..]);
      assert text == [text[0]] + text[1..];
      if text[0] == LF {
        assert ([""] + rest)[1..] == rest;
      } else {
        var first := [text[0]] + rest[0];
        assert ([first] + rest[1..])[1..] == rest[1..];
      }
    }
  }

  lemma {:induction false} LinesAreFree(text: string)
    ensures forall i :: 0 <= i < |SplitLines(text)| ==> LineFree(SplitLines(text)[i])
  {
    if text != "" {
      LinesAreFree(text[1..]);
    }
  }

  lemma ColonFound(line: string, name: string, rest: string)
    requires line == name + ":" + rest && ':' !in name
    ensures IndexOfChar(line, ':') == |name| && line[..|name|] == name && line[|name| + 1..] == rest
  {
    FirstColon(name, rest);
  }

  function Extended(fields: FrameFields, name: string, value: string): FrameFields {
    if name == "id" then fields.(id := Some(value))
    else if name == "data" then fields.(data := fields.data + [value])
    else fields
  }

  lemma FieldRead(line: string, name: string, value: string)
    requires IsField(line, name, value)
    ensures forall fields :: ReadLine(fields, line) == Extended(fields, name, value)
  {
    if line == name && value == "" {
      assert IndexOfChar(line, ':') == -1;
      assert line[0] in line;
    } else {
      var rest :| line == name + ":" + rest && Unspaced(rest, value);
      ColonFound(line, name, rest);
      assert line[0] == name[0] && name[0] in name;
      assert rest == " " + value ==> rest[1..] == value;
    }
  }

  lemma OtherwiseSkipped(line: string)
    requires forall value :: !IsField(line, "id", value) && !IsField(line, "data", value)
    ensures forall fields :: ReadLine(fields, line) == fields
  {
    if line != "" && line[0] != ':' {
      var separator := IndexOfChar(line, ':');
      if separator == -1 {
        assert line == "id" ==> IsField(line, "id", "");
        assert line == "data" ==> IsField(line, "data", "");
      } else {
        var name, rest := line[..separator], line[separator + 1..];
        var value := if rest != "" && rest[0] == ' ' then rest[1..] else rest;
        assert line == name + ":" + rest;
        assert Unspaced(rest, value);
        assert name == "id" ==> IsField(line, "id", value);
        assert name == "data" ==> IsField(line, "data", value);
      }
    }
  }

  ghost predicate IsFieldOf(line: string, name: string) {
    exists value :: IsField(line, name, value)
  }

  /** The positions of the data lines, in order. */
  ghost predicate DataLines(lines: seq<string>, at: seq<nat>) {
    && (forall k :: 0 <= k < |at| ==> at[k] < |lines| && IsFieldOf(lines[at[k]], "data"))
    && (forall k, m :: 0 <= k < m < |at| ==> at[k] < at[m])
    && (forall i: nat :: i < |lines| && IsFieldOf(lines[i], "data") ==> i in at)
  }

  ghost predicate LastId(lines: seq<string>, i: nat) {
    i < |lines| && IsFieldOf(lines[i], "id") && forall k: nat :: i < k < |lines| ==> !IsFieldOf(lines[k], "id")
  }

  /** The fields read from the lines: the last id, and every data value in order. */
  ghost predicate FieldsMean(fields: FrameFields, lines: seq<string>, at: seq<nat>) {
    && DataLines(lines, at)
    && |fields.data| == |at|
    && (forall k :: 0 <= k < |at| ==> IsField(lines[at[k]], "data", fields.data[k]))
    && (fields.id == None <==> forall i: nat :: i < |lines| ==> !IsFieldOf(lines[i], "id"))
    && (forall i: nat :: LastId(lines, i) ==> fields.id.Some? && IsField(lines[i], "id", fields.id.value))
  }

  lemma {:induction false} LinesRead(lines: seq<string>) returns (at: seq<nat>)
    ensures FieldsMean(ReadLines(FrameFields(None, []), lines), lines, at)
    decreases |lines|
  {
    hide ReadLine, IsField, IsFieldOf;
    if lines == [] {
      at := [];
    } else {
      var n := |lines| - 1;
      at := LinesRead(lines[..n]);
      at := OneMoreLine(ReadLines(FrameFields(None, []), lines[..n]), lines, at);
    }
  }

  lemma OneMoreLine(fields: FrameFields, lines: seq<string>, before: seq<nat>) returns (at: seq<nat>)
    requires lines != [] && FieldsMean(fields, lines[..|lines| - 1], before)
    ensures FieldsMean(ReadLine(fields, lines[|lines| - 1]), lines, at)
  {
    var n := |lines| - 1;
    var line := lines[n];
    assert forall i: nat :: i < n ==> lines[..n][i] == lines[i];
    hide ReadLine, IsField;
    at := before;
    if IsFieldOf(line, "id") {
      var value :| IsField(line, "id", value);
      FieldRead(line, "id", value);
      NotBoth(line);
      IdLine(fields, lines, at, value);
    } else if IsFieldOf(line, "data") {
      var value :| IsField(line, "data", value);
      FieldRead(line, "data", value);
      DataLine(fields, lines, at, value);
      at := at + [n];
    } else {
      OtherwiseSkipped(line);
      OtherLine(fields, lines, at);
    }
  }

  lemma FirstCharacter(line: string, name: string)
    requires IsFieldOf(line, name)
    ensures line != "" && name != "" && line[0] == name[0]
  {
  }

  lemma NotBoth(line: string)
    ensures !(IsFieldOf(line, "id") && IsFieldOf(line, "data"))
  {
    if IsFieldOf(line, "id") {
      FirstCharacter(line, "id");
    }
    if IsFieldOf(line, "data") {
      FirstCharacter(line, "data");
    }
  }

  lemma LastIdFront(lines: seq<string>)
    requires lines != [] && !IsFieldOf(lines[|lines| - 1], "id")
    ensures forall i: nat :: LastId(lines, i) ==> LastId(lines[..|lines| - 1], i)
  {
    hide IsFieldOf;
    var n := |lines| - 1;
    assert forall i: nat :: i < n ==> lines[..n][i] == lines[i];
  }

  lemma IdLine(fields: FrameFields, lines: seq<string>, at: seq<nat>, value: string)
    requires lines != [] && FieldsMean(fields, lines[..|lines| - 1], at)
    requires IsField(lines[|lines| - 1], "id", value) && !IsFieldOf(lines[|lines| - 1], "data")
    ensures FieldsMean(fields.(id := Some(value)), lines, at)
  {
    var n := |lines| - 1;
    assert forall i: nat :: i < n ==> lines[..n][i] == lines[i];
    assert IsFieldOf(lines[n], "id");
    hide IsField, IsFieldOf;
  }

  lemma DataLine(fields: FrameFields, lines: seq<string>, at: seq<nat>, value: string)
    requires lines != [] && FieldsMean(fields, lines[..|lines| - 1], at)
    requires IsField(lines[|lines| - 1], "data", value) && !IsFieldOf(lines[|lines| - 1], "id")
    ensures FieldsMean(fields.(data := fields.data + [value]), lines, at + [|lines| - 1])
  {
    var n := |lines| - 1;
    assert forall i: nat :: i < n ==> lines[..n][i] == lines[i];
    assert IsFieldOf(lines[n], "data");
    LastIdFront(lines);
    hide IsField, IsFieldOf, LastId;
  }

  lemma OtherLine(fields: FrameFields, lines: seq<string>, at: seq<nat>)
    requires lines != [] && FieldsMean(fields, lines[..|lines| - 1], at)
    requires !IsFieldOf(lines[|lines| - 1], "data") && !IsFieldOf(lines[|lines| - 1], "id")
    ensures FieldsMean(fields, lines, at)
  {
    var n := |lines| - 1;
    assert forall i: nat :: i < n ==> lines[..n][i] == lines[i];
    LastIdFront(lines);
    hide IsField, IsFieldOf, LastId;
  }

  /**
   What any frame text denotes. Its lines are the text cut at every line feed; it denotes a frame exactly
   when some line is a data field; the frame's data are the values of all data lines, in order, one a line;
   and its id is that of the last id line, if there is one.
   */
  lemma FrameMeans(text: string) returns (lines: seq<string>, at: seq<nat>, data: seq<string>)
    ensures JoinLines(lines) == text && forall line :: line in lines ==> LineFree(line)
    ensures DataLines(lines, at) && |data| == |at|
    ensures forall k :: 0 <= k < |at| ==> IsField(lines[at[k]], "data", data[k])
    ensures FrameOf(text) == None <==> at == []
    ensures FrameOf(text).Some? ==>
      var frame := FrameOf(text).value;
      && frame.data == JoinLines(data)
      && (frame.id == None <==> forall i: nat :: i < |lines| ==> !IsFieldOf(lines[i], "id"))
      && (forall i: nat :: LastId(lines, i) ==> frame.id.Some? && IsField(lines[i], "id", frame.id.value))
  {
    hide ReadLines, SplitLines, JoinLines, IsField, IsFieldOf;
    LinesJoin(text);
    LinesAreFree(text);
    lines := SplitLines(text);
    at := LinesRead(lines);
    data := ReadLines(FrameFields(None, []), lines).data;
  }
}
