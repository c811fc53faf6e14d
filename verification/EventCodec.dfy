/** A codec of the kind the event stream assumes: every event one line of text that decodes to itself. */
module EventCodec {
  import opened Options
  import opened EventFrames
  import opened EventStream

  function Strokes(n: nat): string {
    if n == 0 then "0" else "1" + Strokes(n - 1)
  }

  function Spelled(text: string): string {
    if text == "" then "2" else Strokes(text[0] as int) + Spelled(text[1..])
  }

  function Signed(n: int): string {
    if n < 0 then "3" + Strokes(-n) else Strokes(n)
  }

  function Written(e: Envelope): string {
    Spelled(e.eventId) + (Spelled(e.eventType) + (Spelled(e.payload) + Signed(e.sequence)))
  }

  ghost predicate Plain(text: string) {
    forall c :: c in text ==> c in "0123"
  }

  lemma {:induction false} StrokesEnd(n: nat, m: nat, a: string, b: string)
    requires Strokes(n) + a == Strokes(m) + b
    ensures n == m && a == b
    ensures Strokes(n)[0] in "01"
  {
    assert (Strokes(n) + a)[0] == Strokes(n)[0] && (Strokes(m) + b)[0] == Strokes(m)[0];
    assert (Strokes(n) + a)[1..] == Strokes(n)[1..] + a && (Strokes(m) + b)[1..] == Strokes(m)[1..] + b;
    if n > 0 && m > 0 {
      StrokesEnd(n - 1, m - 1, a, b);
    }
  }

  lemma {:induction false} SpelledEnds(s: string, t: string, a: string, b: string)
    requires Spelled(s) + a == Spelled(t) + b
    ensures s == t && a == b
  {
    if s == "" || t == "" {
      assert (Spelled(s) + a)[0] == Spelled(s)[0] && (Spelled(t) + b)[0] == Spelled(t)[0];
      FirstOfSpelled(s);
      FirstOfSpelled(t);
      assert a == (Spelled(s) + a)[1..] && b == (Spelled(t) + b)[1..];
    } else {
      var x, y := Spelled(s[1..]) + a, Spelled(t[1..]) + b;
      assert Spelled(s) + a == Strokes(s[0] as int) + x && Spelled(t) + b == Strokes(t[0] as int) + y;
      StrokesEnd(s[0] as int, t[0] as int, x, y);
      SpelledEnds(s[1..], t[1..], a, b);
      assert s == [s[0]] + s[1..] && t == [t[0]] + t[1..];
    }
  }

  lemma FirstOfSpelled(s: string)
    ensures Spelled(s) != "" && (Spelled(s)[0] == '2' <==> s == "")
    ensures s == "" ==> Spelled(s) == "2"
  {
    if s != "" {
      StrokesEnd(s[0] as int, s[0] as int, "", "");
    }
  }

  lemma SignedIsInjective(n: int, m: int)
    requires Signed(n) == Signed(m)
    ensures n == m
  {
    var x, y := if n < 0 then -n else n, if m < 0 then -m else m;
    assert Signed(n)[0] == '3' <==> n < 0;
    assert Signed(m)[0] == '3' <==> m < 0;
    if n < 0 {
      assert Signed(n)[1..] == Strokes(x) && Signed(m)[1..] == Strokes(y);
    }
    StrokesEnd(x, y, "", "");
  }

  lemma WrittenIsInjective(e: Envelope, f: Envelope)
    requires Written(e) == Written(f)
    ensures e == f
  {
    hide Spelled, Signed;
    SpelledEnds(e.eventId, f.eventId, Spelled(e.eventType) + (Spelled(e.payload) + Signed(e.sequence)),
                Spelled(f.eventType) + (Spelled(f.payload) + Signed(f.sequence)));
    SpelledEnds(e.eventType, f.eventType, Spelled(e.payload) + Signed(e.sequence),
        Spelled(f.payload) + Signed(f.sequence));
    SpelledEnds(e.payload, f.payload, Signed(e.sequence), Signed(f.sequence));
    SignedIsInjective(e.sequence, f.sequence);
  }

  lemma {:induction false} StrokesArePlain(n: nat)
    ensures Plain(Strokes(n))
  {
    if n > 0 {
      StrokesArePlain(n - 1);
    }
  }

  lemma {:induction false} SpelledIsPlain(s: string)
    ensures Plain(Spelled(s))
  {
    if s != "" {
      StrokesArePlain(s[0] as int);
      SpelledIsPlain(s[1..]);
    }
  }

  lemma WrittenIsOneLine(e: Envelope)
    ensures OneLine(Written(e))
  {
    hide Spelled, Strokes;
    SpelledIsPlain(e.eventId);
    SpelledIsPlain(e.eventType);
    SpelledIsPlain(e.payload);
    StrokesArePlain(if e.sequence < 0 then -e.sequence else e.sequence);
    assert Plain(Written(e));
  }

  ghost function Read(text: string): Option<Envelope> {
    if e: Envelope :| Written(e) == text then Some(e) else None
  }

  /** So the results about lawful codecs are about something. */
  lemma LawfulCodecExists()
    ensures exists codec: Codec :: Lawful(codec)
  {
    var codec := Codec(e => Written(e), text => Read(text));
    forall e ensures OneLine(codec.encode(e)) && codec.decode(codec.encode(e)) == Some(e) {
      WrittenIsOneLine(e);
      var f := Read(Written(e)).value;
      WrittenIsInjective(e, f);
    }
    assert Lawful(codec);
  }
}
