/** Round trip of framed events, and agreement with the event stream format of the WHATWG HTML Standard. */
module SseLaws {
  import opened Common
  import opened Sse

  // ---- Lines ----

  predicate OneLine(s: string) { '\n' !in s }

  lemma {:induction false} LinesOfOneLine(s: string)
    requires OneLine(s)
    ensures Lines(s) == [s]
  {
    if s != [] {
      LinesOfOneLine(s[1..]);
      assert [s[0]] + s[1..] == s;
    }
  }

  /** A newline is where the lines before it end and those after it begin. */
  lemma {:induction false} LinesConcat(a: string, b: string)
    ensures Lines(a + "\n" + b) == Lines(a) + Lines(b)
  {
    var s := a + "\n" + b;
    if a == [] {
      assert s[1..] == b && s[0] == '\n';
    } else {
      LinesConcat(a[1..], b);
      assert s[1..] == a[1..] + "\n" + b && s[0] == a[0];
      LinesAssoc(Lines(a[1..]), Lines(b), a[0]);
    }
  }

  lemma LinesAssoc(x: seq<string>, y: seq<string>, c: char)
    requires x != []
    ensures (x + y)[0] == x[0] && (x + y)[1..] == x[1..] + y
    ensures [[]] + (x + y) == ([[]] + x) + y
    ensures [[c] + x[0]] + (x[1..] + y) == ([[c] + x[0]] + x[1..]) + y
  {
  }

  lemma {:induction false} LinesOfJoin(lines: seq<string>)
    requires lines != [] && forall i :: 0 <= i < |lines| ==> OneLine(lines[i])
    ensures Lines(Join(lines)) == lines
  {
    LinesOfOneLine(lines[0]);
    if |lines| > 1 {
      LinesOfJoin(lines[1..]);
      LinesConcat(lines[0], Join(lines[1..]));
    }
  }

  lemma {:induction false} JoinOfLines(s: string)
    ensures Join(Lines(s)) == s
  {
    if s != [] {
      JoinOfLines(s[1..]);
      var rest := Lines(s[1..]);
      if s[0] == '\n' {
        assert ([[]] + rest)[1..] == rest;
      } else {
        assert ([[s[0]] + rest[0]] + rest[1..])[1..] == rest[1..];
      }
    }
  }

  // ---- Framing ----

  /** A line of a frame that carries neither data nor an event name: id, retry or a comment. */
  predicate Extra(line: string) {
    "id:" <= line || "retry:" <= line || ":" <= line
  }

  function Prefixed(prefix: string, lines: seq<string>): seq<string> {
    if lines == [] then [] else Prefixed(prefix, lines[..|lines| - 1]) + [prefix + lines[|lines| - 1]]
  }

  /**
   * `lines` frames `e`: one `data: ` line per line of the data, in order, at most one `event: ` line,
   * and any number of extra lines anywhere.
   */
  predicate Frames(lines: seq<string>, e: SseEvent) {
    && (forall i :: 0 <= i < |lines| ==> OneLine(lines[i]))
    && (forall i :: 0 <= i < |lines| ==> "data:" <= lines[i] || "event:" <= lines[i] || Extra(lines[i]))
    && Filter(lines, (line: string) => "data:" <= line) == Prefixed("data: ", Lines(e.data))
    && Filter(lines, (line: string) => "event:" <= line) ==
       if e.event.None? then [] else ["event: " + e.event.value]
  }

  predicate WellNamed(e: SseEvent) {
    e.event.Some? ==> Trimmed(e.event.value) && OneLine(e.event.value)
  }

  function Encode(frames: seq<seq<string>>): string {
    if frames == [] then [] else Encode(frames[..|frames| - 1]) + Join(frames[|frames| - 1]) + "\n\n"
  }

  lemma {:induction false} DataLinesOfFiltered(lines: seq<string>)
    ensures DataLines(lines) == DataLines(Filter(lines, (line: string) => "data:" <= line))
  {
    if lines != [] {
      var n := |lines| - 1;
      var kept := Filter(lines[..n], (line: string) => "data:" <= line);
      DataLinesOfFiltered(lines[..n]);
      assert (kept + [lines[n]])[..|kept|] == kept;
    }
  }

  lemma {:induction false} DataLinesOfPrefixed(lines: seq<string>)
    ensures DataLines(Prefixed("data: ", lines)) == lines
  {
    if lines != [] {
      var n := |lines| - 1;
      DataLinesOfPrefixed(lines[..n]);
      var p, line := Prefixed("data: ", lines[..n]), "data: " + lines[n];
      assert (p + [line])[..|p|] == p;
      assert line[5..] == " " + lines[n];
      assert "data:" <= line;
      assert lines == lines[..n] + [lines[n]];
    }
  }

  lemma {:induction false} EventNameOfFiltered(lines: seq<string>)
    ensures EventName(lines) == EventName(Filter(lines, (line: string) => "event:" <= line))
  {
    if lines != [] {
      var n := |lines| - 1;
      var kept := Filter(lines[..n], (line: string) => "event:" <= line);
      EventNameOfFiltered(lines[..n]);
      assert (kept + [lines[n]])[..|kept|] == kept;
    }
  }

  lemma {:induction false} TrimmedIsFixed(s: string)
    requires Trimmed(s)
    ensures Trim(s) == s && Trim(" " + s) == s
  {
  }

  lemma FrameData(lines: seq<string>, e: SseEvent)
    requires Frames(lines, e)
    ensures lines != [] && DataLines(lines) == Lines(e.data)
  {
    assert lines == [] ==> Prefixed("data: ", Lines(e.data)) == [];
    DataLinesOfFiltered(lines);
    DataLinesOfPrefixed(Lines(e.data));
  }

  lemma NameLine(name: string)
    requires Trimmed(name)
    ensures EventName(["event: " + name]) == Some(name)
  {
    var line := "event: " + name;
    TrimmedIsFixed(name);
    assert "event:" <= line && line[6..] == " " + name;
  }

  lemma FrameName(lines: seq<string>, e: SseEvent)
    requires Frames(lines, e) && WellNamed(e)
    ensures EventName(lines) == e.event
  {
    EventNameOfFiltered(lines);
    if e.event.Some? {
      NameLine(e.event.value);
    }
  }

  lemma FrameIsParsed(lines: seq<string>, e: SseEvent)
    requires Frames(lines, e) && WellNamed(e)
    ensures lines != [] && ParseBlock(Join(lines)) == Some(e)
  {
    FrameData(lines, e);
    FrameName(lines, e);
    LinesOfJoin(lines);
    JoinOfLines(e.data);
  }

  /** Non-empty lines joined contain no blank line, so the frame's end is the first one. */
  lemma {:induction false} JoinCloses(lines: seq<string>)
    requires lines != [] && forall i :: 0 <= i < |lines| ==> OneLine(lines[i]) && lines[i] != ""
    ensures Join(lines) != "" && Join(lines)[0] != '\n' && Closes(Join(lines))
  {
    var s := Join(lines);
    if |lines| == 1 {
      assert forall j :: BlankAt(s + "\n\n", j) ==> j >= |s|;
    } else {
      var tail := Join(lines[1..]);
      JoinCloses(lines[1..]);
      var k := |lines[0]| + 1;
      forall j | BlankAt(s + "\n\n", j)
        ensures j >= |s|
      {
        if j >= k {
          assert BlankAt(tail + "\n\n", j - k);
        }
      }
    }
    assert BlankAt(s + "\n\n", |s|);
  }

  lemma FrameCloses(lines: seq<string>, e: SseEvent)
    requires Frames(lines, e)
    ensures Closes(Join(lines))
  {
    assert lines == [] ==> Prefixed("data: ", Lines(e.data)) == [];
    JoinCloses(lines);
  }

  function Joined(frames: seq<seq<string>>): seq<string> {
    seq(|frames|, i requires 0 <= i < |frames| => Join(frames[i]))
  }

  predicate Framed(frames: seq<seq<string>>, events: seq<SseEvent>) {
    |frames| == |events| && forall i :: 0 <= i < |frames| ==> Frames(frames[i], events[i]) && WellNamed(events[i])
  }

  lemma {:induction false} EncodeIsGlued(frames: seq<seq<string>>)
    ensures Glue(Joined(frames)) == Encode(frames)
  {
    if frames != [] {
      var n := |frames| - 1;
      EncodeIsGlued(frames[..n]);
      GlueAppend(Joined(frames[..n]), Join(frames[n]));
      assert Joined(frames) == Joined(frames[..n]) + [Join(frames[n])];
    }
  }

  /** The encoded frames are cut back into themselves. */
  lemma EncodeIsCut(frames: seq<seq<string>>, events: seq<SseEvent>)
    requires Framed(frames, events)
    ensures Glue(Joined(frames)) == Encode(frames)
    ensures forall i :: 0 <= i < |frames| ==> Closes(Joined(frames)[i])
  {
    EncodeIsGlued(frames);
    forall i | 0 <= i < |frames|
      ensures Closes(Joined(frames)[i])
    {
      FrameCloses(frames[i], events[i]);
    }
  }

  lemma EncodeIsParsed(frames: seq<seq<string>>, events: seq<SseEvent>)
    requires Framed(frames, events)
    ensures Parsed(Joined(frames)) == events
  {
    forall i | 0 <= i < |frames|
      ensures ParseBlock(Joined(frames)[i]) == Some(events[i])
    {
      FrameIsParsed(frames[i], events[i]);
    }
    FilterMapAll(Joined(frames), ParseBlock, events);
  }

  /**
   * Round trip: however events are framed, however the stream breaks off after the last frame, and
   * however the network cuts the text, the reader yields exactly those events.
   */
  method RoundTrip(frames: seq<seq<string>>, events: seq<SseEvent>, tail: string, chunks: seq<string>)
    returns (read: seq<SseEvent>)
    requires Framed(frames, events)
    requires FirstBlank(tail) == -1 && Concat(chunks) == Encode(frames) + tail
    ensures read == events
  {
    var buffer;
    read, buffer := StreamSse(chunks);
    RoundTripOfText(frames, events, tail);
  }

  lemma RoundTripOfText(frames: seq<seq<string>>, events: seq<SseEvent>, tail: string)
    requires Framed(frames, events)
    requires FirstBlank(tail) == -1
    ensures Parsed(SplitAtBlanks(Encode(frames) + tail).blocks) == events
    ensures SplitAtBlanks(Encode(frames) + tail).rest == tail
  {
    EncodeIsCut(frames, events);
    assert Cuts(Encode(frames) + tail, Joined(frames), tail);
    EncodeIsParsed(frames, events);
    CutsAreUnique(Encode(frames) + tail, Joined(frames), tail);
  }
}
