/**
 * The interpretation of an event stream by section 9.2.6 of the WHATWG HTML Standard, line by line, and
 * exactly when the reader agrees with it on text whose only line ending is LF.
 */
module SseStandard {
  import opened Common
  import opened Sse
  import opened SseLaws

  datatype Dispatch = Dispatch(eventType: string, data: string)

  /** The standard's data buffer and event type buffer, and the events dispatched so far. */
  datatype Interpreter = Interpreter(data: string, eventType: string, dispatched: seq<Dispatch>)

  function FirstColon(line: string): (i: int)
    ensures -1 <= i < |line|
    ensures i >= 0 ==> line[i] == ':'
    ensures forall j :: 0 <= j < (if i < 0 then |line| else i) ==> line[j] != ':'
  {
    if line == [] then -1
    else if line[0] == ':' then 0
    else
      var i := FirstColon(line[1..]);
      if i == -1 then -1 else i + 1
  }

  function Field(s: Interpreter, name: string, value: string): Interpreter {
    if name == "event" then s.(eventType := value)
    else if name == "data" then s.(data := s.data + value + "\n")
    else s
  }

  function Interpret(s: Interpreter, line: string): Interpreter {
    if line == "" then
      Interpreter("", "",
        if s.data == "" then s.dispatched
        else s.dispatched + [Dispatch(s.eventType, s.data[..|s.data| - 1])])
    else
      var colon := FirstColon(line);
      if colon == -1 then Field(s, line, "")
      else if colon == 0 then s
      else Field(s, line[..colon], DropSpace(line[colon + 1..]))
  }

  function InterpretAll(s: Interpreter, lines: seq<string>): Interpreter {
    if lines == [] then s else Interpret(InterpretAll(s, lines[..|lines| - 1]), lines[|lines| - 1])
  }

  /** The events of a text. Its last line has not ended yet, so nothing can be dispatched because of it. */
  function StandardEvents(text: string): seq<Dispatch> {
    InterpretAll(Interpreter("", "", []), Lines(text)[..|Lines(text)| - 1]).dispatched
  }

  /** What the reader delivers, with an absent event name as the standard's empty event type. */
  function AsDispatch(e: SseEvent): Dispatch {
    Dispatch(if e.event.Some? then e.event.value else "", e.data)
  }

  function ReaderEvents(text: string): seq<Dispatch> {
    Dispatches(Parsed(SplitAtBlanks(text).blocks))
  }

  function Dispatches(events: seq<SseEvent>): seq<Dispatch> {
    seq(|events|, i requires 0 <= i < |events| => AsDispatch(events[i]))
  }

  // ---- What the two make of one block ----

  /** The values the standard appends to its data buffer; a line that is only the field's name has an empty one. */
  function StandardData(lines: seq<string>): seq<string> {
    if lines == [] then []
    else StandardData(lines[..|lines| - 1]) + FieldData(lines[|lines| - 1])
  }

  function FieldData(line: string): seq<string> {
    if "data:" <= line then [DropSpace(line[5..])] else if line == "data" then [""] else []
  }

  /** The value of the last `event` field, not trimmed; empty without one. */
  function StandardName(lines: seq<string>): string {
    if lines == [] then ""
    else
      var n := |lines| - 1;
      if "event:" <= lines[n] then DropSpace(lines[n][6..])
      else if lines[n] == "event" then "" else StandardName(lines[..n])
  }

  function ReaderName(lines: seq<string>): string {
    if EventName(lines).Some? then EventName(lines).value else ""
  }

  function StandardOf(block: string): seq<Dispatch> {
    var data := StandardData(Lines(block));
    if data == [] then [] else [Dispatch(StandardName(Lines(block)), Join(data))]
  }

  function ReaderOf(block: string): seq<Dispatch> {
    if ParseBlock(block).Some? then [AsDispatch(ParseBlock(block).value)] else []
  }

  /**
   * Reader and standard take this block the same way: no line is a bare `data`, and if there is data, the
   * last event name is the same to both, so it is not padded and not overridden by a bare `event`.
   */
  predicate SameToBoth(lines: seq<string>) {
    "data" !in lines && (DataLines(lines) != [] ==> StandardName(lines) == ReaderName(lines))
  }

  // ---- Lines of one block ----

  lemma ColonOfField(line: string, name: string)
    requires ':' !in name && name != ""
    ensures name + ":" <= line <==> FirstColon(line) == |name| && line[..|name|] == name
  {
    if name + ":" <= line {
      assert line[..|name|] == name && line[|name|] == ':';
      assert forall j :: 0 <= j < |name| ==> line[j] == name[j];
    }
  }

  lemma FieldLine(s: Interpreter, name: string, value: string, line: string)
    requires ':' !in name && name != "" && line == name + ":" + value
    ensures Interpret(s, line) == Field(s, name, DropSpace(value))
  {
    assert line == name + ":" + value && name + ":" <= line;
    ColonOfField(line, name);
    assert line[|name| + 1..] == value;
  }

  lemma DataLine(s: Interpreter, line: string)
    requires "data:" <= line
    ensures Interpret(s, line) == s.(data := s.data + (DropSpace(line[5..]) + "\n"))
  {
    FieldLine(s, "data", line[5..], line);
    assert s.data + (DropSpace(line[5..]) + "\n") == s.data + DropSpace(line[5..]) + "\n";
  }

  lemma EventLine(s: Interpreter, line: string)
    requires "event:" <= line
    ensures Interpret(s, line) == s.(eventType := DropSpace(line[6..]))
  {
    FieldLine(s, "event", line[6..], line);
  }

  lemma BareLine(s: Interpreter)
    ensures Interpret(s, "data") == s.(data := s.data + "\n") && Interpret(s, "event") == s.(eventType := "")
  {
    assert FirstColon("data") == -1 && FirstColon("event") == -1;
    assert s.data + "" + "\n" == s.data + "\n";
  }

  lemma OtherLine(s: Interpreter, line: string)
    requires line != "" && line != "data" && line != "event"
    requires !("data:" <= line) && !("event:" <= line)
    ensures Interpret(s, line) == s
  {
  }

  /** What one line adds to the data buffer, and what the event type is after it. */
  function AddedData(line: string): string {
    if "data:" <= line then DropSpace(line[5..]) + "\n" else if line == "data" then "\n" else ""
  }

  function TypeAfter(eventType: string, line: string): string {
    if "event:" <= line then DropSpace(line[6..]) else if line == "event" then "" else eventType
  }

  lemma InterpretLine(s: Interpreter, line: string)
    requires line != ""
    ensures Interpret(s, line) == Interpreter(s.data + AddedData(line), TypeAfter(s.eventType, line), s.dispatched)
  {
    assert s.data + "" == s.data;
    if "data:" <= line {
      assert line[0] == 'd' && "event:"[0] == 'e';
      DataLine(s, line);
    } else if "event:" <= line {
      assert line[0] == 'e';
      EventLine(s, line);
    } else if line == "data" || line == "event" {
      BareLine(s);
    } else {
      OtherLine(s, line);
    }
  }

  /** Every line followed by a newline: the standard's data buffer. */
  function Terminated(lines: seq<string>): string {
    if lines == [] then "" else Terminated(lines[..|lines| - 1]) + (lines[|lines| - 1] + "\n")
  }

  lemma {:induction false} JoinAppend(lines: seq<string>, x: string)
    requires lines != []
    ensures Join(lines + [x]) == Join(lines) + "\n" + x
  {
    if |lines| == 1 {
      assert (lines + [x])[1..] == [x];
    } else {
      JoinAppend(lines[1..], x);
      assert (lines + [x])[1..] == lines[1..] + [x];
      assert lines[0] + "\n" + (Join(lines[1..]) + "\n" + x) == (lines[0] + "\n" + Join(lines[1..])) + "\n" + x;
    }
  }

  lemma {:induction false} TerminatedIsJoin(lines: seq<string>)
    ensures lines != [] ==> Terminated(lines) == Join(lines) + "\n"
  {
    if |lines| > 1 {
      var n := |lines| - 1;
      TerminatedIsJoin(lines[..n]);
      JoinAppend(lines[..n], lines[n]);
      assert lines == lines[..n] + [lines[n]];
      assert (Join(lines[..n]) + "\n") + (lines[n] + "\n") == (Join(lines[..n]) + "\n" + lines[n]) + "\n";
    } else if |lines| == 1 {
      assert lines[..0] == [];
      assert "" + (lines[0] + "\n") == lines[0] + "\n";
    }
  }

  /** Blank lines may stand only where nothing has been read yet. */
  predicate BlankOnlyFirst(lines: seq<string>) {
    forall i :: 1 <= i < |lines| ==> lines[i] != ""
  }

  lemma {:induction false} BlockState(lines: seq<string>, d: seq<Dispatch>)
    requires BlankOnlyFirst(lines)
    ensures InterpretAll(Interpreter("", "", d), lines) ==
            Interpreter(Terminated(StandardData(lines)), StandardName(lines), d)
  {
    if lines != [] {
      var n := |lines| - 1;
      BlockState(lines[..n], d);
      if lines[n] == "" {
        assert n == 0 && lines[..n] == [];
        assert StandardData(lines) == [] && StandardName(lines) == "";
      } else {
        InterpretLine(InterpretAll(Interpreter("", "", d), lines[..n]), lines[n]);
        TerminatedField(StandardData(lines[..n]), lines[n]);
      }
    }
  }

  lemma TerminatedAppend(data: seq<string>, value: string)
    ensures Terminated(data + [value]) == Terminated(data) + (value + "\n")
  {
    assert (data + [value])[..|data|] == data;
  }

  lemma TerminatedField(data: seq<string>, line: string)
    ensures Terminated(data + FieldData(line)) == Terminated(data) + AddedData(line)
  {
    if FieldData(line) == [] {
      assert data + [] == data && Terminated(data) + "" == Terminated(data);
    } else {
      TerminatedAppend(data, FieldData(line)[0]);
    }
  }

  lemma DispatchData(data: seq<string>, name: string, d: seq<Dispatch>)
    ensures Interpret(Interpreter(Terminated(data), name, d), "") ==
            Interpreter("", "", if data == [] then d else d + [Dispatch(name, Join(data))])
  {
    TerminatedIsJoin(data);
    assert (Join(data) + "\n")[..|Join(data)|] == Join(data);
  }

  /** The blank line after a block dispatches what the standard makes of the block. */
  lemma BlockDispatch(raw: string, d: seq<Dispatch>)
    requires BlankOnlyFirst(Lines(raw))
    ensures InterpretAll(Interpreter("", "", d), Lines(raw) + [""]) == Interpreter("", "", d + StandardOf(raw))
  {
    var lines := Lines(raw);
    BlockState(lines, d);
    assert (lines + [""])[..|lines|] == lines;
    DispatchData(StandardData(lines), StandardName(lines), d);
  }

  // ---- Lines of a whole text ----

  lemma {:induction false} InterpretConcat(s: Interpreter, a: seq<string>, b: seq<string>)
    ensures InterpretAll(s, a + b) == InterpretAll(InterpretAll(s, a), b)
  {
    if b == [] {
      assert a + b == a;
    } else {
      assert (a + b)[..|a + b| - 1] == a + b[..|b| - 1];
      InterpretConcat(s, a, b[..|b| - 1]);
    }
  }

  function LinesOfBlocks(blocks: seq<string>): seq<string> {
    if blocks == [] then []
    else LinesOfBlocks(blocks[..|blocks| - 1]) + (Lines(blocks[|blocks| - 1]) + [""])
  }

  lemma {:induction false} LinesOfGlued(blocks: seq<string>, t: string)
    ensures Lines(Glue(blocks) + t) == LinesOfBlocks(blocks) + Lines(t)
  {
    if blocks == [] {
      assert Glue(blocks) + t == t && [] + Lines(t) == Lines(t);
    } else {
      var front, b := blocks[..|blocks| - 1], blocks[|blocks| - 1];
      assert blocks == front + [b];
      GlueAppend(front, b);
      LinesOfGlued(front, b + "\n" + ("" + "\n" + t));
      assert Glue(blocks) + t == Glue(front) + (b + "\n" + ("" + "\n" + t));
      LinesConcat(b, "" + "\n" + t);
      LinesConcat("", t);
      assert LinesOfBlocks(front) + (Lines(b) + ([""] + Lines(t))) == LinesOfBlocks(blocks) + Lines(t);
    }
  }

  /** A text without a blank line has no empty line except its first and its last. */
  lemma {:induction false} InnerLinesAreNotEmpty(s: string)
    requires FirstBlank(s) == -1
    ensures forall i :: 1 <= i < |Lines(s)| - 1 ==> Lines(s)[i] != ""
  {
    if s != [] {
      var t := s[1..];
      assert forall j :: BlankAt(t, j) ==> BlankAt(s, j + 1);
      InnerLinesAreNotEmpty(t);
      if s[0] == '\n' && t != [] {
        assert t[0] != '\n' by { assert t[0] == '\n' ==> BlankAt(s, 0); }
        assert Lines(t)[0] != "";
      }
    }
  }

  lemma ClosedBlockLines(b: string)
    requires Closes(b)
    ensures BlankOnlyFirst(Lines(b))
  {
    assert forall j :: BlankAt(b + "\n", j) ==> BlankAt(b + "\n\n", j);
    InnerLinesAreNotEmpty(b + "\n");
    LinesConcat(b, "");
    assert b + "\n" + "" == b + "\n";
    assert Lines(b + "\n") == Lines(b) + [""];
    assert forall i :: 1 <= i < |Lines(b)| ==> Lines(b)[i] == Lines(b + "\n")[i];
  }

  /** What each block in turn gives, put together. */
  function Each(blocks: seq<string>, f: string -> seq<Dispatch>): seq<Dispatch> {
    if blocks == [] then [] else Each(blocks[..|blocks| - 1], f) + f(blocks[|blocks| - 1])
  }

  predicate Dispatched(lines: seq<string>, d: seq<Dispatch>) {
    InterpretAll(Interpreter("", "", []), lines) == Interpreter("", "", d)
  }

  lemma OneMoreBlock(lines: seq<string>, d: seq<Dispatch>, b: string)
    requires Dispatched(lines, d) && Closes(b)
    ensures Dispatched(lines + (Lines(b) + [""]), d + StandardOf(b))
  {
    ClosedBlockLines(b);
    BlockDispatch(b, d);
    InterpretConcat(Interpreter("", "", []), lines, Lines(b) + [""]);
  }

  lemma {:induction false} BlocksDispatch(blocks: seq<string>)
    requires forall i :: 0 <= i < |blocks| ==> Closes(blocks[i])
    ensures Dispatched(LinesOfBlocks(blocks), Each(blocks, StandardOf))
  {
    if blocks != [] {
      var front := blocks[..|blocks| - 1];
      BlocksDispatch(front);
      OneMoreBlock(LinesOfBlocks(front), Each(front, StandardOf), blocks[|blocks| - 1]);
    }
  }

  lemma RestDispatchesNothing(first: seq<string>, rest: string, d: seq<Dispatch>)
    requires Dispatched(first, d) && FirstBlank(rest) == -1
    ensures InterpretAll(Interpreter("", "", []), first + Lines(rest)[..|Lines(rest)| - 1]).dispatched == d
  {
    var last := Lines(rest)[..|Lines(rest)| - 1];
    InterpretConcat(Interpreter("", "", []), first, last);
    InnerLinesAreNotEmpty(rest);
    BlockState(last, d);
  }

  lemma EventsOfLines(text: string, first: seq<string>, end: seq<string>)
    requires end != [] && Lines(text) == first + end
    ensures StandardEvents(text) == InterpretAll(Interpreter("", "", []), first + end[..|end| - 1]).dispatched
  {
    assert (first + end)[..|first + end| - 1] == first + end[..|end| - 1];
  }

  lemma DispatchedOfCut(blocks: seq<string>, rest: string)
    requires Cuts(Glue(blocks) + rest, blocks, rest)
    ensures InterpretAll(Interpreter("", "", []), LinesOfBlocks(blocks) + Lines(rest)[..|Lines(rest)| - 1]).dispatched ==
            Each(blocks, StandardOf)
  {
    BlocksDispatch(blocks);
    RestDispatchesNothing(LinesOfBlocks(blocks), rest, Each(blocks, StandardOf));
  }

  /** The standard's events of a text are those of its blocks; what follows the last blank line adds none. */
  lemma StandardEventsOfBlocks(text: string)
    ensures StandardEvents(text) == Each(SplitAtBlanks(text).blocks, StandardOf)
  {
    var blocks, rest := SplitAtBlanks(text).blocks, SplitAtBlanks(text).rest;
    SplitCuts(text);
    DispatchedOfCut(blocks, rest);
    LinesOfGlued(blocks, rest);
    EventsOfLines(text, LinesOfBlocks(blocks), Lines(rest));
  }

  lemma {:induction false} ReaderEventsOfBlocks(blocks: seq<string>)
    ensures Dispatches(Parsed(blocks)) == Each(blocks, ReaderOf)
  {
    if blocks != [] {
      var front, b := blocks[..|blocks| - 1], blocks[|blocks| - 1];
      ReaderEventsOfBlocks(front);
      FilterMapAppend(front, b, ParseBlock);
      assert blocks == front + [b];
    }
  }

  // ---- When the two agree ----

  /** A bare `data` line counts for the standard only; without one the data is the same. */
  lemma {:induction false} DataLinesAmongStandard(lines: seq<string>)
    ensures "data" !in lines ==> StandardData(lines) == DataLines(lines)
    ensures "data" in lines ==> |StandardData(lines)| > |DataLines(lines)|
  {
    if lines != [] {
      assert lines == lines[..|lines| - 1] + [lines[|lines| - 1]];
      DataLinesAmongStandard(lines[..|lines| - 1]);
    }
  }

  lemma {:induction false} LinesAreOneLine(s: string)
    ensures forall i :: 0 <= i < |Lines(s)| ==> OneLine(Lines(s)[i])
  {
    if s != [] {
      LinesAreOneLine(s[1..]);
      var rest := Lines(s[1..]);
      assert OneLine(rest[0]) && forall i :: 1 <= i < |rest| ==> OneLine(rest[i]);
    }
  }

  lemma SuffixIsOneLine(line: string, k: nat)
    requires k <= |line| && OneLine(line)
    ensures OneLine(DropSpace(line[k..]))
  {
  }

  lemma {:induction false} DataIsOneLine(lines: seq<string>)
    requires forall i :: 0 <= i < |lines| ==> OneLine(lines[i])
    ensures forall i :: 0 <= i < |DataLines(lines)| ==> OneLine(DataLines(lines)[i])
    ensures forall i :: 0 <= i < |StandardData(lines)| ==> OneLine(StandardData(lines)[i])
  {
    if lines != [] {
      var n := |lines| - 1;
      DataIsOneLine(lines[..n]);
      if "data:" <= lines[n] {
        SuffixIsOneLine(lines[n], 5);
      }
    }
  }

  lemma JoinIsInjective(v: seq<string>, w: seq<string>)
    requires v != [] && w != [] && Join(v) == Join(w)
    requires forall i :: 0 <= i < |v| ==> OneLine(v[i])
    requires forall i :: 0 <= i < |w| ==> OneLine(w[i])
    ensures v == w
  {
    LinesOfJoin(v);
    LinesOfJoin(w);
  }

  lemma BlockAgreesIff(block: string)
    ensures |ReaderOf(block)| <= |StandardOf(block)|
    ensures ReaderOf(block) == StandardOf(block) <==> SameToBoth(Lines(block))
  {
    var lines := Lines(block);
    DataLinesAmongStandard(lines);
    if "data" in lines && ReaderOf(block) == StandardOf(block) {
      LinesAreOneLine(block);
      DataIsOneLine(lines);
      JoinIsInjective(DataLines(lines), StandardData(lines));
    }
  }

  predicate AllSameToBoth(blocks: seq<string>) {
    forall i :: 0 <= i < |blocks| ==> SameToBoth(Lines(blocks[i]))
  }

  lemma AllSameLast(blocks: seq<string>)
    requires blocks != []
    ensures AllSameToBoth(blocks) <==>
            AllSameToBoth(blocks[..|blocks| - 1]) && SameToBoth(Lines(blocks[|blocks| - 1]))
  {
    var front := blocks[..|blocks| - 1];
    assert forall i :: 0 <= i < |front| ==> front[i] == blocks[i];
  }

  /** The blocks' events so far line up: the standard never has fewer, and they are equal iff all blocks agree. */
  predicate Aligned(blocks: seq<string>, read: seq<Dispatch>, standard: seq<Dispatch>) {
    |read| <= |standard| && (read == standard <==> AllSameToBoth(blocks))
  }

  lemma AlignedNext(blocks: seq<string>, read: seq<Dispatch>, standard: seq<Dispatch>)
    requires blocks != [] && Aligned(blocks[..|blocks| - 1], read, standard)
    ensures Aligned(blocks, read + ReaderOf(blocks[|blocks| - 1]), standard + StandardOf(blocks[|blocks| - 1]))
  {
    var b := blocks[|blocks| - 1];
    BlockAgreesIff(b);
    AllSameLast(blocks);
    ConcatAligned(read, ReaderOf(b), standard, StandardOf(b));
  }

  lemma {:induction false} BlocksAlign(blocks: seq<string>)
    ensures Aligned(blocks, Each(blocks, ReaderOf), Each(blocks, StandardOf))
  {
    if blocks != [] {
      var front := blocks[..|blocks| - 1];
      BlocksAlign(front);
      AlignedNext(blocks, Each(front, ReaderOf), Each(front, StandardOf));
    }
  }

  lemma ConcatAligned(a: seq<Dispatch>, b: seq<Dispatch>, c: seq<Dispatch>, d: seq<Dispatch>)
    requires |a| <= |c| && |b| <= |d|
    ensures a + b == c + d <==> a == c && b == d
  {
    if a + b == c + d {
      assert |a| == |c| && (a + b)[..|a|] == a && (c + d)[..|c|] == c;
      assert (a + b)[|a|..] == b && (c + d)[|c|..] == d;
    }
  }

  /**
   * On text whose only line ending is LF the reader yields exactly what the standard's interpreter
   * dispatches iff every block is the same to both.
   */
  lemma ReaderMeetsStandardIff(text: string)
    requires '\r' !in text
    ensures ReaderEvents(text) == StandardEvents(text) <==>
            AllSameToBoth(SplitAtBlanks(text).blocks)
  {
    StandardEventsOfBlocks(text);
    ReaderEventsOfBlocks(SplitAtBlanks(text).blocks);
    BlocksAlign(SplitAtBlanks(text).blocks);
  }

  // ---- Line by line ----

  /** Lines the reader takes as the standard does: no bare field names, no padded event names. */
  predicate Conforms(line: string) {
    && line != "data" && line != "event"
    && ("event:" <= line ==> Trim(line[6..]) == DropSpace(line[6..]))
  }

  lemma {:induction false} ConformingNames(lines: seq<string>)
    requires forall line :: line in lines ==> Conforms(line)
    ensures SameToBoth(lines) && StandardName(lines) == ReaderName(lines)
  {
    if lines != [] {
      assert Conforms(lines[|lines| - 1]);
      ConformingNames(lines[..|lines| - 1]);
    }
  }

  /** In particular it does on every text all of whose lines conform. */
  lemma ReaderMeetsStandard(text: string)
    requires '\r' !in text
    requires forall line :: line in Lines(text) ==> Conforms(line)
    ensures ReaderEvents(text) == StandardEvents(text)
  {
    var blocks, rest := SplitAtBlanks(text).blocks, SplitAtBlanks(text).rest;
    SplitCuts(text);
    LinesOfGlued(blocks, rest);
    forall i | 0 <= i < |blocks|
      ensures SameToBoth(Lines(blocks[i]))
    {
      BlockLinesAmong(blocks, i);
      ConformingNames(Lines(blocks[i]));
    }
    ReaderMeetsStandardIff(text);
  }

  lemma {:induction false} BlockLinesAmong(blocks: seq<string>, i: nat)
    requires i < |blocks|
    ensures forall line :: line in Lines(blocks[i]) ==> line in LinesOfBlocks(blocks)
  {
    if i < |blocks| - 1 {
      BlockLinesAmong(blocks[..|blocks| - 1], i);
    }
  }

  /** A text in which `line` comes after an event name and before data. */
  function Witness(line: string): string {
    Join(["event:a", line, "data:x"]) + "\n\n"
  }

  lemma WitnessBlocks(line: string)
    requires OneLine(line) && line != ""
    ensures SplitAtBlanks(Witness(line)).blocks == [Join(["event:a", line, "data:x"])]
    ensures Lines(Join(["event:a", line, "data:x"])) == ["event:a", line, "data:x"]
  {
    var lines := ["event:a", line, "data:x"];
    var frame := Join(lines);
    LinesOfJoin(lines);
    JoinCloses(lines);
    GlueAppend([], frame);
    assert [] + [frame] == [frame];
    assert Glue([frame]) + "" == Witness(line);
    CutsAreUnique(Witness(line), [frame], "");
  }

  lemma FieldsAppend(lines: seq<string>, x: string)
    ensures DataLines(lines + [x]) == DataLines(lines) + if "data:" <= x then [DropSpace(x[5..])] else []
    ensures EventName(lines + [x]) == if "event:" <= x then Some(Trim(x[6..])) else EventName(lines)
    ensures StandardName(lines + [x]) == TypeAfter(StandardName(lines), x)
  {
    assert (lines + [x])[..|lines|] == lines;
  }

  lemma WitnessNames(line: string)
    ensures SameToBoth(["event:a", line, "data:x"]) <==> Conforms(line)
  {
    var lines := ["event:a", line, "data:x"];
    assert lines == [] + ["event:a"] + [line] + ["data:x"] && lines[1] == line;
    FieldsAppend([], "event:a");
    FieldsAppend([] + ["event:a"], line);
    FieldsAppend([] + ["event:a"] + [line], "data:x");
    assert "data:"[0] == 'd' && "event:"[0] == 'e';
    assert "event:a"[6..] == "a" && "event:" <= "event:a" && "data:" <= "data:x";
    TrimmedIsFixed("a");
  }

  /** Every line that does not conform makes the two disagree on some text, here always the same one around it. */
  lemma AgreementNeedsConformance(line: string)
    requires OneLine(line) && line != "" && '\r' !in line
    ensures Conforms(line) <==> ReaderEvents(Witness(line)) == StandardEvents(Witness(line))
  {
    WitnessBlocks(line);
    WitnessNames(line);
    NoReturns(["event:a", line, "data:x"]);
    ReaderMeetsStandardIff(Witness(line));
  }

  lemma {:induction false} NoReturns(lines: seq<string>)
    requires forall line :: line in lines ==> '\r' !in line
    ensures '\r' !in Join(lines)
  {
    if |lines| > 1 {
      NoReturns(lines[1..]);
    }
  }
}
