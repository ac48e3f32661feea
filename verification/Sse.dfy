/** The client's Server-Sent-Events reader: an incremental buffer loop and a block parser. */
module Sse {
  import opened Common

  datatype SseEvent = SseEvent(event: Option<string>, data: string)

  // ---- The string operations the reader uses ----

  /** `replace(/^ /, '')`. */
  function DropSpace(s: string): string {
    if s != [] && s[0] == ' ' then s[1..] else s
  }

  /** `split('\n')`: never empty. */
  function Lines(s: string): (lines: seq<string>)
    ensures lines != []
  {
    if s == [] then [[]]
    else
      var rest := Lines(s[1..]);
      if s[0] == '\n' then [[]] + rest else [[s[0]] + rest[0]] + rest[1..]
  }

  /** `join('\n')`. */
  function Join(lines: seq<string>): string {
    if lines == [] then []
    else if |lines| == 1 then lines[0]
    else lines[0] + "\n" + Join(lines[1..])
  }

  predicate BlankAt(s: string, i: int) {
    0 <= i && i + 2 <= |s| && s[i] == '\n' && s[i + 1] == '\n'
  }

  /** `indexOf('\n\n')`. */
  function FirstBlank(s: string): (i: int)
    ensures i == -1 || BlankAt(s, i)
    ensures forall j :: BlankAt(s, j) ==> 0 <= i <= j
  {
    FirstBlankFrom(s, 0)
  }

  function FirstBlankFrom(s: string, from: nat): (i: int)
    ensures i == -1 || (from <= i && BlankAt(s, i))
    ensures forall j :: from <= j && BlankAt(s, j) ==> 0 <= i <= j
    decreases |s| - from
  {
    if from + 2 > |s| then -1
    else if s[from] == '\n' && s[from + 1] == '\n' then from
    else FirstBlankFrom(s, from + 1)
  }

  // ---- One block ----

  function DataLines(lines: seq<string>): seq<string> {
    if lines == [] then []
    else
      var n := |lines| - 1;
      DataLines(lines[..n]) + if "data:" <= lines[n] then [DropSpace(lines[n][5..])] else []
  }

  function EventName(lines: seq<string>): Option<string> {
    if lines == [] then None
    else
      var n := |lines| - 1;
      if "event:" <= lines[n] then Some(Trim(lines[n][6..])) else EventName(lines[..n])
  }

  function ParseBlock(raw: string): Option<SseEvent> {
    var data := DataLines(Lines(raw));
    if data == [] then None else Some(SseEvent(EventName(Lines(raw)), Join(data)))
  }

  method ParseSseBlock(raw: string) returns (r: Option<SseEvent>)
    ensures r == ParseBlock(raw)
  {
    var event: Option<string> := None;
    var dataLines := [];
    var lines := Lines(raw);
    for i := 0 to |lines|
      invariant event == EventName(lines[..i])
      invariant dataLines == DataLines(lines[..i])
    {
      var line := lines[i];
      assert lines[..i + 1][..i] == lines[..i];
      if "event:" <= line {
        event := Some(Trim(line[6..]));
        assert line[0] == 'e' && "data:"[0] == 'd';
      } else if "data:" <= line {
        dataLines := dataLines + [DropSpace(line[5..])];
      }
    }
    assert lines[..|lines|] == lines;
    if |dataLines| == 0 {
      return None;
    }
    r := Some(SseEvent(event, Join(dataLines)));
  }

  // ---- The reference: one split of the whole text at its blank lines, from the left ----

  datatype Split = Split(blocks: seq<string>, rest: string)

  function SplitAtBlanks(s: string): Split
    decreases |s|
  {
    var i := FirstBlank(s);
    if i == -1 then Split([], s)
    else
      var tail := SplitAtBlanks(s[i + 2..]);
      Split([s[..i]] + tail.blocks, tail.rest)
  }

  function Glue(blocks: seq<string>): string {
    if blocks == [] then [] else blocks[0] + "\n\n" + Glue(blocks[1..])
  }

  /** `b` is what precedes the first blank line of a text that starts with it. */
  predicate Closes(b: string) {
    FirstBlank(b + "\n\n") == |b|
  }

  lemma BlanksInPrefix(a: string, b: string)
    requires Closes(a)
    ensures FirstBlank(a + "\n\n" + b) == |a|
  {
    var s, p := a + "\n\n" + b, a + "\n\n";
    assert BlankAt(s, |a|);
    if FirstBlank(s) < |a| {
      assert BlankAt(p, FirstBlank(s));
    }
  }

  lemma FirstBlankCloses(s: string)
    requires FirstBlank(s) != -1
    ensures Closes(s[..FirstBlank(s)])
  {
    var i := FirstBlank(s);
    var p := s[..i] + "\n\n";
    assert p == s[..i + 2];
    assert BlankAt(p, i);
    assert BlankAt(s, FirstBlank(p));
  }

  /** `blocks` and `rest` cut `s` at blank lines, each block at the first blank line there is. */
  predicate Cuts(s: string, blocks: seq<string>, rest: string) {
    && Glue(blocks) + rest == s
    && (forall i :: 0 <= i < |blocks| ==> Closes(blocks[i]))
    && FirstBlank(rest) == -1
  }

  lemma CutsTail(s: string, blocks: seq<string>, rest: string)
    requires blocks != [] && Cuts(s, blocks, rest)
    ensures FirstBlank(s) == |blocks[0]| && s[..|blocks[0]|] == blocks[0]
    ensures Cuts(s[|blocks[0]| + 2..], blocks[1..], rest)
  {
    var tail := Glue(blocks[1..]) + rest;
    assert s == blocks[0] + "\n\n" + tail;
    BlanksInPrefix(blocks[0], tail);
  }

  /** There is only one way to cut a text. */
  lemma {:induction false} CutsAreUnique(s: string, blocks: seq<string>, rest: string)
    requires Cuts(s, blocks, rest)
    ensures SplitAtBlanks(s) == Split(blocks, rest)
    decreases |blocks|
  {
    if blocks == [] {
      assert s == rest;
    } else {
      CutsTail(s, blocks, rest);
      CutsAreUnique(s[|blocks[0]| + 2..], blocks[1..], rest);
      assert blocks == [blocks[0]] + blocks[1..];
    }
  }

  lemma CutsCons(a: string, t: string, blocks: seq<string>, rest: string)
    requires Closes(a) && Cuts(t, blocks, rest)
    ensures Cuts(a + "\n\n" + t, [a] + blocks, rest)
  {
  }

  lemma {:induction false} CutExists(s: string) returns (blocks: seq<string>, rest: string)
    ensures Cuts(s, blocks, rest)
    decreases |s|
  {
    var i := FirstBlank(s);
    if i == -1 {
      blocks, rest := [], s;
      assert Glue([]) + s == s;
    } else {
      FirstBlankCloses(s);
      blocks, rest := CutExists(s[i + 2..]);
      CutsCons(s[..i], s[i + 2..], blocks, rest);
      assert s == s[..i] + "\n\n" + s[i + 2..];
      blocks := [s[..i]] + blocks;
    }
  }

  /** Every text is cut by `SplitAtBlanks`, so the blocks with their separators and the rest make it up. */
  lemma SplitCuts(s: string)
    ensures Cuts(s, SplitAtBlanks(s).blocks, SplitAtBlanks(s).rest)
  {
    var blocks, rest := CutExists(s);
    CutsAreUnique(s, blocks, rest);
  }

  lemma {:induction false} GlueAppend(blocks: seq<string>, b: string)
    ensures Glue(blocks + [b]) == Glue(blocks) + b + "\n\n"
  {
    if blocks == [] {
      assert [b][1..] == [];
    } else {
      GlueAppend(blocks[1..], b);
      assert (blocks + [b])[1..] == blocks[1..] + [b];
    }
  }

  // ---- The stream reader ----

  function Concat(chunks: seq<string>): string {
    if chunks == [] then [] else Concat(chunks[..|chunks| - 1]) + chunks[|chunks| - 1]
  }

  /** The events of a sequence of blocks: blocks without data yield nothing. */
  function Parsed(blocks: seq<string>): seq<SseEvent> {
    FilterMap(blocks, ParseBlock)
  }

  /** The reader has taken `blocks` out of `text`, and `buffer` is what it still holds. */
  predicate Reading(text: string, blocks: seq<string>, buffer: string) {
    && Glue(blocks) + buffer == text
    && (forall i :: 0 <= i < |blocks| ==> Closes(blocks[i]))
  }

  lemma ReadOneBlock(text: string, blocks: seq<string>, buffer: string)
    requires Reading(text, blocks, buffer) && FirstBlank(buffer) != -1
    ensures Reading(text, blocks + [buffer[..FirstBlank(buffer)]], buffer[FirstBlank(buffer) + 2..])
  {
    var i := FirstBlank(buffer);
    GlueAppend(blocks, buffer[..i]);
    FirstBlankCloses(buffer);
    assert buffer == buffer[..i] + "\n\n" + buffer[i + 2..];
  }

  /**
   * The reader over the chunks the network delivers, in whatever way it cut the text. It yields the
   * events of the whole text's blocks, keeps what follows the last blank line, and loses nothing.
   */
  method StreamSse(chunks: seq<string>) returns (events: seq<SseEvent>, buffer: string)
    ensures events == Parsed(SplitAtBlanks(Concat(chunks)).blocks)
    ensures buffer == SplitAtBlanks(Concat(chunks)).rest
    ensures FirstBlank(buffer) == -1
    ensures Glue(SplitAtBlanks(Concat(chunks)).blocks) + buffer == Concat(chunks)
  {
    buffer, events := "", [];
    ghost var blocks: seq<string> := [];
    for i := 0 to |chunks|
      invariant Reading(Concat(chunks[..i]), blocks, buffer)
      invariant events == Parsed(blocks)
      invariant FirstBlank(buffer) == -1
    {
      ghost var text := Concat(chunks[..i + 1]);
      assert chunks[..i + 1][..i] == chunks[..i];
      assert Glue(blocks) + (buffer + chunks[i]) == (Glue(blocks) + buffer) + chunks[i];
      buffer := buffer + chunks[i];
      var boundary := FirstBlank(buffer);
      while boundary != -1
        invariant boundary == FirstBlank(buffer)
        invariant Reading(text, blocks, buffer)
        invariant events == Parsed(blocks)
        decreases |buffer|
      {
        var parsed := ParseSseBlock(buffer[..boundary]);
        ReadOneBlock(text, blocks, buffer);
        FilterMapAppend(blocks, buffer[..boundary], ParseBlock);
        blocks := blocks + [buffer[..boundary]];
        buffer := buffer[boundary + 2..];
        if parsed.Some? {
          events := events + [parsed.value];
        }
        boundary := FirstBlank(buffer);
      }
    }
    assert chunks[..|chunks|] == chunks;
    CutsAreUnique(Concat(chunks), blocks, buffer);
  }
}
