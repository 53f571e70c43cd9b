/** The event stream: frames as the server prints them, and the client's incremental parser. */
module SseStream {
  import opened Sequences
  import opened Wrappers

  datatype Frame = Frame(event: string, data: string)

  // ---------------------------------------------------------------- trimming

  /** White space and line terminators as String.prototype.trim removes them. */
  predicate IsSpace(c: char) {
    c as int in {9, 10, 11, 12, 13, 32, 160, 5760, 8232, 8233, 8239, 8287, 12288, 65279} || 8192 <= c as int <= 8202
  }

  function TrimStart(s: string): string {
    if s != "" && IsSpace(s[0]) then TrimStart(s[1..]) else s
  }

  function TrimEnd(s: string): string {
    if s != "" && IsSpace(s[|s|-1]) then TrimEnd(s[..|s|-1]) else s
  }

  function Trim(s: string): string {
    TrimEnd(TrimStart(s))
  }

  predicate Trimmed(s: string) {
    s == "" || (!IsSpace(s[0]) && !IsSpace(s[|s|-1]))
  }

  lemma {:induction false} TrimStartProperties(s: string)
    ensures var t := TrimStart(s); t == "" || !IsSpace(t[0])
    ensures forall c :: c in TrimStart(s) ==> c in s
    ensures s != "" && !IsSpace(s[|s|-1]) ==> TrimStart(s) != "" && TrimStart(s)[|TrimStart(s)|-1] == s[|s|-1]
  {
    if s != "" && IsSpace(s[0]) { TrimStartProperties(s[1..]); }
  }

  lemma {:induction false} TrimEndProperties(s: string)
    ensures var t := TrimEnd(s); t == "" || !IsSpace(t[|t|-1])
    ensures forall c :: c in TrimEnd(s) ==> c in s
    ensures var t := TrimEnd(s); t != "" ==> t[0] == s[0]
  {
    if s != "" && IsSpace(s[|s|-1]) { TrimEndProperties(s[..|s|-1]); }
  }

  /** Trimming yields trimmed text made of characters of the input, and leaves trimmed text alone. */
  lemma TrimProperties(s: string)
    ensures Trimmed(Trim(s)) && (forall c :: c in Trim(s) ==> c in s) && (Trimmed(s) ==> Trim(s) == s)
  {
    TrimStartProperties(s);
    TrimEndProperties(TrimStart(s));
  }

  lemma TrimLeadingBlank(s: string)
    ensures Trim(" " + s) == Trim(s)
  {
    assert (" " + s)[1..] == s;
  }

  lemma TrimKeepsInk(s: string)
    requires s != "" && !IsSpace(s[0])
    ensures Trim(s) != ""
  {
    TrimEndKeepsInk(s);
  }

  lemma {:induction false} TrimEndKeepsInk(s: string)
    requires s != "" && !IsSpace(s[0])
    ensures TrimEnd(s) != ""
  {
    if IsSpace(s[|s|-1]) { TrimEndKeepsInk(s[..|s|-1]); }
  }

  // ---------------------------------------------------------------- splitting

  /** Position of the first blank line, that is of two line feeds in a row, or the length of the text. */
  function FirstBreak(s: string): (i: nat)
    ensures i <= |s|
    ensures i < |s| ==> i + 1 < |s| && s[i] == '\n' && s[i+1] == '\n'
    ensures forall k :: 0 <= k < i && k + 1 < |s| ==> !(s[k] == '\n' && s[k+1] == '\n')
  {
    if |s| < 2 then |s| else if s[0] == '\n' && s[1] == '\n' then 0 else 1 + FirstBreak(s[1..])
  }

  /** The complete blocks of the buffer, each closed by a blank line. */
  function Blocks(s: string): seq<string>
    decreases |s|
  {
    var i := FirstBreak(s);
    if i == |s| then [] else [s[..i]] + Blocks(s[i+2..])
  }

  /** What is left after the last blank line. */
  function Leftover(s: string): string
    decreases |s|
  {
    var i := FirstBreak(s);
    if i == |s| then s else Leftover(s[i+2..])
  }

  function FirstFeed(s: string): (i: nat)
    ensures i <= |s| && (i < |s| ==> s[i] == '\n') && forall k :: 0 <= k < i ==> s[k] != '\n'
  {
    if s == "" || s[0] == '\n' then 0 else 1 + FirstFeed(s[1..])
  }

  function Lines(s: string): (ls: seq<string>)
    ensures ls != [] && forall l :: l in ls ==> '\n' !in l
    decreases |s|
  {
    var i := FirstFeed(s);
    if i == |s| then [s] else [s[..i]] + Lines(s[i+1..])
  }

  // ---------------------------------------------------------------- one block

  /** One line updates the event type or the data. */
  function ReadLine(f: Frame, line: string): Frame {
    if StartsWith(line, "event:") then f.(event := Trim(line[6..]))
    else if StartsWith(line, "data:") then f.(data := Trim(line[5..]))
    else f
  }

  function ReadLines(f: Frame, lines: seq<string>): Frame {
    if lines == [] then f else ReadLine(ReadLines(f, lines[..|lines|-1]), lines[|lines|-1])
  }

  function ReadBlock(block: string): Option<Frame> {
    if Trim(block) == "" then None else
    var f := ReadLines(Frame("message", ""), Lines(block));
    if f.data == "" then None else Some(f)
  }

  /** The text of a line behind its prefix. */
  function Behind(l: string, p: string): string
    requires StartsWith(l, p)
  {
    Trim(l[|p|..])
  }

  ghost predicate LastWith(lines: seq<string>, p: string, i: int) {
    0 <= i < |lines| && StartsWith(lines[i], p) && forall k :: i < k < |lines| ==> !StartsWith(lines[k], p)
  }

  /**
   * `text` is what stands behind the prefix on the last line that has it, trimmed; without such a line, the default.
   */
  ghost predicate LastText(lines: seq<string>, p: string, default: string, text: string) {
    || (exists i :: LastWith(lines, p, i) && text == Behind(lines[i], p))
    || (text == default && forall l :: l in lines ==> !StartsWith(l, p))
  }

  lemma OneMoreLine(lines: seq<string>, l: string, p: string, default: string, text: string)
    requires LastText(lines, p, default, text)
    ensures LastText(lines + [l], p, default, if StartsWith(l, p) then Behind(l, p) else text)
  {
    hide Behind, StartsWith;
    var all := lines + [l];
    if StartsWith(l, p) {
      assert LastWith(all, p, |lines|);
    } else if i :| LastWith(lines, p, i) && text == Behind(lines[i], p) {
      assert all[i] == lines[i] && LastWith(all, p, i);
    }
  }

  /** The last line of each kind counts, and lines of neither kind do not. */
  lemma {:induction false} LastLineCounts(f: Frame, lines: seq<string>)
    ensures LastText(lines, "event:", f.event, ReadLines(f, lines).event)
    ensures LastText(lines, "data:", f.data, ReadLines(f, lines).data)
  {
    if lines != [] {
      hide LastText, Behind, StartsWith, Trim;
      var init, last := lines[..|lines|-1], lines[|lines|-1];
      LastLineCounts(f, init);
      ReadLineIs(ReadLines(f, init), last);
      OneMoreLine(init, last, "event:", f.event, ReadLines(f, init).event);
      OneMoreLine(init, last, "data:", f.data, ReadLines(f, init).data);
      assert lines == init + [last];
    }
  }

  lemma ReadLineIs(f: Frame, l: string)
    ensures ReadLine(f, l).event == if StartsWith(l, "event:") then Behind(l, "event:") else f.event
    ensures ReadLine(f, l).data == if StartsWith(l, "data:") then Behind(l, "data:") else f.data
  {
    hide Trim;
    assert StartsWith(l, "event:") ==> l[0] == l[..6][0] == 'e';
    assert StartsWith(l, "data:") ==> l[0] == l[..5][0] == 'd';
  }

  lemma {:induction false} LineOfBlock(s: string, l: string)
    requires l in Lines(s)
    ensures forall c :: c in l ==> c in s
    decreases |s|
  {
    var i := FirstFeed(s);
    if i < |s| && l != s[..i] {
      LineOfBlock(s[i+1..], l);
    }
  }

  lemma {:induction false} OnlySpacesTrimAway(s: string)
    requires TrimEnd(s) == ""
    ensures forall c :: c in s ==> IsSpace(c)
  {
    if s != "" {
      OnlySpacesTrimAway(s[..|s|-1]);
      assert s == s[..|s|-1] + [s[|s|-1]];
    }
  }

  lemma {:induction false} InkRemains(s: string, c: char)
    requires c in s && !IsSpace(c)
    ensures c in TrimStart(s) && Trim(s) != ""
  {
    if IsSpace(s[0]) { InkRemains(s[1..], c); }
    if Trim(s) == "" { OnlySpacesTrimAway(TrimStart(s)); }
  }

  /**
   * A block shows a frame exactly when its last data line has text; the frame carries that text, and the event type of
   * the last event line, which is "message" without one.
   */
  lemma BlockMeaning(block: string)
    ensures ReadBlock(block).None? <==> LastText(Lines(block), "data:", "", "")
    ensures ReadBlock(block).Some? ==>
      && LastText(Lines(block), "event:", "message", ReadBlock(block).value.event)
      && LastText(Lines(block), "data:", "", ReadBlock(block).value.data)
  {
    hide Trim;
    var lines := Lines(block);
    var f := ReadLines(Frame("message", ""), lines);
    LastLineCounts(Frame("message", ""), lines);
    TextIsUnique(lines, "data:", "", f.data, "");
    hide Lines, ReadLines;
    if f.data != "" {
      var i :| LastWith(lines, "data:", i) && f.data == Behind(lines[i], "data:");
      DataLineIsInk(block, lines[i]);
    }
  }

  lemma DataLineIsInk(block: string, l: string)
    requires l in Lines(block) && StartsWith(l, "data:")
    ensures Trim(block) != ""
  {
    hide Trim, Lines;
    LineOfBlock(block, l);
    assert l[0] == l[..5][0] == 'd';
    InkRemains(block, 'd');
  }

  lemma TextIsUnique(lines: seq<string>, p: string, default: string, a: string, b: string)
    requires LastText(lines, p, default, a)
    ensures LastText(lines, p, default, b) <==> a == b
  {
    hide Behind, StartsWith;
    if LastText(lines, p, default, b) {
      if i :| LastWith(lines, p, i) && a == Behind(lines[i], p) {
        assert lines[i] in lines;
        var j :| LastWith(lines, p, j) && b == Behind(lines[j], p);
        assert i == j;
      }
    }
  }

  function Frames(blocks: seq<string>): seq<Frame> {
    if blocks == [] then [] else
    match ReadBlock(blocks[|blocks|-1])
    case None => Frames(blocks[..|blocks|-1])
    case Some(f) => Frames(blocks[..|blocks|-1]) + [f]
  }

  // ---------------------------------------------------------------- the client

  /** The frames and the buffer that a stream of text leaves behind when it arrives in one piece. */
  function Parse(text: string): (seq<Frame>, string) {
    (Frames(Blocks(text)), Leftover(text))
  }

  class Client {
    var buffer: string
    var messages: seq<Frame>

    /** No complete block is left in the buffer. */
    ghost predicate Valid()
      reads this
    {
      FirstBreak(buffer) == |buffer|
    }

    constructor ()
      ensures Valid() && buffer == "" && messages == []
    {
      buffer, messages := "", [];
    }

    /** One chunk of decoded text, as the reader loop handles it. */
    method Feed(chunk: string)
      requires Valid()
      modifies this
      ensures Valid()
      ensures buffer == Leftover(old(buffer) + chunk)
      ensures messages == old(messages) + Frames(Blocks(old(buffer) + chunk))
    {
      hide FirstBreak, Blocks, Leftover, ReadBlock;
      buffer := buffer + chunk;
      var parts, rest := Split(buffer);
      buffer := rest;
      for k := 0 to |parts|
        invariant buffer == rest && messages == old(messages) + Frames(parts[..k])
      {
        assert parts[..k+1][..k] == parts[..k];
        var frame := ParseBlock(parts[k]);
        if frame.Some? {
          messages := messages + [frame.value];
        }
      }
      assert parts[..|parts|] == parts;
    }

    /** The reader loop over all chunks until the stream ends. */
    method Consume(chunks: seq<string>)
      requires Valid()
      modifies this
      ensures Valid()
      ensures buffer == Leftover(old(buffer) + Concat(chunks))
      ensures messages == old(messages) + Frames(Blocks(old(buffer) + Concat(chunks)))
    {
      hide FirstBreak, Blocks, Leftover, Frames;
      ghost var before := buffer;
      NothingNew(before);
      assert before + Concat(chunks[..0]) == before;
      for k := 0 to |chunks|
        invariant Valid() && buffer == Leftover(before + Concat(chunks[..k]))
        invariant messages == old(messages) + Frames(Blocks(before + Concat(chunks[..k])))
      {
        ghost var seen := before + Concat(chunks[..k]);
        assert chunks[..k+1][..k] == chunks[..k];
        assert before + Concat(chunks[..k+1]) == seen + chunks[k];
        SplitAnywhere(seen, chunks[k]);
        FramesConcat(Blocks(seen), Blocks(Leftover(seen) + chunks[k]));
        Feed(chunks[k]);
      }
      assert chunks[..|chunks|] == chunks;
    }
  }

  /** The split of the buffer at blank lines: complete blocks and the last piece. */
  method Split(text: string) returns (parts: seq<string>, rest: string)
    ensures parts == Blocks(text) && rest == Leftover(text) && FirstBreak(rest) == |rest|
  {
    hide Blocks, Leftover;
    parts, rest := [], text;
    var i := FirstBreak(rest);
    while i < |rest|
      invariant i == FirstBreak(rest) <= |rest|
      invariant Blocks(text) == parts + Blocks(rest) && Leftover(text) == Leftover(rest)
      decreases |rest|
    {
      BlocksAt(rest);
      parts := parts + [rest[..i]];
      rest := rest[i+2..];
      i := FirstBreak(rest);
    }
    BlocksAt(rest);
  }

  lemma BlocksAt(s: string)
    ensures FirstBreak(s) == |s| ==> Blocks(s) == [] && Leftover(s) == s
    ensures var i := FirstBreak(s);
      i < |s| ==> Blocks(s) == [s[..i]] + Blocks(s[i+2..]) && Leftover(s) == Leftover(s[i+2..])
  {
    hide FirstBreak;
  }

  lemma NothingNew(s: string)
    requires FirstBreak(s) == |s|
    ensures Frames(Blocks(s)) == [] && Leftover(s) == s
  {
    BlocksAt(s);
  }

  method ParseBlock(block: string) returns (r: Option<Frame>)
    ensures r == ReadBlock(block)
  {
    if Trim(block) == "" {
      return None;
    }
    var eventType, dataStr := "message", "";
    var lines := Lines(block);
    for i := 0 to |lines|
      invariant Frame(eventType, dataStr) == ReadLines(Frame("message", ""), lines[..i])
    {
      assert lines[..i+1][..i] == lines[..i];
      if StartsWith(lines[i], "event:") {
        eventType := Trim(lines[i][6..]);
      } else if StartsWith(lines[i], "data:") {
        dataStr := Trim(lines[i][5..]);
      }
    }
    assert lines[..|lines|] == lines;
    r := if dataStr == "" then None else Some(Frame(eventType, dataStr));
  }

  function Concat(chunks: seq<string>): string {
    if chunks == [] then "" else Concat(chunks[..|chunks|-1]) + chunks[|chunks|-1]
  }

  // ---------------------------------------------------------------- chunking does not matter

  lemma {:induction false} BreakStays(s: string, t: string)
    requires FirstBreak(s) < |s|
    ensures FirstBreak(s + t) == FirstBreak(s)
  {
    assert forall k :: 0 <= k <= FirstBreak(s) + 1 ==> (s + t)[k] == s[k];
  }

  lemma {:induction false} FramesConcat(a: seq<string>, b: seq<string>)
    ensures Frames(a + b) == Frames(a) + Frames(b)
  {
    if b == [] {
      assert a + b == a;
    } else {
      FramesConcat(a, b[..|b|-1]);
      assert (a + b)[..|a + b|-1] == a + b[..|b|-1];
    }
  }

  /** Splitting what has arrived and then the leftover with the rest is splitting the whole text. */
  lemma {:induction false} SplitAnywhere(s: string, t: string)
    ensures Blocks(s + t) == Blocks(s) + Blocks(Leftover(s) + t)
    ensures Leftover(s + t) == Leftover(Leftover(s) + t)
    decreases |s|
  {
    hide Blocks, Leftover, FirstBreak;
    var i := FirstBreak(s);
    BlocksAt(s);
    if i < |s| {
      BreakStays(s, t);
      BlocksAt(s + t);
      SplitAnywhere(s[i+2..], t);
      assert (s + t)[..i] == s[..i] && (s + t)[i+2..] == s[i+2..] + t;
    }
  }

  // ---------------------------------------------------------------- the server

  function Print(f: Frame): string {
    "event: " + f.event + "\ndata: " + f.data + "\n\n"
  }

  function PrintAll(fs: seq<Frame>): string {
    if fs == [] then "" else PrintAll(fs[..|fs|-1]) + Print(fs[|fs|-1])
  }

  /** A one-line, trimmed event name and a one-line, trimmed, non-empty payload. */
  predicate Clean(f: Frame) {
    '\n' !in f.event && '\n' !in f.data && Trimmed(f.event) && Trimmed(f.data) && f.data != ""
  }

  lemma PrintedBlock(f: Frame)
    requires Clean(f)
    ensures var body := "event: " + f.event + "\ndata: " + f.data;
      FirstBreak(Print(f)) == |body| && Print(f)[..|body|] == body && Print(f)[|body|+2..] == ""
  {
    var head := "event: " + f.event;
    var body := head + "\ndata: " + f.data;
    var text := Print(f);
    assert text == body + "\n\n";
    assert text[|body|] == '\n' && text[|body|+1] == '\n';
    forall k | 0 <= k < |body| ensures !(text[k] == '\n' && text[k+1] == '\n') {
      if k < |head| {
        assert text[k] == head[k];
        assert head[k] != '\n' by { if k >= 7 { assert head[k] == f.event[k-7]; } }
      } else if k == |head| {
        assert text[k+1] == 'd';
      } else if k >= |head| + 7 {
        assert text[k] == f.data[k - |head| - 7];
      } else {
        assert text[k] == "\ndata: "[k - |head|];
      }
    }
  }

  lemma {:induction false} LinesOfTwo(a: string, b: string)
    requires '\n' !in a && '\n' !in b
    ensures Lines(a + "\n" + b) == [a, b]
  {
    var s := a + "\n" + b;
    assert FirstFeed(s) == |a| by {
      assert s[|a|] == '\n';
      assert forall k :: 0 <= k < |a| ==> s[k] == a[k];
    }
    assert s[..|a|] == a && s[|a|+1..] == b;
    assert FirstFeed(b) == |b|;
  }

  lemma ReadPrintedBlock(f: Frame)
    requires Clean(f)
    ensures ReadBlock("event: " + f.event + "\ndata: " + f.data) == Some(f)
  {
    hide Trim, Trimmed, Lines;
    var a, b := "event: " + f.event, "data: " + f.data;
    var block := "event: " + f.event + "\ndata: " + f.data;
    assert block == a + "\n" + b;
    assert '\n' !in a && '\n' !in b;
    LinesOfTwo(a, b);
    TrimKeepsInk(block);
    assert StartsWith(a, "event:") && a[6..] == " " + f.event;
    assert !StartsWith(b, "event:") && StartsWith(b, "data:") && b[5..] == " " + f.data;
    TrimLeadingBlank(f.event);
    TrimLeadingBlank(f.data);
    TrimProperties(f.event);
    TrimProperties(f.data);
    var start := Frame("message", "");
    assert [a, b][..1] == [a] && [a][..0] == [];
    assert ReadLines(start, [a]) == ReadLine(start, a);
  }

  lemma ParsePrinted(f: Frame)
    requires Clean(f)
    ensures Blocks(Print(f)) == ["event: " + f.event + "\ndata: " + f.data] && Leftover(Print(f)) == ""
    ensures Frames(Blocks(Print(f))) == [f]
  {
    PrintedBlock(f);
    ReadPrintedBlock(f);
    var block := "event: " + f.event + "\ndata: " + f.data;
    assert Blocks("") == [] && Leftover("") == "";
    assert [block][..0] == [];
  }

  lemma {:induction false} ParsePrintedList(fs: seq<Frame>)
    requires forall i :: 0 <= i < |fs| ==> Clean(fs[i])
    ensures Parse(PrintAll(fs)) == (fs, "")
  {
    hide Blocks, Leftover, Print, Clean;
    if fs == [] {
      BlocksAt("");
    } else {
      var init, last := fs[..|fs|-1], fs[|fs|-1];
      ParsePrintedList(init);
      ParsePrinted(last);
      SplitAnywhere(PrintAll(init), Print(last));
      assert "" + Print(last) == Print(last);
      FramesConcat(Blocks(PrintAll(init)), Blocks(Print(last)));
      assert fs == init + [last];
    }
  }

  /** Whatever arrives, the client only ever shows clean frames. */
  lemma {:induction false} ReadLinesClean(lines: seq<string>)
    requires forall l :: l in lines ==> '\n' !in l
    ensures var f := ReadLines(Frame("message", ""), lines);
      '\n' !in f.event && '\n' !in f.data && Trimmed(f.event) && Trimmed(f.data)
  {
    if lines != [] {
      var init, last := lines[..|lines|-1], lines[|lines|-1];
      ReadLinesClean(init);
      assert last in lines;
      if StartsWith(last, "event:") { TrimProperties(last[6..]); }
      if StartsWith(last, "data:") { TrimProperties(last[5..]); }
    }
  }

  lemma {:induction false} FramesAreClean(blocks: seq<string>)
    ensures forall f :: f in Frames(blocks) ==> Clean(f)
  {
    if blocks != [] {
      FramesAreClean(blocks[..|blocks|-1]);
      ReadLinesClean(Lines(blocks[|blocks|-1]));
    }
  }

  /** Printing and parsing is the identity exactly on clean frames. */
  lemma RoundTripIffClean(fs: seq<Frame>)
    ensures Parse(PrintAll(fs)) == (fs, "") <==> forall i :: 0 <= i < |fs| ==> Clean(fs[i])
  {
    if forall i :: 0 <= i < |fs| ==> Clean(fs[i]) {
      ParsePrintedList(fs);
    }
    FramesAreClean(Blocks(PrintAll(fs)));
  }

  /** However the transport cuts the printed stream into chunks, a new client receives exactly the printed frames. */
  method Deliver(fs: seq<Frame>, chunks: seq<string>) returns (client: Client)
    requires Concat(chunks) == PrintAll(fs) && forall i :: 0 <= i < |fs| ==> Clean(fs[i])
    ensures fresh(client) && client.messages == fs && client.buffer == ""
  {
    hide Blocks, Leftover, Frames, FirstBreak, Print, PrintAll, Concat;
    client := new Client();
    client.Consume(chunks);
    assert "" + Concat(chunks) == PrintAll(fs);
    ParsePrintedList(fs);
  }
}
