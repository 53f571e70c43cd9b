/** What the event stream's text functions do to a text: what is cut away, and how the pieces fit together again. */
module StreamMeaning {
  import opened SseStream

  // ---------------------------------------------------------------- trimming

  predicate AllSpace(s: string) {
    forall c :: c in s ==> IsSpace(c)
  }

  lemma {:induction false} TrimStartCuts(s: string) returns (a: string)
    ensures s == a + TrimStart(s) && AllSpace(a)
  {
    a := "";
    if s != "" && IsSpace(s[0]) {
      var b := TrimStartCuts(s[1..]);
      a := [s[0]] + b;
      assert s == [s[0]] + s[1..];
    }
  }

  lemma {:induction false} TrimEndCuts(s: string) returns (b: string)
    ensures s == TrimEnd(s) + b && AllSpace(b)
  {
    b := "";
    if s != "" && IsSpace(s[|s|-1]) {
      var a := TrimEndCuts(s[..|s|-1]);
      b := a + [s[|s|-1]];
      assert s == s[..|s|-1] + [s[|s|-1]];
    }
  }

  /** Trimming cuts white space off both ends, and all of it. */
  lemma TrimCutsSpace(s: string) returns (a: string, b: string)
    ensures s == a + Trim(s) + b && AllSpace(a) && AllSpace(b)
    ensures Trim(s) == "" || (!IsSpace(Trim(s)[0]) && !IsSpace(Trim(s)[|Trim(s)|-1]))
  {
    a := TrimStartCuts(s);
    b := TrimEndCuts(TrimStart(s));
    TrimProperties(s);
  }

  /** White space: the six control characters, the blanks of Unicode, line and paragraph separator, and the mark. */
  lemma SpaceIs(c: char)
    ensures IsSpace(c) <==>
      || c in "\t\n\r "
      || c in "\U{B}\U{C}\U{A0}\U{FEFF}\U{2028}\U{2029}"
      || c in "\U{1680}\U{202F}\U{205F}\U{3000}"
      || '\U{2000}' <= c <= '\U{200A}'
  {
  }

  // ---------------------------------------------------------------- blocks and lines

  /** Blocks with the blank lines that close them. */
  function Closed(blocks: seq<string>): string {
    if blocks == [] then "" else blocks[0] + "\n\n" + Closed(blocks[1..])
  }

  predicate HasBreak(s: string) {
    exists k :: 0 <= k < |s| - 1 && s[k] == '\n' && s[k+1] == '\n'
  }

  predicate EndsInFeed(s: string) {
    s != "" && s[|s|-1] == '\n'
  }

  /** Blocks and leftover make up the text again; none of them holds a blank line, and no block ends in a line feed. */
  lemma {:induction false} BlocksMakeText(s: string)
    ensures s == Closed(Blocks(s)) + Leftover(s) && !HasBreak(Leftover(s))
    ensures forall b :: b in Blocks(s) ==> !HasBreak(b) && !EndsInFeed(b)
    decreases |s|
  {
    var i := FirstBreak(s);
    BlocksAt(s);
    NoBreakBefore(s);
    hide FirstBreak, HasBreak, Blocks, Leftover;
    if i < |s| {
      BlocksMakeText(s[i+2..]);
      var rest := Blocks(s[i+2..]);
      assert Blocks(s) == [s[..i]] + rest && Blocks(s)[1..] == rest;
      assert s == s[..i] + "\n\n" + s[i+2..];
      assert Closed(Blocks(s)) == s[..i] + "\n\n" + Closed(rest);
    } else {
      assert s[..i] == s;
    }
  }

  lemma NoBreakBefore(s: string)
    ensures var i := FirstBreak(s); !HasBreak(s[..i]) && (i < |s| ==> !EndsInFeed(s[..i]))
  {
    hide FirstBreak;
    var i := FirstBreak(s);
    forall k | 0 <= k && k + 1 < i ensures !(s[..i][k] == '\n' && s[..i][k+1] == '\n') {
      assert s[..i][k] == s[k] && s[..i][k+1] == s[k+1];
    }
  }

  function Joined(lines: seq<string>): string
    requires lines != []
  {
    if |lines| == 1 then lines[0] else lines[0] + "\n" + Joined(lines[1..])
  }

  /** The lines of a text, put together with line feeds, are the text; no line holds one. */
  lemma {:induction false} LinesMakeText(s: string)
    ensures Joined(Lines(s)) == s && forall l :: l in Lines(s) ==> '\n' !in l
    decreases |s|
  {
    var i := FirstFeed(s);
    if i < |s| {
      LinesMakeText(s[i+1..]);
      hide FirstFeed;
      var rest := Lines(s[i+1..]);
      assert Lines(s) == [s[..i]] + rest && Lines(s)[1..] == rest;
      assert s == s[..i] + "\n" + s[i+1..];
    }
  }

  /** Chunks add up in the order in which they arrive. */
  lemma ChunksAddUp(a: string, b: string, c: string)
    ensures Concat([]) == "" && Concat([a]) == a && Concat([a, b, c]) == a + b + c
  {
    assert [a, b, c][..2] == [a, b] && [a, b][..1] == [a] && [a][..0] == [];
  }
}
