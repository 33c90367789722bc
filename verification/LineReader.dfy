/** The incremental line splitter (packages/providers/src/stream-parser.ts). */
module LineReader {
  import opened Sequences

  const MAX_LINE: nat := 65_536

  datatype ReaderLine = ReaderLine(text: string, truncated: bool)

  // ---------- the newline split ----------

  predicate NoNewline(s: string) {
    '\n' !in s
  }

  function IndexOfNewline(s: string): (i: nat)
    ensures i <= |s| && NoNewline(s[..i])
    ensures i < |s| ==> s[i] == '\n'
  {
    if s == "" || s[0] == '\n' then 0 else 1 + IndexOfNewline(s[1..])
  }

  /** The pieces of `s` that end in a newline, without it. */
  function Terminated(s: string): (lines: seq<string>)
    ensures forall l :: l in lines ==> NoNewline(l)
  {
    var i := IndexOfNewline(s);
    if i == |s| then [] else [s[..i]] + Terminated(s[i + 1..])
  }

  /** What follows the last newline of `s`. */
  function Remainder(s: string): (r: string)
    ensures NoNewline(r) && |r| <= |s|
  {
    var i := IndexOfNewline(s);
    if i == |s| then s else Remainder(s[i + 1..])
  }

  function Whole(lines: seq<string>): seq<ReaderLine> {
    seq(|lines|, i requires 0 <= i < |lines| => ReaderLine(lines[i], false))
  }

  // ---------- the reader ----------

  datatype Pushed = Pushed(buffer: string, lines: seq<ReaderLine>)

  function Push(buffer: string, chunk: string): Pushed {
    var text := buffer + chunk;
    var rest := Remainder(text);
    if |rest| > MAX_LINE then Pushed("", Whole(Terminated(text)) + [ReaderLine(rest[..MAX_LINE], true)])
    else Pushed(rest, Whole(Terminated(text)))
  }

  function End(buffer: string): seq<ReaderLine> {
    if buffer == "" then [] else [ReaderLine(buffer, false)]
  }

  /** All lines that a reader holding `buffer` returns for these chunks and the end of the stream. */
  function Feed(buffer: string, chunks: seq<string>): seq<ReaderLine>
    decreases |chunks|
  {
    if chunks == [] then End(buffer)
    else
      var p := Push(buffer, chunks[0]);
      p.lines + Feed(p.buffer, chunks[1..])
  }

  class IncrementalLineReader {
    var buffer: string

    constructor ()
      ensures buffer == ""
    {
      buffer := "";
    }

    method PushChunk(chunk: string) returns (lines: seq<ReaderLine>)
      modifies this
      ensures Pushed(buffer, lines) == Push(old(buffer), chunk)
    {
      buffer := buffer + chunk;
      ghost var text, done := buffer, [];
      lines := [];
      var index := IndexOfNewline(buffer);
      while index != |buffer|
        invariant index == IndexOfNewline(buffer)
        invariant lines == Whole(done)
        invariant Terminated(text) == done + Terminated(buffer)
        invariant Remainder(text) == Remainder(buffer)
        decreases |buffer|
      {
        lines := lines + [ReaderLine(buffer[..index], false)];
        Assoc(done, [buffer[..index]], Terminated(buffer[index + 1..]));
        done := done + [buffer[..index]];
        buffer := buffer[index + 1..];
        index := IndexOfNewline(buffer);
      }
      assert done == Terminated(text);
      if |buffer| > MAX_LINE {
        lines := lines + [ReaderLine(buffer[..MAX_LINE], true)];
        buffer := "";
      }
    }

    method EndOfStream() returns (lines: seq<ReaderLine>)
      modifies this
      ensures buffer == "" && lines == End(old(buffer))
    {
      if buffer == "" {
        return [];
      }
      lines := [ReaderLine(buffer, false)];
      buffer := "";
    }
  }

  // ---------- splitting a concatenation ----------

  lemma {:induction false} NewlineOfConcat(a: string, b: string)
    ensures IndexOfNewline(a + b) == if IndexOfNewline(a) < |a| then IndexOfNewline(a) else |a| + IndexOfNewline(b)
  {
    if a == "" {
      assert a + b == b;
    } else if a[0] != '\n' {
      assert (a + b)[1..] == a[1..] + b;
      NewlineOfConcat(a[1..], b);
    }
  }

  /** Splitting `a + b` is splitting `a` and then its remainder followed by `b`. */
  lemma {:induction false} SplitConcat(a: string, b: string)
    ensures Terminated(a + b) == Terminated(a) + Terminated(Remainder(a) + b)
    ensures Remainder(a + b) == Remainder(Remainder(a) + b)
    decreases |a|
  {
    var i := IndexOfNewline(a);
    NewlineOfConcat(a, b);
    if i < |a| {
      assert (a + b)[..i] == a[..i] && (a + b)[i + 1..] == a[i + 1..] + b;
      SplitConcat(a[i + 1..], b);
    }
  }

  lemma {:induction false} NewlineFree(s: string)
    requires NoNewline(s)
    ensures IndexOfNewline(s) == |s| && Terminated(s) == [] && Remainder(s) == s
  {
    if s != "" {
      assert s[0] in s;
      NewlineFree(s[1..]);
    }
  }

  /** With a newline-free start, the first terminated line, or else the remainder, contains that start. */
  lemma StartStays(r: string, b: string)
    requires NoNewline(r)
    ensures Terminated(r + b) != [] ==> exists l :: l in Terminated(r + b) && |l| >= |r|
    ensures Terminated(r + b) == [] ==> Remainder(r + b) == r + b
  {
    NewlineFree(r);
    NewlineOfConcat(r, b);
    if Terminated(r + b) != [] {
      assert Terminated(r + b)[0] in Terminated(r + b);
    }
  }

  lemma WholeConcat(a: seq<string>, b: seq<string>)
    ensures Whole(a + b) == Whole(a) + Whole(b)
  {
  }

  // ---------- chunk invariance ----------

  function Concat(chunks: seq<string>): string {
    if chunks == [] then "" else chunks[0] + Concat(chunks[1..])
  }

  /** Terminated lines within the bound, and a remainder at most one character beyond it. */
  predicate Fits(text: string) {
    (forall l :: l in Terminated(text) ==> |l| <= MAX_LINE) && |Remainder(text)| <= MAX_LINE + 1
  }

  /** The newline split of the whole text: an empty last piece dropped, one too long cut and marked. */
  function SplitLines(text: string): seq<ReaderLine> {
    var rest := Remainder(text);
    Whole(Terminated(text)) + (if |rest| > MAX_LINE then [ReaderLine(rest[..MAX_LINE], true)] else End(rest))
  }

  lemma {:induction false} FeedNothing(chunks: seq<string>)
    requires Concat(chunks) == ""
    ensures Feed("", chunks) == []
    decreases |chunks|
  {
    if chunks != [] {
      assert chunks[0] == "" && Concat(chunks[1..]) == "";
      assert "" + chunks[0] == "";
      FeedNothing(chunks[1..]);
    }
  }

  lemma FitsTail(a: string, b: string)
    requires Fits(a + b)
    ensures Fits(Remainder(a) + b) && forall l :: l in Terminated(a) ==> |l| <= MAX_LINE
  {
    SplitConcat(a, b);
  }

  /** The bound is first passed by the very last character: nothing can follow. */
  lemma NothingFollows(r: string, rest: string)
    requires NoNewline(r) && |r| > MAX_LINE && Fits(r + rest)
    ensures rest == "" && |r| == MAX_LINE + 1
  {
    StartStays(r, rest);
  }

  lemma SplitLinesConcat(a: string, b: string)
    ensures SplitLines(a + b) == Whole(Terminated(a)) + SplitLines(Remainder(a) + b)
  {
    SplitConcat(a, b);
    WholeConcat(Terminated(a), Terminated(Remainder(a) + b));
    Assoc(Whole(Terminated(a)), Whole(Terminated(Remainder(a) + b)), End(Remainder(a + b)));
  }

  lemma {:induction false} FeedIsSplit(buffer: string, chunks: seq<string>)
    requires NoNewline(buffer) && |buffer| <= MAX_LINE && Fits(buffer + Concat(chunks))
    ensures Feed(buffer, chunks) == SplitLines(buffer + Concat(chunks))
    decreases |chunks|
  {
    if chunks == [] {
      assert buffer + "" == buffer;
      NewlineFree(buffer);
    } else {
      var text, rest := buffer + chunks[0], Concat(chunks[1..]);
      assert buffer + Concat(chunks) == text + rest;
      FitsTail(text, rest);
      SplitLinesConcat(text, rest);
      var r := Remainder(text);
      if |r| <= MAX_LINE {
        FeedIsSplit(r, chunks[1..]);
      } else {
        NothingFollows(r, rest);
        assert r + rest == r;
        NewlineFree(r);
        FeedNothing(chunks[1..]);
      }
    }
  }

  /** Every way of cutting the text gives the same lines. */
  ghost predicate ChunkInvariant(text: string) {
    forall a, b :: Concat(a) == text && Concat(b) == text ==> Feed("", a) == Feed("", b)
  }

  lemma FeedOne(text: string)
    ensures Concat([text]) == text
    ensures Feed("", [text]) == SplitLines(text)
  {
    assert "" + text == text && text + "" == text;
    assert [text][1..] == [];
  }

  lemma FeedTwo(a: string, b: string)
    ensures Concat([a, b]) == a + b
    ensures Feed("", [a, b]) == Push("", a).lines + SplitLines(Push("", a).buffer + b)
  {
    assert [a, b][1..] == [b] && [b][1..] == [];
    assert Concat([b]) == b + "" == b;
    var p := Push("", a);
    assert Feed(p.buffer, [b]) == Push(p.buffer, b).lines + Feed(Push(p.buffer, b).buffer, []);
  }

  /** The inverse of the split. */
  function Unlines(lines: seq<string>): string {
    if lines == [] then "" else lines[0] + "\n" + Unlines(lines[1..])
  }

  /** Splitting off one terminated line. */
  lemma SplitLine(line: string, tail: string)
    requires NoNewline(line)
    ensures Terminated(line + ("\n" + tail)) == [line] + Terminated(tail)
    ensures Remainder(line + ("\n" + tail)) == Remainder(tail)
  {
    var text := line + ("\n" + tail);
    NewlineFree(line);
    NewlineOfConcat(line, "\n" + tail);
    assert text[..|line|] == line;
    assert text[|line| + 1..] == tail;
  }

  lemma ReassembleLine(line: string, tail: string)
    requires NoNewline(line) && Unlines(Terminated(tail)) + Remainder(tail) == tail
    ensures var text := line + ("\n" + tail);
      Unlines(Terminated(text)) + Remainder(text) == text
  {
    SplitLine(line, tail);
    UnlinesCons(line, Terminated(tail), Remainder(tail));
  }

  lemma {:induction false} Reassemble(text: string)
    ensures Unlines(Terminated(text)) + Remainder(text) == text
    decreases |text|
  {
    var i := IndexOfNewline(text);
    if i < |text| {
      assert text == text[..i] + ("\n" + text[i + 1..]);
      Reassemble(text[i + 1..]);
      ReassembleLine(text[..i], text[i + 1..]);
    }
  }

  lemma UnlinesCons(line: string, lines: seq<string>, rest: string)
    ensures Unlines([line] + lines) + rest == line + ("\n" + (Unlines(lines) + rest))
  {
    assert ([line] + lines)[1..] == lines;
    Assoc(line + "\n", Unlines(lines), rest);
    Assoc(line, "\n", Unlines(lines) + rest);
  }

  lemma {:induction false} SplitUnlines(lines: seq<string>, rest: string)
    requires NoNewline(rest) && forall l :: l in lines ==> NoNewline(l)
    ensures Terminated(Unlines(lines) + rest) == lines && Remainder(Unlines(lines) + rest) == rest
  {
    if lines == [] {
      assert "" + rest == rest;
      NewlineFree(rest);
    } else {
      SplitUnlines(lines[1..], rest);
      assert [lines[0]] + lines[1..] == lines;
      UnlinesCons(lines[0], lines[1..], rest);
      SplitLine(lines[0], Unlines(lines[1..]) + rest);
    }
  }

  lemma {:induction false} UnlinesConcat(a: seq<string>, b: seq<string>)
    ensures Unlines(a + b) == Unlines(a) + Unlines(b)
  {
    if a == [] {
      assert a + b == b;
    } else {
      assert (a + b)[1..] == a[1..] + b;
      UnlinesConcat(a[1..], b);
    }
  }

  /** Cut the text after the first `k` lines and `start`. */
  lemma CutAfter(text: string, k: nat, start: string, end: string)
    requires k <= |Terminated(text)| && NoNewline(start)
    requires start + end == Unlines(Terminated(text)[k..]) + Remainder(text)
    ensures var a := Unlines(Terminated(text)[..k]) + start;
      a + end == text && Terminated(a) == Terminated(text)[..k] && Remainder(a) == start
  {
    var lines := Terminated(text);
    Reassemble(text);
    assert lines[..k] + lines[k..] == lines;
    UnlinesConcat(lines[..k], lines[k..]);
    Assoc(Unlines(lines[..k]), start, end);
    Assoc(Unlines(lines[..k]), Unlines(lines[k..]), Remainder(text));
    SplitUnlines(lines[..k], start);
  }

  /** Cutting right after a long start makes the reader emit it as a cut line there. */
  lemma CutIsMarked(text: string, k: nat, start: string, end: string)
    requires k <= |Terminated(text)| && NoNewline(start) && |start| > MAX_LINE
    requires start + end == Unlines(Terminated(text)[k..]) + Remainder(text)
    ensures exists chunks :: (Concat(chunks) == text
      && Feed("", chunks) == Whole(Terminated(text)[..k]) + [ReaderLine(start[..MAX_LINE], true)] + SplitLines(end))
  {
    CutAfter(text, k, start, end);
    var a := Unlines(Terminated(text)[..k]) + start;
    FeedTwo(a, end);
    assert "" + a == a && "" + end == end;
    assert Concat([a, end]) == text;
  }

  lemma OverlongLineVaries(text: string, k: nat)
    requires k < |Terminated(text)| && |Terminated(text)[k]| > MAX_LINE
    ensures !ChunkInvariant(text)
  {
    var line := Terminated(text)[k];
    var end := "\n" + Unlines(Terminated(text)[k + 1..]) + Remainder(text);
    assert Terminated(text)[k..][1..] == Terminated(text)[k + 1..];
    assert NoNewline(line) by { assert line in Terminated(text); }
    CutIsMarked(text, k, line, end);
    var chunks :| Concat(chunks) == text
      && Feed("", chunks) == Whole(Terminated(text)[..k]) + [ReaderLine(line[..MAX_LINE], true)] + SplitLines(end);
    FeedOne(text);
    assert Feed("", chunks)[k].truncated && !Feed("", [text])[k].truncated;
  }

  lemma OverlongRemainderVaries(text: string)
    requires |Remainder(text)| > MAX_LINE + 1
    ensures !ChunkInvariant(text)
  {
    var rest, k := Remainder(text), |Terminated(text)|;
    var start, end := rest[..MAX_LINE + 1], rest[MAX_LINE + 1..];
    assert Terminated(text)[k..] == [] && Terminated(text)[..k] == Terminated(text);
    assert start + end == "" + rest;
    CutIsMarked(text, k, start, end);
    var chunks :| Concat(chunks) == text
      && Feed("", chunks) == Whole(Terminated(text)[..k]) + [ReaderLine(start[..MAX_LINE], true)] + SplitLines(end);
    FeedOne(text);
    NewlineFree(end);
    assert |Feed("", chunks)| >= k + 2 && |Feed("", [text])| == k + 1;
  }

  /**
   Every way of cutting a text into chunks yields the same lines, and then they are the
   newline split, if and only if its terminated lines are at most 65536 characters and what
   follows the last newline is at most 65537.
   */
  lemma ChunkInvariantIffFits(text: string)
    ensures ChunkInvariant(text) <==>
      (forall l :: l in Terminated(text) ==> |l| <= 65_536) && |Remainder(text)| <= 65_537
    ensures Fits(text) ==> forall chunks :: Concat(chunks) == text ==> Feed("", chunks) == SplitLines(text)
  {
    if Fits(text) {
      forall chunks | Concat(chunks) == text ensures Feed("", chunks) == SplitLines(text) {
        assert "" + Concat(chunks) == text;
        FeedIsSplit("", chunks);
      }
    } else if exists l :: l in Terminated(text) && |l| > MAX_LINE {
      var k :| 0 <= k < |Terminated(text)| && |Terminated(text)[k]| > MAX_LINE;
      OverlongLineVaries(text, k);
    } else {
      OverlongRemainderVaries(text);
    }
  }

  /** For any input at all, the buffer stays bounded and newline-free, and only a cut line is marked. */
  lemma PushIsBounded(buffer: string, chunk: string)
    ensures var p := Push(buffer, chunk);
      && |p.buffer| <= 65_536 && NoNewline(p.buffer)
      && (forall l :: l in p.lines ==> NoNewline(l.text))
      && (forall l :: l in p.lines && l.truncated ==> |l.text| == 65_536 && l.text <= Remainder(buffer + chunk))
  {
  }
}
