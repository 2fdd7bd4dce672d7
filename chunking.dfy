/**
 * Line-aligned chunking of a serialized schema (`SchemaCache.splitIntoChunks`).
 *
 * The text is split at newlines and the lines are packed greedily into chunks
 * of at most CHUNK_SIZE characters. A boundary falls only between lines; a
 * single line longer than CHUNK_SIZE becomes a chunk of its own.
 */
module Chunking {
  import opened Text

  /** Target maximum size of a chunk, in characters. */
  const CHUNK_SIZE: nat := 15000

  /** The state of the chunking loop: the chunks pushed so far and the running chunk. */
  datatype Acc = Acc(chunks: seq<string>, current: string)

  /** One iteration of the loop, for one line. */
  function Step(a: Acc, line: string): Acc
  {
    if |a.current| + |line| + 1 > CHUNK_SIZE && |a.current| > 0 then
      Acc(a.chunks + [a.current], line)
    else
      Acc(a.chunks, a.current + (if |a.current| > 0 then "\n" else "") + line)
  }

  /** The loop state after the given lines, taken in order. */
  function Scan(lines: seq<string>): Acc
    decreases |lines|
  {
    if |lines| == 0 then Acc([], "") else Step(Scan(lines[..|lines| - 1]), lines[|lines| - 1])
  }

  /** After the loop: a non-empty running chunk is the final chunk. */
  function Finish(a: Acc): seq<string>
  {
    if |a.current| > 0 then a.chunks + [a.current] else a.chunks
  }

  /** The chunks of `text`, as the loop produces them. */
  function Chunks(text: string): seq<string>
  {
    Finish(Scan(SplitLines(text)))
  }

  /** A chunk is never empty, and it is within the size cap unless it is a single line. */
  predicate WellSized(c: string)
  {
    c != "" && (|c| <= CHUNK_SIZE || '\n' !in c)
  }

  /** No line of `text` is empty (true of pretty-printed JSON). */
  predicate NoEmptyLines(text: string)
  {
    forall i :: 0 <= i < |SplitLines(text)| ==> SplitLines(text)[i] != ""
  }

  /** Every chunk but the last was closed because the next line did not fit after it. */
  predicate Greedy(cs: seq<string>)
  {
    forall i :: 0 <= i < |cs| - 1 ==> |cs[i]| + 1 + |FirstLine(cs[i + 1])| > CHUNK_SIZE
  }

  method SplitIntoChunks(text: string) returns (chunks: seq<string>)
    ensures chunks == Chunks(text)
    ensures forall i :: 0 <= i < |chunks| ==> WellSized(chunks[i])
    ensures Greedy(chunks)
    ensures NoEmptyLines(text) ==> Join(chunks, "\n") == text
  {
    chunks := [];
    var lines := SplitLines(text);
    var current := "";
    for k := 0 to |lines|
      invariant Acc(chunks, current) == Scan(lines[..k])
    {
      assert lines[..k + 1][..k] == lines[..k];
      var line := lines[k];
      if |current| + |line| + 1 > CHUNK_SIZE && |current| > 0 {
        chunks := chunks + [current];
        current := line;
      } else {
        current := current + (if |current| > 0 then "\n" else "") + line;
      }
    }
    assert lines[..|lines|] == lines;
    if |current| > 0 {
      chunks := chunks + [current];
    }
    ChunksWellSized(text);
    ChunksGreedy(text);
    if NoEmptyLines(text) {
      ChunksRoundTrip(text);
    }
  }

  // ---- size bound ----------------------------------------------------------

  lemma {:induction false} ScanWellSized(lines: seq<string>)
    requires forall i :: 0 <= i < |lines| ==> '\n' !in lines[i]
    ensures var a := Scan(lines);
      (forall i :: 0 <= i < |a.chunks| ==> WellSized(a.chunks[i]))
      && (|a.current| <= CHUNK_SIZE || '\n' !in a.current)
    decreases |lines|
  {
    if |lines| > 0 {
      ScanWellSized(lines[..|lines| - 1]);
      var a := Scan(lines[..|lines| - 1]);
      var line := lines[|lines| - 1];
      if !(|a.current| + |line| + 1 > CHUNK_SIZE && |a.current| > 0) && |a.current| == 0 {
        assert a.current + "" + line == line;
      }
    }
  }

  /** Every chunk is non-empty and at most CHUNK_SIZE long, or else a single oversized line. */
  lemma ChunksWellSized(text: string)
    ensures forall i :: 0 <= i < |Chunks(text)| ==> WellSized(Chunks(text)[i])
  {
    ScanWellSized(SplitLines(text));
  }

  // ---- round trip ------------------------------------------------------------

  lemma {:induction false} ScanJoin(lines: seq<string>)
    requires |lines| >= 1
    requires forall i :: 0 <= i < |lines| ==> lines[i] != ""
    ensures Scan(lines).current != ""
    ensures Join(Scan(lines).chunks + [Scan(lines).current], "\n") == Join(lines, "\n")
    decreases |lines|
  {
    var init := lines[..|lines| - 1];
    var line := lines[|lines| - 1];
    assert lines == init + [line];
    if |init| == 0 {
      assert Scan(init) == Acc([], "");
      assert "" + "" + line == line;
    } else {
      ScanJoin(init);
      var a := Scan(init);
      JoinSnoc(init, line, "\n");
      if |a.current| + |line| + 1 > CHUNK_SIZE {
        JoinSnoc(a.chunks + [a.current], line, "\n");
      } else {
        assert a.current + "\n" + line == a.current + ("\n" + line);
        JoinAppendToLast(a.chunks, a.current, "\n" + line, "\n");
      }
    }
  }

  /** When no line is empty, joining the chunks with newlines gives back the text. */
  lemma ChunksRoundTrip(text: string)
    requires NoEmptyLines(text)
    ensures Join(Chunks(text), "\n") == text
  {
    ScanJoin(SplitLines(text));
    JoinSplitLines(text);
  }

  /** The empty text has no chunks at all. */
  lemma ChunksOfEmpty()
    ensures Chunks("") == []
  {
    assert SplitLines("") == [""];
    assert Scan([""]) == Step(Acc([], ""), "");
  }

  /** A leading empty line is dropped, so without the precondition of ChunksRoundTrip the text is not restored. */
  lemma LeadingEmptyLineLost(l: string)
    requires l != "" && '\n' !in l
    ensures Chunks("\n" + l) == [l]
    ensures Join(Chunks("\n" + l), "\n") != "\n" + l
  {
    SplitLinesSingle(l);
    SplitLinesConcat("", l);
    assert "\n" + l == "" + "\n" + l;
    var lines := SplitLines("\n" + l);
    assert lines == ["", l];
    assert lines[..1] == [""];
    assert Scan([""]) == Acc([], "");
    assert "" + "" + l == l;
    assert |Join([l], "\n")| == |l| < |"\n" + l|;
  }

  // ---- greedy packing --------------------------------------------------------

  lemma FirstLineOfSingle(l: string)
    requires '\n' !in l
    ensures FirstLine(l) == l
  {
    SplitLinesSingle(l);
  }

  lemma FirstLineOfJoined(a: string, b: string)
    ensures FirstLine(a + "\n" + b) == FirstLine(a)
  {
    SplitLinesConcat(a, b);
  }

  lemma {:induction false} ScanGreedy(lines: seq<string>)
    requires forall i :: 0 <= i < |lines| ==> '\n' !in lines[i]
    ensures var a := Scan(lines);
      Greedy(a.chunks)
      && (|a.chunks| > 0 ==> |a.chunks[|a.chunks| - 1]| + 1 + |FirstLine(a.current)| > CHUNK_SIZE)
    decreases |lines|
  {
    if |lines| > 0 {
      var init := lines[..|lines| - 1];
      var line := lines[|lines| - 1];
      ScanGreedy(init);
      var a := Scan(init);
      FirstLineOfSingle(line);
      if |a.current| + |line| + 1 > CHUNK_SIZE && |a.current| > 0 {
        var cs := a.chunks + [a.current];
        assert forall i :: 0 <= i < |cs| - 1 ==> cs[i] == a.chunks[i];
      } else if |a.current| > 0 {
        FirstLineOfJoined(a.current, line);
      } else {
        assert a.current + "" + line == line;
        assert FirstLine("") == "";
      }
    }
  }

  /**
   * Chunks are packed greedily: each chunk but the last, followed by a newline
   * and the first line of the next chunk, would exceed CHUNK_SIZE.
   */
  lemma ChunksGreedy(text: string)
    ensures Greedy(Chunks(text))
  {
    var a := Scan(SplitLines(text));
    ScanGreedy(SplitLines(text));
    if |a.current| > 0 {
      var cs := a.chunks + [a.current];
      assert forall i :: 0 <= i < |cs| - 1 ==> cs[i] == a.chunks[i];
    }
  }

  // ---- the size boundary -----------------------------------------------------

  lemma ScanOne(l: string)
    ensures Scan([l]) == Acc([], l)
  {
    assert [l][..0] == [];
    assert Scan([l]) == Step(Acc([], ""), l);
    assert "" + "" + l == l;
  }

  lemma TwoLines(a: string, b: string)
    requires a != "" && '\n' !in a && '\n' !in b
    ensures SplitLines(a + "\n" + b) == [a, b]
    ensures Scan([a, b]) == Step(Acc([], a), b)
  {
    SplitLinesSingle(a);
    SplitLinesSingle(b);
    SplitLinesConcat(a, b);
    assert [a, b][..1] == [a];
    ScanOne(a);
  }

  /** Two lines that, with the newline between them, are exactly CHUNK_SIZE long stay in one chunk. */
  lemma ExactFitStaysTogether(a: string, b: string)
    requires a != "" && '\n' !in a && '\n' !in b
    requires |a| + 1 + |b| == CHUNK_SIZE
    ensures Chunks(a + "\n" + b) == [a + "\n" + b]
  {
    TwoLines(a, b);
  }

  /** One character more and they are split into two chunks at the newline. */
  lemma OneOverSplits(a: string, b: string)
    requires a != "" && b != "" && '\n' !in a && '\n' !in b
    requires |a| + 1 + |b| == CHUNK_SIZE + 1
    ensures Chunks(a + "\n" + b) == [a, b]
  {
    TwoLines(a, b);
  }

  /** A single line is a single chunk, however long it is. */
  lemma OversizedLineAlone(l: string)
    requires l != "" && '\n' !in l
    ensures Chunks(l) == [l]
  {
    SplitLinesSingle(l);
    ScanOne(l);
  }
}
