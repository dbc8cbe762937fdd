/** The streaming line decoder both provider adapters share. Each chunk read from the
    response body is appended to a buffer, the buffer is split on line feeds, the
    trailing partial line is kept as the new buffer, and every complete line is handed
    to a provider-specific line decoder that may produce one fragment. When the body
    ends, whatever is left in the buffer is dropped. */
module LineStream {
  import opened Wrappers
  import opened Js
  import Text

  /** The decoder state between reads: the unfinished line, and the fragments yielded. */
  datatype Decoder = Decoder(buffer: string, fragments: seq<Json>)

  /** The fragments a sequence of complete lines produces, in order; a line the line
      decoder rejects is skipped and decoding carries on with the next. */
  function LinesOutput(lines: seq<string>, decodeLine: string -> Option<Json>): seq<Json>
  {
    if |lines| == 0 then []
    else
      (match decodeLine(lines[0]) case None => [] case Some(f) => [f])
        + LinesOutput(lines[1..], decodeLine)
  }

  /** One read: `buffer += chunk; lines = buffer.split('\n'); buffer = lines.pop()`,
      then each complete line is decoded. */
  function Feed(d: Decoder, chunk: string, decodeLine: string -> Option<Json>): Decoder
  {
    var parts := Text.Split(d.buffer + chunk, '\n');
    Decoder(Text.Last(parts), d.fragments + LinesOutput(Text.Init(parts), decodeLine))
  }

  /** The decoder after reading every chunk, starting from an empty buffer. */
  function DecodeChunks(chunks: seq<string>, decodeLine: string -> Option<Json>): Decoder
  {
    if |chunks| == 0 then Decoder("", [])
    else Feed(DecodeChunks(chunks[..|chunks| - 1], decodeLine), chunks[|chunks| - 1], decodeLine)
  }

  /** The fragments of the whole stream: those of the lines read, the trailing
      unterminated line being dropped. */
  function StreamFragments(chunks: seq<string>, decodeLine: string -> Option<Json>): seq<Json>
  {
    DecodeChunks(chunks, decodeLine).fragments
  }

  lemma {:induction false} LinesOutputAppend(a: seq<string>, b: seq<string>, decodeLine: string -> Option<Json>)
    ensures LinesOutput(a + b, decodeLine) == LinesOutput(a, decodeLine) + LinesOutput(b, decodeLine)
    decreases |a|
  {
    if |a| == 0 {
      assert a + b == b;
    } else {
      assert (a + b)[0] == a[0];
      assert (a + b)[1..] == a[1..] + b;
      LinesOutputAppend(a[1..], b, decodeLine);
    }
  }

  /** Three lines of which the last is rejected yield the fragments of the first two. */
  lemma LinesOutputOfThree(lines: seq<string>, decodeLine: string -> Option<Json>)
    requires |lines| == 3 && decodeLine(lines[0]).Some? && decodeLine(lines[1]).Some?
    requires decodeLine(lines[2]).None?
    ensures LinesOutput(lines, decodeLine) == [decodeLine(lines[0]).value, decodeLine(lines[1]).value]
  {
    assert lines[1..][1..] == [lines[2]];
    assert [lines[2]][1..] == [];
    assert LinesOutput([lines[2]], decodeLine) == [];
    assert LinesOutput(lines[1..], decodeLine) == [decodeLine(lines[1]).value];
  }

  /** Reading chunks is the same as splitting their concatenation once: the buffer is
      the text after the last line feed, and the fragments are those of every line
      before it. */
  lemma {:induction false} DecodeMatchesWholeText(chunks: seq<string>, decodeLine: string -> Option<Json>)
    ensures var parts := Text.Split(ConcatStrings(chunks), '\n');
      DecodeChunks(chunks, decodeLine) == Decoder(Text.Last(parts), LinesOutput(Text.Init(parts), decodeLine))
    decreases |chunks|
  {
    if |chunks| > 0 {
      var pre := chunks[..|chunks| - 1];
      var c := chunks[|chunks| - 1];
      DecodeMatchesWholeText(pre, decodeLine);
      var p := ConcatStrings(pre);
      var sp := Text.Split(p, '\n');
      var parts := Text.Split(Text.Last(sp) + c, '\n');
      Text.SplitAppend(p, c, '\n');
      assert ConcatStrings(chunks) == p + c;
      var whole := Text.Split(p + c, '\n');
      assert whole == Text.Init(sp) + parts;
      Text.LastInitAppend(Text.Init(sp), parts);
      LinesOutputAppend(Text.Init(sp), Text.Init(parts), decodeLine);
      var d := DecodeChunks(pre, decodeLine);
      assert d.fragments + LinesOutput(Text.Init(parts), decodeLine)
             == LinesOutput(Text.Init(whole), decodeLine);
    }
  }

  /** The fragments do not depend on where the body was cut into chunks. */
  lemma ChunkBoundariesIrrelevant(a: seq<string>, b: seq<string>, decodeLine: string -> Option<Json>)
    requires ConcatStrings(a) == ConcatStrings(b)
    ensures StreamFragments(a, decodeLine) == StreamFragments(b, decodeLine)
  {
    DecodeMatchesWholeText(a, decodeLine);
    DecodeMatchesWholeText(b, decodeLine);
  }

  /** The buffer never holds a line feed. */
  lemma BufferHasNoLineFeed(chunks: seq<string>, decodeLine: string -> Option<Json>)
    ensures '\n' !in DecodeChunks(chunks, decodeLine).buffer
  {
    DecodeMatchesWholeText(chunks, decodeLine);
    var parts := Text.Split(ConcatStrings(chunks), '\n');
    Text.SplitPiecesFree(ConcatStrings(chunks), '\n');
    assert Text.Last(parts) == parts[|parts| - 1];
  }

  /** Text without a line feed at the end of the stream yields nothing: the
      unterminated last line is discarded. */
  lemma TrailingPartialLineDropped(chunks: seq<string>, tail: string, decodeLine: string -> Option<Json>)
    requires '\n' !in tail
    ensures StreamFragments(chunks + [tail], decodeLine) == StreamFragments(chunks, decodeLine)
  {
    var d := DecodeChunks(chunks, decodeLine);
    assert (chunks + [tail])[..|chunks|] == chunks;
    BufferHasNoLineFeed(chunks, decodeLine);
    assert '\n' !in d.buffer + tail;
    Text.SplitFree(d.buffer + tail, '\n');
  }

  /** A line the line decoder rejects (blank, unparseable, of the wrong shape) is
      skipped without ending the stream: the lines after it are still decoded. */
  lemma RejectedLineSkipped(before: seq<string>, line: string, after: seq<string>,
                            decodeLine: string -> Option<Json>)
    requires decodeLine(line).None?
    ensures LinesOutput(before + [line] + after, decodeLine)
            == LinesOutput(before, decodeLine) + LinesOutput(after, decodeLine)
  {
    LinesOutputAppend(before + [line], after, decodeLine);
    LinesOutputAppend(before, [line], decodeLine);
  }

  /** A line decoder that only ever yields truthy values makes a stream of truthy
      fragments. */
  lemma {:induction false} LinesOutputTruthy(lines: seq<string>, decodeLine: string -> Option<Json>)
    requires forall l :: decodeLine(l).Some? ==> Truthy(decodeLine(l).value)
    ensures forall i :: 0 <= i < |LinesOutput(lines, decodeLine)| ==> Truthy(LinesOutput(lines, decodeLine)[i])
    decreases |lines|
  {
    if |lines| > 0 {
      LinesOutputTruthy(lines[1..], decodeLine);
    }
  }

  lemma StreamFragmentsTruthy(chunks: seq<string>, decodeLine: string -> Option<Json>)
    requires forall l :: decodeLine(l).Some? ==> Truthy(decodeLine(l).value)
    ensures forall i :: 0 <= i < |StreamFragments(chunks, decodeLine)| ==> Truthy(StreamFragments(chunks, decodeLine)[i])
  {
    DecodeMatchesWholeText(chunks, decodeLine);
    LinesOutputTruthy(Text.Init(Text.Split(ConcatStrings(chunks), '\n')), decodeLine);
  }

  /** Complete lines written one after the other, each ended by a line feed. */
  function Terminated(lines: seq<string>): string
  {
    if |lines| == 0 then "" else Terminated(lines[..|lines| - 1]) + lines[|lines| - 1] + "\n"
  }

  lemma {:induction false} SplitTerminated(lines: seq<string>)
    requires forall i :: 0 <= i < |lines| ==> '\n' !in lines[i]
    ensures Text.Split(Terminated(lines), '\n') == lines + [""]
    decreases |lines|
  {
    if |lines| > 0 {
      var pre := lines[..|lines| - 1];
      var l := lines[|lines| - 1];
      SplitTerminated(pre);
      assert Terminated(lines) == Terminated(pre) + (l + "\n");
      assert '\n' !in l;
      Text.SplitAppend(Terminated(pre), l + "\n", '\n');
      assert Text.Last(pre + [""]) + (l + "\n") == l + ['\n'];
      Text.SplitFreeThenSep(l, '\n');
      assert Text.Init(pre + [""]) == pre;
      assert Text.Split(l + "\n", '\n') == [l, ""];
      assert lines + [""] == pre + [l, ""];
    }
  }

  /** A body made of complete lines yields exactly the fragments of those lines. */
  lemma DecodeTerminatedLines(lines: seq<string>, decodeLine: string -> Option<Json>)
    requires forall i :: 0 <= i < |lines| ==> '\n' !in lines[i]
    ensures StreamFragments([Terminated(lines)], decodeLine) == LinesOutput(lines, decodeLine)
  {
    DecodeMatchesWholeText([Terminated(lines)], decodeLine);
    assert ConcatStrings([Terminated(lines)]) == Terminated(lines);
    SplitTerminated(lines);
    assert Text.Init(lines + [""]) == lines;
  }
}
