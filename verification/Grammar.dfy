/** The grammar of the mini-shell's lines, with no scanning: every line of tokens, however odd, is
    a sequence of chunks, and what the parser makes of it is what these chunks mean. */
module Grammar {
  import opened Options
  import opened CommandLine

  /** A segment as it is written: words; redirections, each with the words that stand behind its
      file; and its closing tokens, if any. */
  datatype Chunk = Chunk(words: seq<string>, redirects: seq<Redirect>, dropped: seq<seq<string>>, closing: seq<string>)

  predicate AllPlain(words: seq<string>) {
    forall w | w in words :: IsPlain(w)
  }

  /** The closing is an operator between segments; or an `&`, with anything behind it; or a
      redirection sign as the last token of the line; or nothing. */
  predicate ClosesSegment(closing: seq<string>) {
    closing == ["|"] || closing == ["&&"]
  }

  predicate ClosesLine(closing: seq<string>) {
    closing == [] || closing == ["<"] || closing == [">"] || closing[0] == "&"
  }

  predicate WellWritten(c: Chunk) {
    && |c.dropped| == |c.redirects| && AllPlain(c.words)
    && forall words | words in c.dropped :: AllPlain(words)
  }

  predicate IsLine(chunks: seq<Chunk>) {
    && chunks != [] && WellWritten(chunks[0])
    && if |chunks| == 1 then ClosesLine(chunks[0].closing) else ClosesSegment(chunks[0].closing) && IsLine(chunks[1..])
  }

  function Written(redirects: seq<Redirect>, dropped: seq<seq<string>>): seq<string>
    requires |redirects| == |dropped|
  {
    if redirects == [] then []
    else [if redirects[0].Input? then "<" else ">", redirects[0].file] + (dropped[0] + Written(redirects[1..], dropped[1..]))
  }

  function Text(c: Chunk): seq<string>
    requires |c.dropped| == |c.redirects|
  {
    c.words + (Written(c.redirects, c.dropped) + c.closing)
  }

  function Texts(chunks: seq<Chunk>): seq<string>
    requires IsLine(chunks)
  {
    Text(chunks[0]) + if |chunks| == 1 then [] else Texts(chunks[1..])
  }

  /** The last of the words ends in `&`. */
  predicate HasAmpersand(words: seq<string>) {
    && words != [] && words[|words| - 1] != ""
    && var last := words[|words| - 1]; last[|last| - 1] == '&'
  }

  /** How a segment with these closing tokens ends, `last` being the last words in front. */
  function EndingOf(last: seq<string>, closing: seq<string>): Ending {
    if closing == [] then if HasAmpersand(last) then Ampersand else Finish
    else if closing[0] == "|" then PipeTo
    else if closing[0] == "&&" then AndThen
    else if closing[0] == "&" then Ampersand
    else NoFile
  }

  /** The words without the `&` glued to the last one. */
  function WithoutAmpersand(words: seq<string>): seq<string> {
    if HasAmpersand(words) then
      var last := words[|words| - 1];
      words[..|words| - 1] + [last[..|last| - 1]]
    else words
  }

  /** What a chunk means: its words are the command, those behind a file are dropped, and a `&`
      glued to the very last word is the background operator, which the command does not get. */
  function Meaning(c: Chunk): Segment
    requires |c.dropped| == |c.redirects|
  {
    if c.redirects == [] then
      Segment(if c.closing == [] then WithoutAmpersand(c.words) else c.words, [], EndingOf(c.words, c.closing))
    else
      Segment(c.words, c.redirects, EndingOf(c.dropped[|c.dropped| - 1], c.closing))
  }

  function Meanings(chunks: seq<Chunk>): seq<Segment>
    requires IsLine(chunks)
  {
    [Meaning(chunks[0])] + if |chunks| == 1 then [] else Meanings(chunks[1..])
  }

  // ----- The chunks of a line give its segments -----

  /** The segments behind a closing. */
  function Behind(closing: seq<string>, more: seq<string>): seq<Segment> {
    if ClosesSegment(closing) then Parse(more) else []
  }

  lemma StopAt(words: seq<string>, tail: seq<string>)
    requires AllPlain(words) && (tail == [] || IsOperator(tail[0]))
    ensures FirstStop(words + tail) == |words| && (words + tail)[..|words|] == words && (words + tail)[|words|..] == tail
  {
    StopBehind(words, tail);
  }

  /** The words in front of the closing of a segment whose own words have been read. */
  lemma ReadsClosing(argv: seq<string>, seen: seq<Redirect>, words: seq<string>, closing: seq<string>, more: seq<string>)
    requires AllPlain(words) && (ClosesSegment(closing) || (ClosesLine(closing) && more == []))
    ensures ParseFrom(false, argv, seen, words + (closing + more)) ==
            [Segment(argv, seen, EndingOf(words, closing))] + Behind(closing, more)
  {
    var ts := words + (closing + more);
    StopAt(words, closing + more);
    if closing == [] {
      assert ts == words;
    } else {
      assert ts[|words|] == closing[0];
      ParsesFromOperator(false, argv, seen, ts, |words|);
      if ClosesSegment(closing) {
        assert ts[|words| + 1..] == more;
      }
    }
  }

  lemma ReadsRedirect(argv: seq<string>, seen: seq<Redirect>, words: seq<string>, r: Redirect, tail: seq<string>)
    requires AllPlain(words)
    ensures ParseFrom(false, argv, seen, words + ([if r.Input? then "<" else ">", r.file] + tail)) ==
            ParseFrom(false, argv, seen + [r], tail)
  {
    hide ParseFrom;
    var rest := [if r.Input? then "<" else ">", r.file] + tail;
    StopAt(words, rest);
    var ts := words + rest;
    ParsesFromOperator(false, argv, seen, ts, |words|);
    assert ts[|words|] == rest[0] && ts[|words| + 1] == r.file && ts[|words| + 2..] == tail;
  }

  /** Reading the redirections leaves the parser at the words behind the last file. */
  lemma {:induction false} ReadsWritten(argv: seq<string>, seen: seq<Redirect>, words: seq<string>, redirects: seq<Redirect>,
                                        dropped: seq<seq<string>>, tail: seq<string>)
    requires |dropped| == |redirects| && AllPlain(words) && forall ws | ws in dropped :: AllPlain(ws)
    ensures ParseFrom(false, argv, seen, words + (Written(redirects, dropped) + tail)) ==
            ParseFrom(false, argv, seen + redirects, (if redirects == [] then words else dropped[|dropped| - 1]) + tail)
    decreases |redirects|
  {
    hide ParseFrom, AllPlain;
    if redirects == [] {
      assert Written(redirects, dropped) + tail == tail && seen + redirects == seen;
    } else {
      var sign := [if redirects[0].Input? then "<" else ">", redirects[0].file];
      var rest := dropped[0] + (Written(redirects[1..], dropped[1..]) + tail);
      assert Written(redirects, dropped) + tail == sign + rest;
      ReadsRedirect(argv, seen, words, redirects[0], rest);
      ReadsWritten(argv, seen + [redirects[0]], dropped[0], redirects[1..], dropped[1..], tail);
      assert seen + [redirects[0]] + redirects[1..] == seen + redirects;
    }
  }

  lemma ReadsChunk(c: Chunk, more: seq<string>)
    requires WellWritten(c) && (ClosesSegment(c.closing) || (ClosesLine(c.closing) && more == []))
    ensures Parse(Text(c) + more) == [Meaning(c)] + Behind(c.closing, more)
  {
    hide ParseFrom, EndingOf, Behind;
    var tail := Written(c.redirects, c.dropped) + (c.closing + more);
    assert Text(c) + more == c.words + tail;
    if tail == [] {
      ReadsWords(c.words);
      assert c.redirects == [] && c.closing == [] && Text(c) + more == c.words;
      assert Behind([], more) == [] by { NothingBehind(more); }
    } else {
      StopAt(c.words, tail);
      ParsesFromOperator(true, [], [], c.words + tail, |c.words|);
      ParsesFromOperator(false, c.words, [], c.words + tail, |c.words|);
      ReadsWritten(c.words, [], c.words, c.redirects, c.dropped, c.closing + more);
      assert [] + c.redirects == c.redirects;
      ReadsClosing(c.words, c.redirects, if c.redirects == [] then c.words else c.dropped[|c.dropped| - 1], c.closing, more);
    }
  }

  lemma NothingBehind(more: seq<string>)
    ensures Behind([], more) == []
  {
  }

  lemma ReadsWords(words: seq<string>)
    requires AllPlain(words)
    ensures Parse(words) == [Segment(WithoutAmpersand(words), [], EndingOf(words, []))]
  {
    StopAt(words, []);
    assert words + [] == words;
  }

  lemma {:induction false} ParsesChunks(chunks: seq<Chunk>)
    requires IsLine(chunks)
    ensures Parse(Texts(chunks)) == Meanings(chunks)
    decreases |chunks|
  {
    hide Text, Meaning;
    if |chunks| == 1 {
      ReadsChunk(chunks[0], []);
    } else {
      ReadsChunk(chunks[0], Texts(chunks[1..]));
      ParsesChunks(chunks[1..]);
    }
  }

  // ----- Every line is made of chunks -----

  lemma {:induction false} Chunked(ts: seq<string>) returns (chunks: seq<Chunk>)
    ensures IsLine(chunks) && Texts(chunks) == ts
    decreases |ts|
  {
    hide IsLine, Texts;
    var n := FirstStop(ts);
    if n == |ts| {
      assert ts == ts + [];
      chunks := OneChunk(ts, []);
    } else if OperatorOf(ts[n]) == Some(Pipe) || OperatorOf(ts[n]) == Some(And) {
      var rest := Chunked(ts[n + 1..]);
      chunks := ChunkThen(ts[..n], ts[n], rest);
      assert ts == ts[..n] + [ts[n]] + ts[n + 1..];
    } else if OperatorOf(ts[n]) == Some(Background) || n + 1 == |ts| {
      chunks := OneChunk(ts[..n], ts[n..]);
      assert ts == ts[..n] + ts[n..];
    } else {
      var rest := Chunked(ts[n + 2..]);
      var r := if OperatorOf(ts[n]) == Some(Out) then Output(ts[n + 1]) else Input(ts[n + 1]);
      chunks := RedirectThen(ts[..n], r, rest);
      assert ts == ts[..n] + ([ts[n], ts[n + 1]] + ts[n + 2..]);
    }
  }

  lemma OneChunk(words: seq<string>, closing: seq<string>) returns (chunks: seq<Chunk>)
    requires AllPlain(words) && ClosesLine(closing)
    ensures IsLine(chunks) && Texts(chunks) == words + closing
  {
    chunks := [Chunk(words, [], [], closing)];
    assert [] + closing == closing;
  }

  lemma ChunkThen(words: seq<string>, operator: string, rest: seq<Chunk>) returns (chunks: seq<Chunk>)
    requires AllPlain(words) && ClosesSegment([operator]) && IsLine(rest)
    ensures IsLine(chunks) && Texts(chunks) == words + [operator] + Texts(rest)
  {
    hide AllPlain;
    chunks := [Chunk(words, [], [], [operator])] + rest;
    assert chunks[1..] == rest;
    assert Text(chunks[0]) == words + [operator];
  }

  /** A redirection in front of a chunk: the words of that chunk are dropped. */
  lemma RedirectThen(words: seq<string>, r: Redirect, rest: seq<Chunk>) returns (chunks: seq<Chunk>)
    requires AllPlain(words) && IsLine(rest)
    ensures IsLine(chunks) && Texts(chunks) == words + ([if r.Input? then "<" else ">", r.file] + Texts(rest))
  {
    hide AllPlain, Text, ClosesLine, ClosesSegment;
    var c := rest[0];
    chunks := [Chunk(words, [r] + c.redirects, [c.words] + c.dropped, c.closing)] + rest[1..];
    assert chunks[1..] == rest[1..];
    RedirectingText(words, r, c);
    assert Text(chunks[0]) + (if |rest| == 1 then [] else Texts(rest[1..])) ==
           words + ([if r.Input? then "<" else ">", r.file] + (Text(c) + if |rest| == 1 then [] else Texts(rest[1..])));
  }

  lemma RedirectingText(words: seq<string>, r: Redirect, c: Chunk)
    requires |c.dropped| == |c.redirects|
    ensures Text(Chunk(words, [r] + c.redirects, [c.words] + c.dropped, c.closing)) ==
            words + ([if r.Input? then "<" else ">", r.file] + Text(c))
  {
  }

  /** The parser's segments are what the chunks of the line mean, for every line and every way to
      see it as chunks: nothing else is read into a line, and no line is left out. */
  lemma ParseCharacterised(ts: seq<string>, segs: seq<Segment>)
    ensures Parse(ts) == segs <==> exists chunks :: IsLine(chunks) && Texts(chunks) == ts && Meanings(chunks) == segs
  {
    var chunks := Chunked(ts);
    ParsesChunks(chunks);
    forall chunks | IsLine(chunks) && Texts(chunks) == ts && Meanings(chunks) == segs
      ensures Parse(ts) == segs
    {
      ParsesChunks(chunks);
    }
  }
}
