/** The command language of the mini-shell (lab/isexecutable.c) over lists of tokens: what a
    line means, with no pointers and no NULL writes. */
module CommandLine {
  import opened Options

  /** What `get_op_type` recognises. */
  datatype Operator = Pipe | Out | In | And | Background

  function OperatorOf(token: string): Option<Operator> {
    if token == "|" then Some(Pipe)
    else if token == ">" then Some(Out)
    else if token == "<" then Some(In)
    else if token == "&&" then Some(And)
    else if token == "&" then Some(Background)
    else None
  }

  predicate IsOperator(token: string) {
    OperatorOf(token).Some?
  }

  /** A token that is none of the five operators. */
  predicate IsPlain(token: string) {
    token != "|" && token != ">" && token != "<" && token != "&&" && token != "&"
  }

  datatype Redirect = Input(file: string) | Output(file: string)

  /** What ends a segment; `NoFile` is a redirection with nothing behind it. */
  datatype Ending = Finish | PipeTo | AndThen | Ampersand | NoFile

  datatype Segment = Segment(argv: seq<string>, redirects: seq<Redirect>, ending: Ending)

  /** The index of the first operator, or the length if there is none. */
  function FirstStop(ts: seq<string>): (n: nat)
    ensures n <= |ts| && (n < |ts| ==> IsOperator(ts[n]))
    ensures forall i | 0 <= i < n :: !IsOperator(ts[i])
  {
    if ts == [] || IsOperator(ts[0]) then 0 else 1 + FirstStop(ts[1..])
  }

  predicate EndsInAmpersand(word: string) {
    word != [] && word[|word| - 1] == '&'
  }

  /** An operator-free tail of the line whose last word carries a glued `&`. */
  predicate Glued(ts: seq<string>) {
    ts != [] && EndsInAmpersand(ts[|ts| - 1])
  }

  function Unglue(ts: seq<string>): (us: seq<string>)
    ensures |us| == |ts|
  {
    if Glued(ts) then ts[..|ts| - 1] + [ts[|ts| - 1][..|ts[|ts| - 1]| - 1]] else ts
  }

  /** The segments of the rest `ts` of a line. A segment whose words are still to be read is
      `unread`; otherwise it has `argv` and has seen `redirects`, and any further words up
      to the next operator are dropped. */
  function ParseFrom(unread: bool, argv: seq<string>, redirects: seq<Redirect>, ts: seq<string>): (segs: seq<Segment>)
    ensures segs != []
    decreases |ts|, 0
  {
    var n := FirstStop(ts);
    if n == |ts| then
      var words := if unread then Unglue(ts) else argv;
      [Segment(words, redirects, if Glued(ts) then Ampersand else Finish)]
    else
      var words := if unread then ts[..n] else argv;
      match OperatorOf(ts[n]).value
      case Pipe => [Segment(words, redirects, PipeTo)] + Parse(ts[n + 1..])
      case And => [Segment(words, redirects, AndThen)] + Parse(ts[n + 1..])
      case Background => [Segment(words, redirects, Ampersand)]
      case op =>
        if n + 1 == |ts| then [Segment(words, redirects, NoFile)]
        else
          var redirect := if op == Out then Output(ts[n + 1]) else Input(ts[n + 1]);
          ParseFrom(false, words, redirects + [redirect], ts[n + 2..])
  }

  function Parse(ts: seq<string>): (segs: seq<Segment>)
    ensures segs != []
    decreases |ts|, 1
  {
    ParseFrom(true, [], [], ts)
  }

  /** The segment being read keeps the redirections it has already seen in front. */
  function Prepend(redirects: seq<Redirect>, segs: seq<Segment>): seq<Segment>
    requires segs != []
  {
    [segs[0].(redirects := redirects + segs[0].redirects)] + segs[1..]
  }

  /** The segments from the operator at n of `ts` on. */
  function FromOperator(words: seq<string>, redirects: seq<Redirect>, ts: seq<string>, n: nat): seq<Segment>
    requires n < |ts| && OperatorOf(ts[n]).Some?
  {
    match OperatorOf(ts[n]).value
    case Pipe => [Segment(words, redirects, PipeTo)] + Parse(ts[n + 1..])
    case And => [Segment(words, redirects, AndThen)] + Parse(ts[n + 1..])
    case Background => [Segment(words, redirects, Ampersand)]
    case op =>
      if n + 1 == |ts| then [Segment(words, redirects, NoFile)]
      else ParseFrom(false, words, redirects + [if op == Out then Output(ts[n + 1]) else Input(ts[n + 1])], ts[n + 2..])
  }

  lemma ParsesFromOperator(unread: bool, argv: seq<string>, redirects: seq<Redirect>, ts: seq<string>, n: nat)
    requires n == FirstStop(ts) < |ts|
    ensures ParseFrom(unread, argv, redirects, ts) == FromOperator(if unread then ts[..n] else argv, redirects, ts, n)
  {
  }

  lemma PrependTwice(a: seq<Redirect>, b: seq<Redirect>, segs: seq<Segment>)
    requires segs != []
    ensures Prepend(a + b, segs) == Prepend(a, Prepend(b, segs))
  {
    assert a + (b + segs[0].redirects) == (a + b) + segs[0].redirects;
  }

  /** An operator that ends the segment. */
  lemma EndPrepends(words: seq<string>, redirects: seq<Redirect>, ts: seq<string>, n: nat)
    requires n < |ts| && OperatorOf(ts[n]).Some?
    requires n + 1 == |ts| || (OperatorOf(ts[n]).value != Out && OperatorOf(ts[n]).value != In)
    ensures FromOperator(words, [], ts, n) != []
    ensures FromOperator(words, redirects, ts, n) == Prepend(redirects, FromOperator(words, [], ts, n))
  {
    assert redirects + [] == redirects;
  }

  lemma {:induction false} ParsePrepends(unread: bool, argv: seq<string>, redirects: seq<Redirect>, ts: seq<string>)
    ensures ParseFrom(unread, argv, redirects, ts) == Prepend(redirects, ParseFrom(unread, argv, [], ts))
    decreases |ts|
  {
    var n := FirstStop(ts);
    if n == |ts| {
      assert redirects + [] == redirects;
    } else {
      var words, op := if unread then ts[..n] else argv, OperatorOf(ts[n]).value;
      ParsesFromOperator(unread, argv, redirects, ts, n);
      ParsesFromOperator(unread, argv, [], ts, n);
      if n + 1 < |ts| && (op == Out || op == In) {
        var r := if op == Out then Output(ts[n + 1]) else Input(ts[n + 1]);
        assert [] + [r] == [r];
        ParsePrepends(false, words, redirects + [r], ts[n + 2..]);
        ParsePrepends(false, words, [r], ts[n + 2..]);
        PrependTwice(redirects, [r], ParseFrom(false, words, [], ts[n + 2..]));
      } else {
        EndPrepends(words, redirects, ts, n);
      }
    }
  }

  /** A segment whose words are read keeps them. */
  lemma {:induction false} ParseKeepsWords(argv: seq<string>, redirects: seq<Redirect>, ts: seq<string>)
    ensures ParseFrom(false, argv, redirects, ts)[0].argv == argv
    decreases |ts|
  {
    var n := FirstStop(ts);
    if n + 1 < |ts| && (OperatorOf(ts[n]).value == Out || OperatorOf(ts[n]).value == In) {
      var r := if OperatorOf(ts[n]).value == Out then Output(ts[n + 1]) else Input(ts[n + 1]);
      ParseKeepsWords(argv, redirects + [r], ts[n + 2..]);
    }
  }

  lemma FromOperatorBehind(words: seq<string>, redirects: seq<Redirect>, ts: seq<string>, n: nat)
    requires n < |ts| && OperatorOf(ts[n]).Some?
    ensures FromOperator(words, redirects, ts, n) == FromOperator(words, redirects, ts[n..], 0)
  {
    assert ts[n..][1..] == ts[n + 1..];
    if n + 1 < |ts| {
      assert ts[n..][2..] == ts[n + 2..];
    }
  }

  // ----- Printing -----

  function PrintRedirect(r: Redirect): seq<string> {
    [if r.Input? then "<" else ">", r.file]
  }

  function PrintRedirects(redirects: seq<Redirect>): seq<string> {
    if redirects == [] then []
    else PrintRedirect(redirects[0]) + PrintRedirects(redirects[1..])
  }

  function PrintEnding(e: Ending): seq<string> {
    match e
    case PipeTo => ["|"]
    case AndThen => ["&&"]
    case Ampersand => ["&"]
    case _ => []
  }

  /** The line's tokens; with `glued`, the final `&` is written onto the last word. */
  function Print(segs: seq<Segment>, glued: bool): seq<string> {
    if segs == [] then []
    else if |segs| == 1 && glued && segs[0].argv != [] then
      var argv := segs[0].argv;
      argv[..|argv| - 1] + [argv[|argv| - 1] + "&"]
    else
      segs[0].argv + (PrintRedirects(segs[0].redirects) + PrintEnding(segs[0].ending) + Print(segs[1..], glued))
  }

  /** A line the grammar can print: operators stand only between segments, the last segment
      ends the line or puts it in the background, and no word pretends to be a glued `&`. */
  predicate Canonical(segs: seq<Segment>, glued: bool) {
    && segs != []
    && (forall w | w in segs[0].argv :: IsPlain(w))
    && if |segs| > 1 then
         (segs[0].ending == PipeTo || segs[0].ending == AndThen) && Canonical(segs[1..], glued)
       else if glued then
         segs[0].ending == Ampersand && segs[0].redirects == [] && segs[0].argv != [] && segs[0].argv[|segs[0].argv| - 1] != []
       else
         || segs[0].ending == Ampersand
         || (segs[0].ending == Finish && (segs[0].redirects == [] ==> !Glued(segs[0].argv)))
  }

  lemma {:induction false} StopBehind(words: seq<string>, rest: seq<string>)
    requires forall w | w in words :: IsPlain(w)
    requires rest == [] || IsOperator(rest[0])
    ensures FirstStop(words + rest) == |words|
  {
    if words == [] {
      assert words + rest == rest;
    } else {
      assert words[0] in words;
      assert (words + rest)[1..] == words[1..] + rest;
      StopBehind(words[1..], rest);
    }
  }

  lemma ParseOneRedirect(argv: seq<string>, seen: seq<Redirect>, r: Redirect, rest: seq<string>)
    ensures ParseFrom(false, argv, seen, PrintRedirect(r) + rest) == ParseFrom(false, argv, seen + [r], rest)
  {
    hide ParseFrom;
    var ts := PrintRedirect(r) + rest;
    assert OperatorOf(ts[0]) == Some(if r.Input? then In else Out) && ts[1] == r.file && ts[2..] == rest;
    ParsesFromOperator(false, argv, seen, ts, 0);
  }

  lemma {:induction false} ParsePrintedRedirects(argv: seq<string>, seen: seq<Redirect>, redirects: seq<Redirect>, rest: seq<string>)
    ensures ParseFrom(false, argv, seen, PrintRedirects(redirects) + rest) == ParseFrom(false, argv, seen + redirects, rest)
    decreases |redirects|
  {
    hide ParseFrom;
    if redirects == [] {
      assert PrintRedirects(redirects) + rest == rest && seen + redirects == seen;
    } else {
      var more := PrintRedirects(redirects[1..]) + rest;
      assert PrintRedirects(redirects) + rest == PrintRedirect(redirects[0]) + more;
      ParseOneRedirect(argv, seen, redirects[0], more);
      ParsePrintedRedirects(argv, seen + [redirects[0]], redirects[1..], rest);
      assert seen + [redirects[0]] + redirects[1..] == seen + redirects;
    }
  }

  /** The words in front of an operator are the command. */
  lemma ParseWords(argv: seq<string>, tail: seq<string>)
    requires (forall w | w in argv :: IsPlain(w)) && tail != [] && IsOperator(tail[0])
    ensures Parse(argv + tail) == ParseFrom(false, argv, [], tail)
  {
    var ts := argv + tail;
    StopBehind(argv, tail);
    assert ts[..|argv|] == argv && ts[|argv|..] == tail;
    ParsesFromOperator(true, [], [], ts, |argv|);
    FromOperatorBehind(argv, [], ts, |argv|);
    ParsesFromOperator(false, argv, [], tail, 0);
  }

  /** Reading back a segment's words and redirections leaves the parser at what follows. */
  lemma ParsePrintedSegment(argv: seq<string>, redirects: seq<Redirect>, rest: seq<string>)
    requires forall w | w in argv :: IsPlain(w)
    requires redirects != [] || (rest != [] && IsOperator(rest[0]))
    ensures Parse(argv + (PrintRedirects(redirects) + rest)) == ParseFrom(false, argv, redirects, rest)
  {
    ParseWords(argv, PrintRedirects(redirects) + rest);
    ParsePrintedRedirects(argv, [], redirects, rest);
    assert [] + redirects == redirects;
  }

  lemma ParseGlued(argv: seq<string>)
    requires argv != [] && argv[|argv| - 1] != [] && forall w | w in argv :: IsPlain(w)
    ensures Parse(argv[..|argv| - 1] + [argv[|argv| - 1] + "&"]) == [Segment(argv, [], Ampersand)]
  {
    var last := argv[|argv| - 1];
    var ts := argv[..|argv| - 1] + [last + "&"];
    assert last in argv;
    assert IsPlain(last + "&") by {
      assert (last + "&")[|last|] == '&' && last == (last + "&")[..|last|];
    }
    assert forall w | w in ts :: IsPlain(w);
    StopBehind(ts, []);
    assert ts + [] == ts;
    assert (last + "&")[..|last|] == last;
    assert Unglue(ts) == argv;
  }

  lemma RoundTripLast(s: Segment)
    requires Canonical([s], false)
    ensures Parse(Print([s], false)) == [s]
  {
    var rest := PrintEnding(s.ending);
    assert Print([s], false) == s.argv + (PrintRedirects(s.redirects) + rest);
    if s.redirects == [] && rest == [] {
      assert Print([s], false) == s.argv;
      StopBehind(s.argv, []);
      assert s.argv + [] == s.argv;
    } else {
      ParsePrintedSegment(s.argv, s.redirects, rest);
      assert FirstStop(rest) == 0;
    }
  }

  lemma ParseSegmentThen(s: Segment, more: seq<string>)
    requires s.ending == PipeTo || s.ending == AndThen
    requires forall w | w in s.argv :: IsPlain(w)
    ensures Parse(s.argv + (PrintRedirects(s.redirects) + PrintEnding(s.ending) + more)) == [s] + Parse(more)
  {
    var rest := PrintEnding(s.ending) + more;
    ParsePrintedSegment(s.argv, s.redirects, rest);
    assert PrintRedirects(s.redirects) + PrintEnding(s.ending) + more == PrintRedirects(s.redirects) + rest;
    assert FirstStop(rest) == 0 && rest[1..] == more;
  }

  /** Parsing inverts printing on every canonical line, with the closing `&` spaced or glued. */
  lemma {:induction false} RoundTrip(segs: seq<Segment>, glued: bool)
    requires Canonical(segs, glued)
    ensures Parse(Print(segs, glued)) == segs
    decreases |segs|
  {
    if |segs| > 1 {
      RoundTrip(segs[1..], glued);
      ParseSegmentThen(segs[0], Print(segs[1..], glued));
      assert segs == [segs[0]] + segs[1..];
    } else if glued {
      ParseGlued(segs[0].argv);
    } else {
      RoundTripLast(segs[0]);
      assert segs == [segs[0]];
    }
  }

  /** Pipes and `&&` stand in front of another segment, everything else ends the line. */
  predicate Shaped(endings: seq<Ending>) {
    && endings != []
    && if endings[0] == PipeTo || endings[0] == AndThen then Shaped(endings[1..]) else |endings| == 1
  }

  function Endings(segs: seq<Segment>): (es: seq<Ending>)
    ensures |es| == |segs|
  {
    if segs == [] then [] else [segs[0].ending] + Endings(segs[1..])
  }

  lemma {:induction false} ParseShaped(unread: bool, argv: seq<string>, redirects: seq<Redirect>, ts: seq<string>)
    ensures Shaped(Endings(ParseFrom(unread, argv, redirects, ts)))
    decreases |ts|
  {
    var segs := ParseFrom(unread, argv, redirects, ts);
    var n := FirstStop(ts);
    if n < |ts| {
      var op := OperatorOf(ts[n]).value;
      if op == Pipe || op == And {
        ParseShaped(true, [], [], ts[n + 1..]);
        assert segs[1..] == Parse(ts[n + 1..]);
        assert Endings(segs)[1..] == Endings(segs[1..]);
      } else if op != Background && n + 1 < |ts| {
        ParseShaped(false, if unread then ts[..n] else argv,
                    redirects + [if op == Out then Output(ts[n + 1]) else Input(ts[n + 1])], ts[n + 2..]);
      }
    }
  }
}
