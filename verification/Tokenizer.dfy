/** The line tokenizer of the mini-shell (lab/parsing.c): `strtok` over a NUL-terminated
    buffer, filling an argument array that grows by one entry a token. */
module Tokenizer {
  import opened CStrings
  import opened Options

  predicate IsDelimiter(c: char) {
    c == ' ' || c == '\t' || c == '\n'
  }

  predicate IsBlank(s: string) {
    forall i | 0 <= i < |s| :: s[i] == ' ' || s[i] == '\t' || s[i] == '\n'
  }

  predicate IsWord(s: string) {
    s != [] && forall i | 0 <= i < |s| :: s[i] != ' ' && s[i] != '\t' && s[i] != '\n'
  }

  /** `s` without its leading delimiters. */
  function Skip(s: string): (r: string)
    ensures |r| <= |s|
    ensures r != [] ==> !IsDelimiter(r[0])
  {
    if s != [] && IsDelimiter(s[0]) then Skip(s[1..]) else s
  }

  /** The delimiter-free run at the front of `s`. */
  function Word(s: string): (w: string)
    ensures |w| <= |s|
  {
    if s == [] || IsDelimiter(s[0]) then [] else [s[0]] + Word(s[1..])
  }

  /** The tokens of a line. */
  function Tokens(s: string): seq<string>
    decreases |s|
  {
    var r := Skip(s);
    if r == [] then [] else [Word(r)] + Tokens(r[|Word(r)|..])
  }

  // ----- Printing and parsing a line -----

  /** The line gaps[0] words[0] gaps[1] words[1] ... gaps[n]. */
  function Join(gaps: seq<string>, words: seq<string>): string
    requires |gaps| == |words| + 1
  {
    if words == [] then gaps[0] else gaps[0] + words[0] + Join(gaps[1..], words[1..])
  }

  /** Words separated by non-empty runs of delimiters, with any blanks around them. */
  predicate Layout(gaps: seq<string>, words: seq<string>) {
    && |gaps| == |words| + 1
    && (forall i | 0 <= i < |words| :: IsWord(words[i]))
    && (forall i | 0 <= i < |gaps| :: IsBlank(gaps[i]))
    && (forall i | 0 < i < |words| :: gaps[i] != [])
  }

  lemma {:induction false} SkipBlank(g: string, s: string)
    requires IsBlank(g)
    ensures Skip(g + s) == Skip(s)
  {
    if g == [] {
      assert g + s == s;
    } else {
      assert (g + s)[1..] == g[1..] + s;
      SkipBlank(g[1..], s);
    }
  }

  lemma {:induction false} WordPrefix(w: string, s: string)
    requires forall i | 0 <= i < |w| :: !IsDelimiter(w[i])
    requires s == [] || IsDelimiter(s[0])
    ensures Word(w + s) == w
  {
    if w == [] {
      assert w + s == s;
    } else {
      assert (w + s)[1..] == w[1..] + s;
      WordPrefix(w[1..], s);
    }
  }

  lemma TokensStep(g: string, w: string, rest: string)
    requires IsBlank(g) && IsWord(w)
    requires rest == [] || IsDelimiter(rest[0])
    ensures Tokens(g + w + rest) == [w] + Tokens(rest)
  {
    assert g + w + rest == g + (w + rest);
    SkipBlank(g, w + rest);
    assert Skip(w + rest) == w + rest;
    WordPrefix(w, rest);
    assert (w + rest)[|w|..] == rest;
  }

  lemma JoinHead(gaps: seq<string>, words: seq<string>)
    requires Layout(gaps, words) && words != []
    ensures Layout(gaps[1..], words[1..])
    ensures Join(gaps, words) == gaps[0] + words[0] + Join(gaps[1..], words[1..])
    ensures var rest := Join(gaps[1..], words[1..]); rest == [] || IsDelimiter(rest[0])
  {
    assert IsBlank(gaps[1]);
    if |words| > 1 {
      assert gaps[1] != [];
    }
  }

  lemma {:induction false} TokensOfJoin(gaps: seq<string>, words: seq<string>)
    requires Layout(gaps, words)
    ensures Tokens(Join(gaps, words)) == words
    decreases |words|
  {
    if words == [] {
      SkipBlank(gaps[0], []);
      assert gaps[0] + [] == gaps[0];
    } else {
      JoinHead(gaps, words);
      TokensStep(gaps[0], words[0], Join(gaps[1..], words[1..]));
      TokensOfJoin(gaps[1..], words[1..]);
    }
  }

  lemma LayoutCons(g: string, w: string, gaps: seq<string>, words: seq<string>)
    requires Layout(gaps, words) && IsBlank(g) && IsWord(w)
    requires words != [] ==> gaps[0] != []
    ensures Layout([g] + gaps, [w] + words)
    ensures Join([g] + gaps, [w] + words) == g + w + Join(gaps, words)
  {
    assert ([g] + gaps)[1..] == gaps && ([w] + words)[1..] == words;
  }

  lemma FirstOfJoin(gaps: seq<string>, words: seq<string>)
    requires Layout(gaps, words) && words != []
    ensures Join(gaps, words) != []
    ensures IsDelimiter(Join(gaps, words)[0]) ==> gaps[0] != []
  {
    var joined := gaps[0] + words[0] + Join(gaps[1..], words[1..]);
    assert Join(gaps, words) == joined;
    assert IsWord(words[0]);
    if gaps[0] == [] {
      assert joined[0] == words[0][0];
    }
  }

  lemma {:induction false} SkipSplits(s: string)
    ensures s == s[..|s| - |Skip(s)|] + Skip(s) && IsBlank(s[..|s| - |Skip(s)|])
  {
    if s != [] && IsDelimiter(s[0]) {
      var t := s[1..];
      SkipSplits(t);
      var blank := t[..|t| - |Skip(t)|];
      assert s == [s[0]] + t && Skip(s) == Skip(t);
      assert s[..|s| - |Skip(s)|] == [s[0]] + blank;
    }
  }

  lemma {:induction false} WordSplits(s: string)
    ensures s == Word(s) + s[|Word(s)|..]
    ensures forall i | 0 <= i < |Word(s)| :: !IsDelimiter(Word(s)[i])
    ensures s[|Word(s)|..] == [] || IsDelimiter(s[|Word(s)|..][0])
  {
    if s != [] && !IsDelimiter(s[0]) {
      WordSplits(s[1..]);
      assert s[|Word(s)|..] == s[1..][|Word(s[1..])|..];
    }
  }

  lemma CoverStep(s: string, t: string, gaps: seq<string>)
    requires Skip(s) != [] && t == Skip(s)[|Word(Skip(s))|..]
    requires Layout(gaps, Tokens(t)) && Join(gaps, Tokens(t)) == t
    ensures var g := s[..|s| - |Skip(s)|];
            Layout([g] + gaps, Tokens(s)) && Join([g] + gaps, Tokens(s)) == s
  {
    var g, w := s[..|s| - |Skip(s)|], Word(Skip(s));
    SkipSplits(s);
    WordSplits(Skip(s));
    if Tokens(t) != [] {
      FirstOfJoin(gaps, Tokens(t));
    }
    LayoutCons(g, w, gaps, Tokens(t));
    assert g + w + t == g + (w + t);
  }

  lemma {:induction false} TokensCover(s: string) returns (gaps: seq<string>)
    ensures Layout(gaps, Tokens(s)) && Join(gaps, Tokens(s)) == s
    decreases |s|
  {
    var r := Skip(s);
    if r == [] {
      SkipSplits(s);
      gaps := [s];
    } else {
      var t := r[|Word(r)|..];
      var rest := TokensCover(t);
      CoverStep(s, t, rest);
      gaps := [s[..|s| - |r|]] + rest;
    }
  }

  /** The tokens of a line are exactly its maximal delimiter-free runs, in order: parsing
      inverts every way of laying the words out, and every line is such a layout. */
  lemma TokensCharacterised(s: string, words: seq<string>)
    ensures Tokens(s) == words <==> exists gaps :: Layout(gaps, words) && Join(gaps, words) == s
  {
    if Tokens(s) == words {
      var gaps := TokensCover(s);
    }
    forall gaps | Layout(gaps, words) && Join(gaps, words) == s
      ensures Tokens(s) == words
    {
      TokensOfJoin(gaps, words);
    }
  }

  lemma TokensAreWords(s: string)
    ensures forall i | 0 <= i < |Tokens(s)| :: IsWord(Tokens(s)[i])
  {
    var gaps := TokensCover(s);
  }

  /** A line of n characters has at most (n + 1) / 2 tokens. */
  lemma {:induction false} TokenBound(s: string)
    ensures 2 * |Tokens(s)| <= |s| + 1
    decreases |s|
  {
    var r := Skip(s);
    if r != [] {
      var w := Word(r);
      var rest := r[|w|..];
      WordSplits(r);
      if rest != [] {
        assert Skip(rest) == Skip(rest[1..]);
        assert Tokens(rest) == Tokens(rest[1..]);
        TokenBound(rest[1..]);
      }
    }
  }

  // ----- The buffer and strtok -----

  /** The hidden state of `strtok`: the line it cuts up and where the next call resumes. */
  class Strtok {
    const line: array<char>
    var next: nat
    ghost var end: nat  // where the line's terminating NUL is
    ghost var left: seq<string>  // the tokens that later calls will return

    ghost predicate Valid()
      reads this, line
    {
      EndsAt(line[..], next, end) && left == Tokens(line[next..end])
    }

    constructor (line: array<char>)
      requires '\0' in line[..]
      ensures Valid() && this.line == line && left == Tokens(CString(line[..]))
    {
      this.line, next, end := line, 0, |CString(line[..])|;
      left := Tokens(CString(line[..]));
      CStringEnds(line[..]);
    }

    /** Where the characters from `from` on stop being delimiters. */
    method SpanDelimiters(from: nat) returns (start: nat)
      requires EndsAt(line[..], from, end)
      ensures from <= start <= end
      ensures line[start..end] == Skip(line[from..end])
    {
      start := from;
      while IsDelimiter(line[start])
        invariant from <= start <= end
        invariant Skip(line[start..end]) == Skip(line[from..end])
        decreases end - start
      {
        assert line[start..end][1..] == line[start + 1..end];
        start := start + 1;
      }
    }

    /** Where the word at `from` ends. */
    method SpanWord(from: nat) returns (stop: nat)
      requires EndsAt(line[..], from, end)
      ensures from <= stop <= end && (stop == end || IsDelimiter(line[stop]))
      ensures line[from..stop] == Word(line[from..end])
    {
      stop := from;
      while line[stop] != '\0' && !IsDelimiter(line[stop])
        invariant from <= stop <= end
        invariant Word(line[from..end]) == line[from..stop] + Word(line[stop..end])
        decreases end - stop
      {
        assert line[stop..end][1..] == line[stop + 1..end];
        stop := stop + 1;
      }
    }

    /** One `strtok` call: returns the next token, or None when the line has no more, and
        overwrites the delimiter behind the token with NUL. */
    method Next() returns (token: Option<string>)
      requires Valid()
      modifies this, line
      ensures Valid()
      ensures if old(left) == [] then token == None && left == []
              else token == Some(old(left)[0]) && left == old(left)[1..]
    {
      var start := SpanDelimiters(next);
      if line[start] == '\0' {
        next := start;
        return None;
      }
      var stop := SpanWord(start);
      token := Some(line[start..stop]);
      assert line[start..end][|token.value|..] == line[stop..end];
      if line[stop] == '\0' {
        next := stop;
      } else {
        assert line[stop..end][1..] == line[stop + 1..end];
        ghost var after := line[stop + 1..end];
        assert Tokens(line[stop..end]) == Tokens(after) by { assert Skip(line[stop..end]) == Skip(after); }
        line[stop] := '\0';
        next := stop + 1;
        assert line[next..end] == after;
      }
      left := left[1..];
    }
  }

  // ----- command_parse and command_freelist -----

  /** The array holds the strings `ts` followed by NULL. */
  predicate NullTerminated(a: seq<Option<string>>, ts: seq<string>) {
    && |a| == |ts| + 1
    && (forall i | 0 <= i < |ts| :: a[i] == Some(ts[i]))
    && a[|ts|] == None
  }

  method Realloc(a: array<Option<string>>, size: nat) returns (b: array<Option<string>>)
    requires a.Length <= size
    ensures fresh(b) && b.Length == size && forall i | 0 <= i < a.Length :: b[i] == a[i]
  {
    b := new Option<string>[size](i => None);
    for i := 0 to a.Length
      invariant forall j | 0 <= j < i :: b[j] == a[j]
    {
      b[i] := a[i];
    }
  }

  /** `command_parse`: NULL for a missing or blank line, otherwise a fresh NULL-terminated
      array of the line's tokens. */
  method CommandParse(line: array?<char>) returns (arglist: array?<Option<string>>)
    requires line != null ==> '\0' in line[..]
    modifies line
    ensures arglist == null <==> line == null || old(Tokens(CString(line[..]))) == []
    ensures arglist != null ==> fresh(arglist) && NullTerminated(arglist[..], old(Tokens(CString(line[..]))))
  {
    if line == null {
      return null;
    }
    var strtok := new Strtok(line);
    var token := strtok.Next();
    if token.None? {
      return null;
    }
    arglist := Collect(strtok, token);
  }

  /** The loop of `command_parse`: stores `first` and all later tokens. */
  method Collect(strtok: Strtok, first: Option<string>) returns (arglist: array<Option<string>>)
    requires strtok.Valid() && first.Some?
    modifies strtok, strtok.line
    ensures fresh(arglist) && NullTerminated(arglist[..], [first.value] + old(strtok.left))
  {
    ghost var all := [first.value] + strtok.left;
    var token, argCount := first, 0;
    arglist := new Option<string>[1](i => None);
    while token.Some?
      invariant strtok.Valid()
      invariant fresh(arglist) && arglist.Length == argCount + 1 && argCount <= |all|
      invariant forall i | 0 <= i < argCount :: arglist[i] == Some(all[i])
      invariant if token.None? then argCount == |all|
                else argCount < |all| && token.value == all[argCount] && strtok.left == all[argCount + 1..]
      decreases |all| - argCount
    {
      arglist[argCount] := token;
      argCount := argCount + 1;
      token := strtok.Next();
      arglist := Realloc(arglist, argCount + 1);
    }
    arglist[argCount] := None;
  }

  /** The strings in front of the first NULL. */
  function BeforeNull(a: seq<Option<string>>): (ts: seq<string>)
    ensures |ts| <= |a|
  {
    if a == [] || a[0].None? then [] else [a[0].value] + BeforeNull(a[1..])
  }

  lemma {:induction false} BeforeNullIs(a: seq<Option<string>>, ts: seq<string>)
    requires |ts| < |a| && a[|ts|].None?
    requires forall i | 0 <= i < |ts| :: a[i] == Some(ts[i])
    ensures BeforeNull(a) == ts
  {
    if ts != [] {
      BeforeNullIs(a[1..], ts[1..]);
    }
  }

  /** `command_freelist`: the strings it frees are those in front of the first NULL. */
  method CommandFreeList(arglist: array<Option<string>>) returns (freed: seq<string>)
    requires None in arglist[..]
    ensures freed == BeforeNull(arglist[..])
  {
    freed := [];
    var i := 0;
    assert arglist[0..] == arglist[..];
    while arglist[i].Some?
      invariant 0 <= i < arglist.Length && None in arglist[i..]
      invariant BeforeNull(arglist[..]) == freed + BeforeNull(arglist[i..])
      decreases arglist.Length - i
    {
      freed := freed + [arglist[i].value];
      assert arglist[i..][1..] == arglist[i + 1..];
      i := i + 1;
    }
  }
}
