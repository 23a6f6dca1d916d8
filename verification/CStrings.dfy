/** NUL-terminated strings in character arrays. */
module CStrings {
  /** `end` is where the C string that starts at `from` ends. */
  predicate EndsAt(a: seq<char>, from: nat, end: nat) {
    from <= end < |a| && a[end] == '\0' && forall i | from <= i < end :: a[i] != '\0'
  }

  /** The C string stored at the front of `a`. */
  function CString(a: seq<char>): (s: string)
    ensures |s| <= |a|
  {
    if a == [] || a[0] == '\0' then [] else [a[0]] + CString(a[1..])
  }

  lemma {:induction false} CStringEnds(a: seq<char>)
    requires '\0' in a
    ensures EndsAt(a, 0, |CString(a)|) && CString(a) == a[..|CString(a)|]
  {
    if a[0] != '\0' {
      CStringEnds(a[1..]);
    }
  }
}
