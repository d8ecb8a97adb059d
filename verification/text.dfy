/**
 The text handling the task list needs: the whitespace-stripping `trim` that
 `addTask` applies to the input field before deciding whether to create a task.
 */
module Text {

  /** The characters `String.prototype.trim` strips: the ECMAScript WhiteSpace
      set (tab, vertical tab, form feed, space, no-break space, byte order mark
      and the Unicode space separators) plus the LineTerminator set. */
  predicate IsWhitespace(c: char) {
    || c == '\t' || c == '\U{000B}' || c == '\U{000C}' || c == ' '
    || c == '\U{00A0}' || c == '\U{FEFF}' || c == '\U{1680}'
    || ('\U{2000}' <= c <= '\U{200A}')
    || c == '\U{202F}' || c == '\U{205F}' || c == '\U{3000}'
    || c == '\n' || c == '\r' || c == '\U{2028}' || c == '\U{2029}'
  }

  /** Among ASCII characters `trim` strips exactly the six control and space
      characters tab, line feed, vertical tab, form feed, carriage return and
      space; the rest of its set lies outside ASCII. */
  lemma AsciiWhitespace(c: char)
    requires c < '\U{0080}'
    ensures IsWhitespace(c) <==>
      c == '\t' || c == '\n' || c == '\U{000B}' || c == '\U{000C}' || c == '\r' || c == ' '
  {
  }

  predicate AllWhitespace(s: string) {
    forall i | 0 <= i < |s| :: IsWhitespace(s[i])
  }

  /** A string that `trim` leaves alone: empty, or with a non-whitespace
      character at both ends. */
  predicate IsTrimmed(s: string) {
    s == [] || (!IsWhitespace(s[0]) && !IsWhitespace(s[|s| - 1]))
  }

  /** `s` is `r` with a whitespace run of length `i` before it and a
      whitespace run after it. */
  ghost predicate PaddedAt(s: string, i: int, r: string) {
    && 0 <= i <= |s| - |r|
    && s[i..i + |r|] == r
    && (forall k | 0 <= k < i :: IsWhitespace(s[k]))
    && (forall k | i + |r| <= k < |s| :: IsWhitespace(s[k]))
  }

  /** The end of the whitespace run that starts at `i`. */
  function SkipLeading(s: string, i: nat): (j: nat)
    requires i <= |s|
    ensures i <= j <= |s|
    ensures forall k | i <= k < j :: IsWhitespace(s[k])
    ensures j == |s| || !IsWhitespace(s[j])
    decreases |s| - i
  {
    if i < |s| && IsWhitespace(s[i]) then SkipLeading(s, i + 1) else i
  }

  /** The start of the whitespace run that ends at `j`, not going below `lo`. */
  function SkipTrailing(s: string, lo: nat, j: nat): (e: nat)
    requires lo <= j <= |s|
    ensures lo <= e <= j
    ensures forall k | e <= k < j :: IsWhitespace(s[k])
    ensures e == lo || !IsWhitespace(s[e - 1])
    decreases j
  {
    if lo < j && IsWhitespace(s[j - 1]) then SkipTrailing(s, lo, j - 1) else j
  }

  /** `String.prototype.trim`: the input with both whitespace runs removed. */
  function Trim(s: string): (r: string)
    ensures |r| <= |s|
    ensures IsTrimmed(r)
    ensures r == [] <==> AllWhitespace(s)
    ensures exists i :: PaddedAt(s, i, r)
  {
    var a := SkipLeading(s, 0);
    var b := SkipTrailing(s, a, |s|);
    var r := s[a..b];
    assert PaddedAt(s, a, r);
    PaddedEmptyIff(s, a, r);
    r
  }

  /** A trimmed middle is empty exactly when the whole string is whitespace. */
  lemma {:induction false} PaddedEmptyIff(s: string, i: int, r: string)
    requires PaddedAt(s, i, r)
    requires IsTrimmed(r)
    ensures r == [] <==> AllWhitespace(s)
  {
  }

  /** `trim` is determined by the padding: whenever `s` is a trimmed string `c`
      surrounded by whitespace, trimming `s` yields exactly `c`. */
  lemma {:induction false} TrimOfPadded(s: string, i: int, c: string)
    requires PaddedAt(s, i, c)
    requires IsTrimmed(c)
    ensures Trim(s) == c
  {
  }

  /** Trimming twice is trimming once. */
  lemma {:induction false} TrimIdempotent(s: string)
    ensures Trim(Trim(s)) == Trim(s)
  {
  }

}
