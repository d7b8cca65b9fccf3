/** String.prototype.trim: removal of leading and trailing white space, with
    white space as ECMAScript defines it (the WhiteSpace and LineTerminator
    code points). */
module Text {

  /** The single ECMAScript white-space code points: TAB, LF, VT, FF, CR,
      SPACE, NBSP, OGHAM SPACE MARK, LS, PS, NNBSP, MMSP, IDEOGRAPHIC SPACE
      and ZWNBSP. */
  const SingleWhitespace: set<char> :=
    {'\U{0009}', '\U{000A}', '\U{000B}', '\U{000C}', '\U{000D}', '\U{0020}', '\U{00A0}',
     '\U{1680}', '\U{2028}', '\U{2029}', '\U{202F}', '\U{205F}', '\U{3000}', '\U{FEFF}'}

  /** ECMAScript WhiteSpace (TAB, VT, FF, ZWNBSP and every Space_Separator)
      and LineTerminator (LF, CR, LS, PS). */
  predicate IsWhitespace(c: char)
  {
    c in SingleWhitespace || '\U{2000}' <= c <= '\U{200A}'
  }

  /** The index of the first character at or after `i` that is not white
      space (or |s|). */
  function SkipLeading(s: string, i: nat): (n: nat)
    requires i <= |s|
    ensures i <= n <= |s|
    ensures forall k :: i <= k < n ==> IsWhitespace(s[k])
    ensures n == |s| || !IsWhitespace(s[n])
    decreases |s| - i
  {
    if i < |s| && IsWhitespace(s[i]) then SkipLeading(s, i + 1) else i
  }

  /** The index just past the last character before `hi` that is not white
      space, never going below `lo`. */
  function SkipTrailing(s: string, lo: nat, hi: nat): (n: nat)
    requires lo <= hi <= |s|
    ensures lo <= n <= hi
    ensures forall k :: n <= k < hi ==> IsWhitespace(s[k])
    ensures n == lo || !IsWhitespace(s[n - 1])
    decreases hi
  {
    if lo < hi && IsWhitespace(s[hi - 1]) then SkipTrailing(s, lo, hi - 1) else hi
  }

  /** How many leading characters `s.trim()` cuts away. */
  function TrimOffset(s: string): (n: nat)
    ensures n <= |s|
  {
    SkipLeading(s, 0)
  }

  /** `s.trim()`: the slice of `s` that starts at TrimOffset(s), with no white
      space at either end; everything cut away is white space. */
  function Trim(s: string): (r: string)
    ensures TrimOffset(s) + |r| <= |s| && r == s[TrimOffset(s)..TrimOffset(s) + |r|]
    ensures forall k :: 0 <= k < TrimOffset(s) ==> IsWhitespace(s[k])
    ensures forall k :: TrimOffset(s) + |r| <= k < |s| ==> IsWhitespace(s[k])
    ensures r == [] || (!IsWhitespace(r[0]) && !IsWhitespace(r[|r| - 1]))
  {
    var lo := TrimOffset(s);
    var hi := SkipTrailing(s, lo, |s|);
    assert lo < hi ==> !IsWhitespace(s[lo]);
    s[lo..hi]
  }

  /** `!s.trim()`: the string is empty once trimmed. */
  predicate IsBlank(s: string)
  {
    Trim(s) == []
  }

  /** A string is blank exactly when every character of it is white space. */
  lemma BlankIffAllWhitespace(s: string)
    ensures IsBlank(s) <==> forall i :: 0 <= i < |s| ==> IsWhitespace(s[i])
  {
    var t := Trim(s);
    if t != [] {
      assert t[0] == s[TrimOffset(s)];
    }
  }

}
