/** The part of JavaScript's `String.prototype.trim` the backend relies on:
    removing leading and trailing white space and line terminators. */
module JsString {

  /** The characters ECMAScript counts as WhiteSpace or LineTerminator. */
  predicate IsWhiteSpace(c: char) {
    // tab, line feed, vertical tab, form feed, carriage return
    || ('\U{9}' <= c <= '\U{D}')
    // space and no-break space
    || c == '\U{20}' || c == '\U{A0}'
    // Ogham space mark, the en quad .. hair space block
    || c == '\U{1680}' || ('\U{2000}' <= c <= '\U{200A}')
    // line separator, paragraph separator
    || c == '\U{2028}' || c == '\U{2029}'
    // narrow no-break, medium mathematical and ideographic spaces, byte order mark
    || c == '\U{202F}' || c == '\U{205F}' || c == '\U{3000}' || c == '\U{FEFF}'
  }

  predicate AllWhiteSpace(s: string) {
    forall i :: 0 <= i < |s| ==> IsWhiteSpace(s[i])
  }

  /** `s` without its leading white space: a suffix of `s` whose dropped
      prefix is all white space and which does not itself start with any. */
  function TrimStart(s: string): (r: string)
    ensures |r| <= |s| && r == s[|s| - |r|..]
    ensures AllWhiteSpace(s[..|s| - |r|])
    ensures r == [] || !IsWhiteSpace(r[0])
    decreases |s|
  {
    if s != [] && IsWhiteSpace(s[0]) then
      var r := TrimStart(s[1..]);
      assert s[..|s| - |r|] == [s[0]] + s[1..][..|s| - 1 - |r|];
      r
    else s
  }

  /** `s` without its trailing white space: a prefix of `s` whose dropped
      suffix is all white space and which does not itself end with any. */
  function TrimEnd(s: string): (r: string)
    ensures |r| <= |s| && r == s[..|r|]
    ensures AllWhiteSpace(s[|r|..])
    ensures r == [] || !IsWhiteSpace(r[|r| - 1])
    decreases |s|
  {
    if s != [] && IsWhiteSpace(s[|s| - 1]) then
      var r := TrimEnd(s[..|s| - 1]);
      assert s[|r|..] == s[..|s| - 1][|r|..] + [s[|s| - 1]];
      r
    else s
  }

  /** `s.trim()`: a slice of `s` whose dropped prefix and dropped suffix are
      all white space, and whose own ends are not. */
  function Trim(s: string): (r: string)
    ensures |r| <= |s|
    ensures exists i, j :: 0 <= i <= j <= |s| && r == s[i..j]
                           && AllWhiteSpace(s[..i]) && AllWhiteSpace(s[j..])
    ensures r == [] || (!IsWhiteSpace(r[0]) && !IsWhiteSpace(r[|r| - 1]))
  {
    var t := TrimStart(s);
    var r := TrimEnd(t);
    SliceOfSlice(s, t, r);
    r
  }

  /** Cutting a white-space prefix off `s` and then a white-space suffix off
      what remains leaves a slice of `s` framed by white space on both sides,
      whose ends are those of the two cuts. */
  lemma SliceOfSlice(s: string, t: string, r: string)
    requires |t| <= |s| && t == s[|s| - |t|..] && AllWhiteSpace(s[..|s| - |t|])
    requires t == [] || !IsWhiteSpace(t[0])
    requires |r| <= |t| && r == t[..|r|] && AllWhiteSpace(t[|r|..])
    requires r == [] || !IsWhiteSpace(r[|r| - 1])
    ensures exists i, j :: 0 <= i <= j <= |s| && r == s[i..j]
                           && AllWhiteSpace(s[..i]) && AllWhiteSpace(s[j..])
    ensures r == [] || (!IsWhiteSpace(r[0]) && !IsWhiteSpace(r[|r| - 1]))
  {
  }

  /** A string trims to the empty string exactly when every character of it
      is white space: this is the test `!name.trim()` performs. */
  lemma TrimEmptyIffAllWhiteSpace(s: string)
    ensures Trim(s) == [] <==> AllWhiteSpace(s)
  {
  }
}
