/**
  The two JavaScript string operations the upload handler relies on, as ECMA-262 (2024)
  defines them: `String.prototype.trim` (section 22.1.3.32, the TrimString operation)
  and `String.prototype.startsWith` (section 22.1.3.24).
 */
module JsString {

  /** WhiteSpace of ECMA-262 section 12.2: TAB, VT, FF, ZWNBSP and every Zs code point. */
  predicate IsWhiteSpace(c: char) {
    c == '\t' || c == '\U{000B}' || c == '\U{000C}' || c == '\U{FEFF}' || IsSpaceSeparator(c)
  }

  /** The Unicode general category Zs ("space separator"). */
  predicate IsSpaceSeparator(c: char) {
    || c == ' '
    || c == '\U{00A0}'
    || c == '\U{1680}'
    || ('\U{2000}' <= c <= '\U{200A}')
    || c == '\U{202F}'
    || c == '\U{205F}'
    || c == '\U{3000}'
  }

  /** LineTerminator of ECMA-262 section 12.3: LF, CR, LINE SEPARATOR, PARAGRAPH SEPARATOR. */
  predicate IsLineTerminator(c: char) {
    c == '\n' || c == '\r' || c == '\U{2028}' || c == '\U{2029}'
  }

  /** The characters TrimString removes. */
  predicate IsJsWs(c: char) {
    IsWhiteSpace(c) || IsLineTerminator(c)
  }

  predicate AllWs(s: string) {
    forall k :: 0 <= k < |s| ==> IsJsWs(s[k])
  }

  /** TrimString(s, start): drops the leading white space; what is left is a suffix of `s`. */
  function TrimStart(s: string): (r: string)
    ensures |r| <= |s| && r == s[|s| - |r|..]
    ensures AllWs(s[..|s| - |r|])
    ensures r == [] || !IsJsWs(r[0])
  {
    if s == [] then []
    else if IsJsWs(s[0]) then TrimStart(s[1..])
    else s
  }

  /** TrimString(s, end): drops the trailing white space; what is left is a prefix of `s`. */
  function TrimEnd(s: string): (r: string)
    ensures |r| <= |s| && r == s[..|r|]
    ensures AllWs(s[|r|..])
    ensures r == [] || !IsJsWs(r[|r| - 1])
  {
    if s == [] then []
    else if IsJsWs(s[|s| - 1]) then TrimEnd(s[..|s| - 1])
    else s
  }

  /** `s.trim()`: TrimString(s, start+end). */
  function Trim(s: string): (r: string)
    ensures r == [] <==> AllWs(s)
    ensures r != [] ==> !IsJsWs(r[0]) && !IsJsWs(r[|r| - 1])
  {
    TrimEnd(TrimStart(s))
  }

  /**
    `r` is `s` with its leading `s[..i]` and trailing `s[j..]` white space removed, and
    no further white space is left at either end: the reference meaning of TrimString.
   */
  ghost predicate TrimBounds(s: string, i: int, j: int) {
    && 0 <= i <= j <= |s|
    && AllWs(s[..i])
    && AllWs(s[j..])
    && (i < j ==> !IsJsWs(s[i]) && !IsJsWs(s[j - 1]))
  }

  ghost predicate IsTrimOf(s: string, r: string) {
    exists i, j :: TrimBounds(s, i, j) && r == s[i..j]
  }

  /** Trim computes a copy of `s` with the leading and trailing white space removed. */
  lemma TrimIsTrimOf(s: string)
    ensures IsTrimOf(s, Trim(s))
  {
    var t := TrimStart(s);
    var u := TrimEnd(t);
    var i := |s| - |t|;
    var j := i + |u|;
    assert t == s[i..];
    assert u == s[i..j];
    assert s[j..] == t[|u|..];
    assert TrimBounds(s, i, j);
  }

  /** There is only one such copy, so Trim is the TrimString of ECMA-262 and nothing else. */
  lemma TrimUnique(s: string, r: string)
    requires IsTrimOf(s, r)
    ensures r == Trim(s)
  {
    TrimIsTrimOf(s);
    var i, j :| TrimBounds(s, i, j) && r == s[i..j];
    var i', j' :| TrimBounds(s, i', j') && Trim(s) == s[i'..j'];
    BoundsUnique(s, i, j, i', j');
  }

  /** Two splittings that both meet TrimBounds keep the same characters. */
  lemma BoundsUnique(s: string, i: int, j: int, i': int, j': int)
    requires TrimBounds(s, i, j) && TrimBounds(s, i', j')
    ensures s[i..j] == s[i'..j']
  {
  }

  /** `s.startsWith(search)` with the default position 0. */
  function StartsWith(s: string, search: string): (b: bool)
    ensures b <==> search <= s
  {
    |search| <= |s| && s[..|search|] == search
  }
}
