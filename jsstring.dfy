// The JavaScript string built-ins that the session handlers rely on:
// `split(sep)[0]`, `charAt(0).toUpperCase() + slice(1)`, `trim()` and
// `includes(pattern)`. Strings are sequences of Unicode scalar values;
// upper-casing is restricted to ASCII letters.
module JsString {

  /** Upper-cases an ASCII lower-case letter and leaves every other character alone. */
  function ToUpperAscii(c: char): (u: char)
    ensures 'a' <= c <= 'z' ==> 'A' <= u <= 'Z' && u as int - 'A' as int == c as int - 'a' as int
    ensures !('a' <= c <= 'z') ==> u == c
  {
    if 'a' <= c <= 'z' then (c as int - 32) as char else c
  }

  /** `s.split(sep)[0]`: everything before the first `sep`, or all of `s` when there is none. */
  function FirstField(s: string, sep: char): (p: string)
    ensures |p| <= |s| && p == s[..|p|]
    ensures sep !in p
    ensures |p| < |s| ==> s[|p|] == sep
  {
    if s == [] || s[0] == sep then []
    else [s[0]] + FirstField(s[1..], sep)
  }

  /** The first field is the only prefix that stops at the first separator. */
  lemma FirstFieldUnique(s: string, sep: char, q: string)
    requires |q| <= |s| && q == s[..|q|]
    requires sep !in q
    requires |q| < |s| ==> s[|q|] == sep
    ensures q == FirstField(s, sep)
  {
  }

  /** `s.charAt(0).toUpperCase() + s.slice(1)`. */
  function CapitalizeFirst(s: string): (r: string)
    ensures |r| == |s|
    ensures s != [] ==> r[0] == ToUpperAscii(s[0]) && r[1..] == s[1..]
  {
    if s == [] then [] else [ToUpperAscii(s[0])] + s[1..]
  }

  /**
   * The code points `String.prototype.trim` strips: the ECMAScript WhiteSpace
   * characters (TAB, VT, FF, SPACE, NBSP, ZWNBSP and the space separators) and the
   * LineTerminator characters (LF, CR, LS, PS).
   */
  predicate IsWhitespace(c: char) {
    var n := c as int;
    n == 0x09 || n == 0x0A || n == 0x0B || n == 0x0C || n == 0x0D || n == 0x20 ||
    n == 0xA0 || n == 0x1680 || (0x2000 <= n <= 0x200A) || n == 0x2028 || n == 0x2029 ||
    n == 0x202F || n == 0x205F || n == 0x3000 || n == 0xFEFF
  }

  /** True when every character of `s` is whitespace (vacuously so for the empty string). */
  predicate IsBlank(s: string) {
    forall i | 0 <= i < |s| :: IsWhitespace(s[i])
  }

  /** Drops leading whitespace. */
  function TrimStart(s: string): (r: string)
    ensures |r| <= |s| && r == s[|s| - |r|..]
    ensures IsBlank(s[..|s| - |r|])
    ensures r == [] || !IsWhitespace(r[0])
  {
    if s != [] && IsWhitespace(s[0]) then TrimStart(s[1..]) else s
  }

  /** Drops trailing whitespace. */
  function TrimEnd(s: string): (r: string)
    ensures |r| <= |s| && r == s[..|r|]
    ensures IsBlank(s[|r|..])
    ensures r == [] || !IsWhitespace(r[|r| - 1])
  {
    if s != [] && IsWhitespace(s[|s| - 1]) then TrimEnd(s[..|s| - 1]) else s
  }

  /** A string with no leading whitespace is blank only when it is empty. */
  lemma BlankStartsWithWhitespace(t: string)
    requires t == [] || !IsWhitespace(t[0])
    ensures IsBlank(t) <==> t == []
  {
  }

  /** A prefix `r` of a suffix `t` of `s`, each cut off at blank margins, is a slice of `s` with blank margins. */
  lemma BlankMargins(s: string, t: string, r: string)
    requires |t| <= |s| && t == s[|s| - |t|..] && IsBlank(s[..|s| - |t|])
    requires |r| <= |t| && r == t[..|r|] && IsBlank(t[|r|..])
    ensures var k := |s| - |t|;
            r == s[k..k + |r|] && IsBlank(s[..k]) && IsBlank(s[k + |r|..])
  {
  }

  /**
   * `s.trim()`: the middle of `s` left after dropping whitespace at both ends;
   * it neither starts nor ends with whitespace.
   */
  function Trim(s: string): (r: string)
    ensures r == [] <==> IsBlank(s)
    ensures exists k | 0 <= k <= |s| - |r| :: r == s[k..k + |r|] && IsBlank(s[..k]) && IsBlank(s[k + |r|..])
    ensures r == [] || (!IsWhitespace(r[0]) && !IsWhitespace(r[|r| - 1]))
  {
    var t := TrimStart(s);
    var r := TrimEnd(t);
    BlankMargins(s, t, r);
    assert r != [] ==> r[0] == t[0];
    assert r == [] <==> IsBlank(t) by {
      assert r == [] ==> t[|r|..] == t;
    }
    BlankStartsWithWhitespace(t);
    assert t == [] ==> s[..|s| - |t|] == s;
    r
  }

  /** `pat` occurs in `text` starting at position `k`. */
  predicate OccursAt(text: string, pat: string, k: nat) {
    k + |pat| <= |text| && text[k..k + |pat|] == pat
  }

  lemma OccursAtShift(text: string, pat: string, k: nat)
    requires text != []
    ensures OccursAt(text[1..], pat, k) <==> OccursAt(text, pat, k + 1)
  {
  }

  /** `text.includes(pat)`: some position of `text` starts an occurrence of `pat`. */
  function Includes(text: string, pat: string): (b: bool)
    ensures b <==> exists k: nat :: OccursAt(text, pat, k)
    decreases |text|
  {
    if |pat| > |text| then
      assert forall k: nat :: !OccursAt(text, pat, k);
      false
    else if text[..|pat|] == pat then
      assert OccursAt(text, pat, 0);
      true
    else
      var rest := Includes(text[1..], pat);
      assert rest <==> exists k: nat :: OccursAt(text, pat, k) by {
        if rest {
          var k: nat :| OccursAt(text[1..], pat, k);
          OccursAtShift(text, pat, k);
        } else {
          forall k: nat ensures !OccursAt(text, pat, k) {
            if k > 0 {
              OccursAtShift(text, pat, k - 1);
            }
          }
        }
      }
      rest
  }
}
