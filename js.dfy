/** Values and string operations of the browser script, as the script uses them.
    A field that may be missing is an `Option<string>`: `None` is JavaScript's
    `undefined`. The string operations are the built-ins the script calls
    (`trim`, `includes`, `replace`, `substring`, `charAt`, `toLowerCase`,
    `split('/').pop()`), stated on Dafny strings. */
module Js {

  datatype Option<T> = None | Some(value: T)

  /** A possibly-missing string is truthy in JavaScript when it is present and non-empty. */
  predicate Truthy(v: Option<string>) {
    v.Some? && v.value != ""
  }

  /** `a || b` for two possibly-missing strings. */
  function Or(a: Option<string>, b: Option<string>): Option<string> {
    if Truthy(a) then a else b
  }

  /** `a || 'literal'`: a present, non-empty string, or the literal. */
  function OrElse(a: Option<string>, default: string): (r: string)
    ensures Truthy(a) ==> r == a.value
    ensures !Truthy(a) ==> r == default
    ensures default != "" ==> r != ""
  {
    if Truthy(a) then a.value else default
  }

  /** What a template literal `${v}` writes for a possibly-missing string. */
  function Show(v: Option<string>): (r: string)
    ensures v.Some? ==> r == v.value
    ensures v.None? ==> r == "undefined"
  {
    match v
    case Some(s) => s
    case None => "undefined"
  }

  // ---------------------------------------------------------------------------
  // trim

  /** The characters `String.prototype.trim` removes: ECMAScript WhiteSpace and LineTerminator. */
  predicate IsSpace(c: char) {
    c == '\t' || c == '\n' || c == '\U{000B}' || c == '\U{000C}' || c == '\r' || c == ' '
    || c == '\U{00A0}' || c == '\U{1680}' || ('\U{2000}' <= c <= '\U{200A}')
    || c == '\U{2028}' || c == '\U{2029}' || c == '\U{202F}' || c == '\U{205F}'
    || c == '\U{3000}' || c == '\U{FEFF}'
  }

  predicate AllSpace(s: string) {
    forall k :: 0 <= k < |s| ==> IsSpace(s[k])
  }

  /** `trimStart`: drop the white space at the front. */
  function TrimStart(s: string): string {
    if s != [] && IsSpace(s[0]) then TrimStart(s[1..]) else s
  }

  /** `trimEnd`: drop the white space at the back. */
  function TrimEnd(s: string): string {
    if s != [] && IsSpace(s[|s| - 1]) then TrimEnd(s[..|s| - 1]) else s
  }

  /** `s.trim()`. */
  function Trim(s: string): string {
    TrimEnd(TrimStart(s))
  }

  /** `trimStart` keeps a suffix, drops only white space, and stops at the first other character. */
  lemma {:induction false} TrimStartShape(s: string)
    ensures var r := TrimStart(s);
      && |r| <= |s| && r == s[|s| - |r|..]
      && AllSpace(s[..|s| - |r|])
      && (r == "" || !IsSpace(r[0]))
  {
    if s != [] && IsSpace(s[0]) {
      TrimStartShape(s[1..]);
      var r := TrimStart(s[1..]);
      assert s[..|s| - |r|] == [s[0]] + s[1..][..|s| - 1 - |r|];
    }
  }

  /** `trimEnd` keeps a prefix, drops only white space, and stops at the last other character. */
  lemma {:induction false} TrimEndShape(s: string)
    ensures var r := TrimEnd(s);
      && |r| <= |s| && r == s[..|r|]
      && AllSpace(s[|r|..])
      && (r == "" || !IsSpace(r[|r| - 1]))
  {
    if s != [] && IsSpace(s[|s| - 1]) {
      var p := s[..|s| - 1];
      TrimEndShape(p);
      var r := TrimEnd(p);
      assert s[|r|..] == p[|r|..] + [s[|s| - 1]];
    }
  }

  /** What `trim` keeps is a slice of the input with white space dropped at the two ends only,
      and it neither starts nor ends with white space. */
  lemma TrimIsSlice(s: string)
    ensures exists i, j :: 0 <= i <= j <= |s| && Trim(s) == s[i..j] && AllSpace(s[..i]) && AllSpace(s[j..])
    ensures Trim(s) == "" || (!IsSpace(Trim(s)[0]) && !IsSpace(Trim(s)[|Trim(s)| - 1]))
  {
    var t := TrimStart(s);
    TrimStartShape(s);
    TrimEndShape(t);
    var r := TrimEnd(t);
    var i := |s| - |t|;
    assert r == s[i..i + |r|];
    assert s[i + |r|..] == t[|r|..];
  }

  /** The trimmed string is empty exactly when the whole string is white space. */
  lemma {:induction false} TrimEmptyIff(s: string)
    ensures Trim(s) == "" <==> AllSpace(s)
  {
    if AllSpace(s) {
      AllSpaceTrimStart(s);
    } else {
      var k :| 0 <= k < |s| && !IsSpace(s[k]);
      var t := TrimStart(s);
      TrimStartShape(s);
      assert !AllSpace(t) by {
        assert k >= |s| - |t|;
        assert t[k - (|s| - |t|)] == s[k];
      }
      TrimEndNonEmpty(t);
    }
  }

  lemma {:induction false} AllSpaceTrimStart(s: string)
    requires AllSpace(s)
    ensures TrimStart(s) == ""
  {
    if s != [] {
      AllSpaceTrimStart(s[1..]);
    }
  }

  lemma {:induction false} TrimEndNonEmpty(s: string)
    requires !AllSpace(s)
    ensures TrimEnd(s) != ""
  {
    if s != [] && IsSpace(s[|s| - 1]) {
      var p := s[..|s| - 1];
      assert !AllSpace(p) by {
        var k :| 0 <= k < |s| && !IsSpace(s[k]);
        assert k < |s| - 1 && p[k] == s[k];
      }
      TrimEndNonEmpty(p);
    }
  }

  /** White space in front of a string does not survive `trim`. */
  lemma TrimSpacePrefix(w: string, s: string)
    requires AllSpace(w)
    ensures Trim(w + s) == Trim(s)
  {
    TrimStartSpacePrefix(w, s);
  }

  lemma {:induction false} TrimStartSpacePrefix(w: string, s: string)
    requires AllSpace(w)
    ensures TrimStart(w + s) == TrimStart(s)
  {
    if w == [] {
      assert w + s == s;
    } else {
      assert (w + s)[0] == w[0];
      assert (w + s)[1..] == w[1..] + s;
      TrimStartSpacePrefix(w[1..], s);
    }
  }

  /** White space after a string does not survive `trim`. */
  lemma {:induction false} TrimSpaceSuffix(s: string, w: string)
    requires AllSpace(w)
    ensures Trim(s + w) == Trim(s)
  {
    TrimStartSpaceSuffix(s, w);
    var t := TrimStart(s);
    TrimEndSpaceSuffix(t, w);
  }

  lemma {:induction false} TrimStartSpaceSuffix(s: string, w: string)
    requires AllSpace(w)
    ensures TrimStart(s + w) == TrimStart(s) + w || (TrimStart(s) == "" && TrimStart(s + w) == "")
  {
    if s == [] {
      assert s + w == w;
      AllSpaceTrimStart(w);
    } else {
      assert (s + w)[0] == s[0];
      if IsSpace(s[0]) {
        assert (s + w)[1..] == s[1..] + w;
        TrimStartSpaceSuffix(s[1..], w);
      }
    }
  }

  lemma {:induction false} TrimEndSpaceSuffix(t: string, w: string)
    requires AllSpace(w)
    ensures TrimEnd(t + w) == TrimEnd(t)
    decreases |w|
  {
    if w == [] {
      assert t + w == t;
    } else {
      var p := w[..|w| - 1];
      assert (t + w)[..|t + w| - 1] == t + p;
      TrimEndSpaceSuffix(t, p);
    }
  }

  // ---------------------------------------------------------------------------
  // includes, replace

  /** `sub` occurs in `s` starting at position `k`. */
  predicate OccursAt(s: string, sub: string, k: int) {
    0 <= k && k + |sub| <= |s| && s[k..k + |sub|] == sub
  }

  /** `s.indexOf(sub)`: the first position where `sub` occurs, or -1 when it does not occur. */
  function IndexOf(s: string, sub: string): (r: int)
    ensures r == -1 || OccursAt(s, sub, r)
    ensures forall k :: 0 <= k && (r == -1 || k < r) ==> !OccursAt(s, sub, k)
    decreases |s|
  {
    if |s| < |sub| then
      -1
    else if s[..|sub|] == sub then
      assert s[0..|sub|] == s[..|sub|];
      0
    else
      var t := IndexOf(s[1..], sub);
      assert s[0..|sub|] == s[..|sub|];
      assert forall k :: 1 <= k ==> (OccursAt(s, sub, k) <==> OccursAt(s[1..], sub, k - 1)) by {
        forall k | 1 <= k
          ensures OccursAt(s, sub, k) <==> OccursAt(s[1..], sub, k - 1)
        {
          if k + |sub| <= |s| {
            assert s[1..][k - 1..k - 1 + |sub|] == s[k..k + |sub|];
          }
        }
      }
      if t == -1 then -1 else t + 1
  }

  /** An occurrence at `k` bounds the first one. */
  lemma IndexOfAtMost(s: string, sub: string, k: int)
    requires OccursAt(s, sub, k)
    ensures 0 <= IndexOf(s, sub) <= k
  {
  }

  /** `s.includes(sub)`. */
  predicate Includes(s: string, sub: string) {
    IndexOf(s, sub) >= 0
  }

  /** `includes` holds exactly when `sub` occurs somewhere in `s`; the empty string occurs everywhere. */
  lemma IncludesIff(s: string, sub: string)
    ensures Includes(s, sub) <==> exists k :: OccursAt(s, sub, k)
    ensures Includes(s, "")
  {
    assert OccursAt(s, "", 0);
  }

  /** `s.replace(pat, rep)` with a string pattern: only the first occurrence is replaced. */
  function ReplaceFirst(s: string, pat: string, rep: string): string {
    var i := IndexOf(s, pat);
    if i < 0 then s else s[..i] + rep + s[i + |pat|..]
  }

  /** Without an occurrence nothing changes; otherwise the text before the first occurrence is
      kept, the occurrence becomes `rep`, and the text after it is kept. */
  lemma ReplaceFirstShape(s: string, pat: string, rep: string)
    ensures !Includes(s, pat) ==> ReplaceFirst(s, pat, rep) == s
    ensures Includes(s, pat) ==>
      var i := IndexOf(s, pat);
      var r := ReplaceFirst(s, pat, rep);
      && |r| == |s| - |pat| + |rep|
      && r[..i] == s[..i]
      && r[i..i + |rep|] == rep
      && r[i + |rep|..] == s[i + |pat|..]
  {
  }

  // ---------------------------------------------------------------------------
  // substring, charAt, toLowerCase, split/pop

  /** `s.substring(0, n)` for `n >= 0`. */
  function Prefix(s: string, n: nat): string {
    if |s| <= n then s else s[..n]
  }

  /** `s.charAt(0)`: the first character, or the empty string when there is none. */
  function FirstChar(s: string): (r: string)
    ensures |r| == if s == "" then 0 else 1
    ensures s != "" ==> r[0] == s[0]
  {
    if s == "" then "" else [s[0]]
  }

  /** `toLowerCase` on the Latin letters A to Z; every other character is kept. */
  function LowerChar(c: char): char {
    if 'A' <= c <= 'Z' then (c as int + 32) as char else c
  }

  function ToLower(s: string): (r: string)
    ensures |r| == |s|
    ensures forall k :: 0 <= k < |s| ==> r[k] == LowerChar(s[k])
  {
    seq(|s|, k requires 0 <= k < |s| => LowerChar(s[k]))
  }

  /** `s.split(sep).pop()`: the text after the last `sep`, or all of `s` when there is none. */
  function LastSegment(s: string, sep: char): string
    decreases |s|
  {
    if s == "" then ""
    else if s[|s| - 1] == sep then ""
    else LastSegment(s[..|s| - 1], sep) + [s[|s| - 1]]
  }

  /** The last segment is a suffix of `s` free of `sep`, and it is all of `s` or follows a `sep`. */
  lemma {:induction false} LastSegmentShape(s: string, sep: char)
    ensures var r := LastSegment(s, sep);
      && |r| <= |s| && r == s[|s| - |r|..]
      && sep !in r
      && (|r| < |s| ==> s[|s| - |r| - 1] == sep)
    decreases |s|
  {
    if s != "" && s[|s| - 1] != sep {
      var p := s[..|s| - 1];
      LastSegmentShape(p, sep);
      var r := LastSegment(p, sep);
      assert s[|s| - |r| - 1..] == p[|p| - |r|..] + [s[|s| - 1]];
    }
  }
}
