/**
 * The two JavaScript string built-ins the chart component relies on:
 * `String.prototype.trim` (used on a legend entry's data key) and
 * `s.split(sep)[0]` (used to take the exchange name out of a market symbol).
 */
module JsString {

  /** The code points JavaScript counts as WhiteSpace or LineTerminator, which `trim` strips. */
  predicate IsWhitespace(c: char) {
    || c == '\t' || c == '\n' || c == '\U{000B}' || c == '\U{000C}' || c == '\r' || c == ' '
    || c == '\U{00A0}' || c == '\U{1680}' || ('\U{2000}' <= c <= '\U{200A}')
    || c == '\U{2028}' || c == '\U{2029}' || c == '\U{202F}' || c == '\U{205F}'
    || c == '\U{3000}' || c == '\U{FEFF}'
  }

  /** Neither the first nor the last character is whitespace. */
  predicate IsTrimmed(s: string) {
    s == [] || (!IsWhitespace(s[0]) && !IsWhitespace(s[|s| - 1]))
  }

  /** Drops the leading whitespace: the result is the suffix after a whitespace-only prefix. */
  function TrimStart(s: string): (r: string)
    ensures |r| <= |s| && r == s[|s| - |r|..]
    ensures forall k :: 0 <= k < |s| - |r| ==> IsWhitespace(s[k])
    ensures r == [] || !IsWhitespace(r[0])
  {
    if s != [] && IsWhitespace(s[0]) then TrimStart(s[1..]) else s
  }

  /** Drops the trailing whitespace: the result is the prefix before a whitespace-only suffix. */
  function TrimEnd(s: string): (r: string)
    ensures |r| <= |s| && r == s[..|r|]
    ensures forall k :: |r| <= k < |s| ==> IsWhitespace(s[k])
    ensures r == [] || !IsWhitespace(r[|r| - 1])
  {
    if s != [] && IsWhitespace(s[|s| - 1]) then TrimEnd(s[..|s| - 1]) else s
  }

  /** `r` is `s` with the whitespace-only prefix `s[..a]` and a whitespace-only suffix removed. */
  predicate StripsAt(s: string, r: string, a: int) {
    && 0 <= a <= |s| - |r| && r == s[a..a + |r|]
    && (forall k :: 0 <= k < a ==> IsWhitespace(s[k]))
    && (forall k :: a + |r| <= k < |s| ==> IsWhitespace(s[k]))
  }

  /** `s.trim()`. */
  function Trim(s: string): (r: string)
    ensures IsTrimmed(r)
    ensures |r| <= |s|
    ensures IsTrimmed(s) ==> r == s
    ensures exists a :: StripsAt(s, r, a)
  {
    var t := TrimStart(s);
    var r := TrimEnd(t);
    assert r != [] ==> r[0] == t[0];
    StripsBoth(s, t, r);
    r
  }

  /** Removing a whitespace prefix and then a whitespace suffix strips `s` at the prefix's end. */
  lemma StripsBoth(s: string, t: string, r: string)
    requires |t| <= |s| && t == s[|s| - |t|..]
    requires forall k :: 0 <= k < |s| - |t| ==> IsWhitespace(s[k])
    requires |r| <= |t| && r == t[..|r|]
    requires forall k :: |r| <= k < |t| ==> IsWhitespace(t[k])
    ensures StripsAt(s, r, |s| - |t|)
  {
    var a := |s| - |t|;
    assert r == s[a..a + |r|];
    forall k | a + |r| <= k < |s| ensures IsWhitespace(s[k]) {
      assert s[k] == t[k - a];
    }
  }

  /** Trimming twice is trimming once. */
  lemma TrimIdempotent(s: string)
    ensures Trim(Trim(s)) == Trim(s)
  {
  }

  /**
   * A trimmed name with one space appended trims back to the name: this is how the key
   * `name + ' '` of a hidden series still addresses `name`.
   */
  lemma TrimDropsAppendedSpace(name: string)
    requires IsTrimmed(name)
    ensures Trim(name + " ") == name
  {
    var s := name + " ";
    assert IsWhitespace(s[|s| - 1]);
    if name == [] {
      assert s[1..] == [];
      assert TrimStart(s) == [];
    } else {
      assert s[0] == name[0];
      assert TrimStart(s) == s;
      assert s[..|s| - 1] == name;
      assert TrimEnd(s) == TrimEnd(name);
    }
  }

  /** `s.split(sep)[0]`: everything before the first `sep`, or all of `s` when it has none. */
  function SplitHead(s: string, sep: char): (r: string)
    ensures sep !in r
    ensures |r| <= |s| && r == s[..|r|]
    ensures |r| == |s| || s[|r|] == sep
  {
    if s == [] || s[0] == sep then [] else [s[0]] + SplitHead(s[1..], sep)
  }
}
