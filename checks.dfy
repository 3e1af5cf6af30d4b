/**
 * The pure input checks of the command handlers in index.js: the
 * best-of format of `/create-tournament` and the bracket link of
 * `/set-bracket-link`, including the whitespace trimming of JavaScript's
 * `String.prototype.trim`.
 */
module Checks {

  /** A best-of count is accepted when it is a positive odd number (index.js:332). */
  predicate ValidBestOf(bestOf: int) {
    bestOf > 0 && bestOf % 2 == 1
  }

  /** The accepted counts are exactly 1, 3, 5, ... */
  lemma ValidBestOfIsOdd(bestOf: int)
    ensures ValidBestOf(bestOf) <==> exists k: nat :: bestOf == 2 * k + 1
  {
    if ValidBestOf(bestOf) {
      var k: nat := bestOf / 2;
      assert bestOf == 2 * k + 1;
    }
  }

  /**
   * The characters `trim` removes: the white space and line terminators of
   * section 12.2 and 12.3 of ECMA-262 (the space separators of Unicode
   * category Zs among them).
   */
  predicate IsJsSpace(c: char) {
    || c == '\U{9}' || c == '\U{A}' || c == '\U{B}' || c == '\U{C}' || c == '\U{D}'
    || c == '\U{20}' || c == '\U{A0}' || c == '\U{1680}'
    || ('\U{2000}' <= c <= '\U{200A}')
    || c == '\U{2028}' || c == '\U{2029}' || c == '\U{202F}' || c == '\U{205F}'
    || c == '\U{3000}' || c == '\U{FEFF}'
  }

  /** `s` without its leading white space. */
  function TrimStart(s: string): (r: string)
    ensures |r| <= |s| && r == s[|s| - |r|..]
    ensures r != [] ==> !IsJsSpace(r[0])
    ensures forall k :: 0 <= k < |s| - |r| ==> IsJsSpace(s[k])
  {
    if s != [] && IsJsSpace(s[0]) then TrimStart(s[1..]) else s
  }

  /** `s` without its trailing white space. */
  function TrimEnd(s: string): (r: string)
    ensures |r| <= |s| && r == s[..|r|]
    ensures r != [] ==> !IsJsSpace(r[|r| - 1])
    ensures forall k :: |r| <= k < |s| ==> IsJsSpace(s[k])
  {
    if s != [] && IsJsSpace(s[|s| - 1]) then TrimEnd(s[..|s| - 1]) else s
  }

  /** `String.prototype.trim`: the middle of `s`, between its leading and its trailing white space. */
  function Trim(s: string): (r: string)
    ensures exists i, j :: 0 <= i <= j <= |s| && r == s[i..j]
                          && (forall k :: 0 <= k < i ==> IsJsSpace(s[k]))
                          && (forall k :: j <= k < |s| ==> IsJsSpace(s[k]))
    ensures r != [] ==> !IsJsSpace(r[0]) && !IsJsSpace(r[|r| - 1])
  {
    var a := TrimStart(s);
    var r := TrimEnd(a);
    var i := |s| - |a|;
    assert r == s[i..i + |r|];
    r
  }

  /** Trimming twice is trimming once. */
  lemma TrimIdempotent(s: string)
    ensures Trim(Trim(s)) == Trim(s)
  {
    var r := Trim(s);
    if r != [] {
      assert TrimStart(r) == r;
      assert TrimEnd(r) == r;
    }
  }

  predicate StartsWith(s: string, prefix: string) {
    prefix <= s
  }

  /** A bracket link must start with `http://` or `https://` (index.js:398). */
  predicate IsBracketUrl(url: string) {
    StartsWith(url, "http://") || StartsWith(url, "https://")
  }
}
