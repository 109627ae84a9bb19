/**
 * The three JavaScript string operations the weather screen relies on:
 * `includes`, `trim` and `slice`, over strings of Unicode characters.
 */
module JsString {

  /** `p` occurs in `s` starting at index `i`. */
  ghost predicate OccursAt(s: string, p: string, i: int) {
    0 <= i && i + |p| <= |s| && s[i..i + |p|] == p
  }

  /** `p` is a contiguous piece of `s`, with characters compared exactly. */
  ghost predicate Occurs(s: string, p: string) {
    exists i :: OccursAt(s, p, i)
  }

  /** Outside its first position, `s` holds `p` exactly where its tail does (shifted by one). */
  lemma OccursPastHead(s: string, p: string)
    requires |p| <= |s| && s[..|p|] != p
    ensures Occurs(s, p) <==> Occurs(s[1..], p)
  {
    if Occurs(s, p) {
      var i :| OccursAt(s, p, i);
      assert i != 0;
      assert s[1..][i - 1..i - 1 + |p|] == s[i..i + |p|];
      assert OccursAt(s[1..], p, i - 1);
    }
    if Occurs(s[1..], p) {
      var j :| OccursAt(s[1..], p, j);
      assert s[1..][j..j + |p|] == s[j + 1..j + 1 + |p|];
      assert OccursAt(s, p, j + 1);
    }
  }

  /**
   * String.prototype.includes without a position argument: a case-sensitive
   * search for `p` anywhere in `s` (the empty pattern is always found).
   */
  function Includes(s: string, p: string): (r: bool)
    ensures r <==> Occurs(s, p)
    decreases |s|
  {
    if |s| < |p| then
      false
    else if s[..|p|] == p then
      assert OccursAt(s, p, 0);
      true
    else
      OccursPastHead(s, p);
      Includes(s[1..], p)
  }

  /** A pattern whose first character never appears in `s` does not occur in it. */
  lemma AbsentFirstChar(s: string, p: string)
    requires |p| > 0 && p[0] !in s
    ensures !Occurs(s, p)
  {
    forall i | 0 <= i && i + |p| <= |s|
      ensures !OccursAt(s, p, i)
    {
      assert s[i..i + |p|][0] == s[i];
    }
  }

  /**
   * The characters `trim` removes: ECMAScript's WhiteSpace (tab, vertical tab,
   * form feed, space, no-break space, byte-order mark and every other
   * space separator) and LineTerminator (line feed, carriage return, line and
   * paragraph separators) sets, sections 12.2 and 12.3 of ECMA-262.
   */
  predicate IsWhitespace(c: char) {
    || c == '\t' || c == '\n' || c == '\U{000B}' || c == '\U{000C}' || c == '\r'
    || c == ' ' || c == '\U{00A0}' || c == '\U{1680}'
    || ('\U{2000}' <= c <= '\U{200A}')
    || c == '\U{2028}' || c == '\U{2029}' || c == '\U{202F}' || c == '\U{205F}'
    || c == '\U{3000}' || c == '\U{FEFF}'
  }

  /** Every character of `s` is one `trim` removes. */
  ghost predicate AllWhitespace(s: string) {
    forall i :: 0 <= i < |s| ==> IsWhitespace(s[i])
  }

  /** `s` minus its leading whitespace. */
  function TrimStart(s: string): (r: string)
    ensures |r| <= |s| && r == s[|s| - |r|..]
    ensures AllWhitespace(s[..|s| - |r|])
    ensures r != [] ==> !IsWhitespace(r[0])
  {
    if s != [] && IsWhitespace(s[0]) then
      var r := TrimStart(s[1..]);
      assert s[..|s| - |r|] == [s[0]] + s[1..][..|s[1..]| - |r|];
      r
    else
      s
  }

  /** `s` minus its trailing whitespace. */
  function TrimEnd(s: string): (r: string)
    ensures |r| <= |s| && r == s[..|r|]
    ensures AllWhitespace(s[|r|..])
    ensures r != [] ==> !IsWhitespace(r[|r| - 1])
  {
    if s != [] && IsWhitespace(s[|s| - 1]) then
      var r := TrimEnd(s[..|s| - 1]);
      assert s[|r|..] == s[..|s| - 1][|r|..] + [s[|s| - 1]];
      r
    else
      s
  }

  /** `r` is what is left of `s` once `lo` leading characters are cut, all of them whitespace, and everything after `r` is whitespace too. */
  ghost predicate TrimmedAt(s: string, r: string, lo: int) {
    && 0 <= lo && lo + |r| <= |s|
    && r == s[lo..lo + |r|]
    && AllWhitespace(s[..lo])
    && AllWhitespace(s[lo + |r|..])
  }

  /**
   * String.prototype.trim: `s` without its leading and trailing whitespace.
   * The result is a whitespace-free-at-both-ends piece of `s` with only
   * whitespace around it, and it is empty exactly when `s` is all whitespace.
   */
  function Trim(s: string): (r: string)
    ensures exists lo :: TrimmedAt(s, r, lo)
    ensures r != [] ==> !IsWhitespace(r[0]) && !IsWhitespace(r[|r| - 1])
    ensures r == [] <==> AllWhitespace(s)
  {
    var t := TrimStart(s);
    var r := TrimEnd(t);
    TrimPiece(s, t, r);
    if r == [] then
      TrimEmpty(s, t);
      r
    else
      assert s[|s| - |t|] == r[0];
      r
  }

  lemma TrimPiece(s: string, t: string, r: string)
    requires |t| <= |s| && t == s[|s| - |t|..] && AllWhitespace(s[..|s| - |t|])
    requires |r| <= |t| && r == t[..|r|] && AllWhitespace(t[|r|..])
    ensures TrimmedAt(s, r, |s| - |t|)
  {
    var lo := |s| - |t|;
    assert s[lo..lo + |r|] == r;
    assert s[lo + |r|..] == t[|r|..];
  }

  lemma TrimEmpty(s: string, t: string)
    requires t == TrimStart(s) && TrimEnd(t) == []
    ensures AllWhitespace(s)
  {
    assert s == s[..|s| - |t|];
  }

  /** Trimming twice is trimming once. */
  lemma TrimIdempotent(s: string)
    ensures Trim(Trim(s)) == Trim(s)
  {
  }

  /**
   * String.prototype.slice(start, end) for non-negative arguments: both are
   * clamped to the length of `s`, and the result is empty when the clamped
   * start is not before the clamped end.
   */
  function Slice(s: string, start: nat, end: nat): (r: string)
    ensures start <= end <= |s| ==> r == s[start..end]
    ensures start < |s| < end ==> r == s[start..]
    ensures |s| <= start || end <= start ==> r == []
    ensures |r| <= |s|
  {
    var from := if start < |s| then start else |s|;
    var to := if end < |s| then end else |s|;
    if from < to then s[from..to] else []
  }
}
