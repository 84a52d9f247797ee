/**
 * The two string operations of Python that the recorder relies on:
 * `str.strip()` (used on the optional gain and exposure fields and inside
 * `int()`) and `str.split(sep)[0]` (used to read the camera index out of the
 * selected device label).
 */
module Text {

  /**
   * The characters for which Python's `str.isspace()` holds: the ASCII
   * controls 9-13 and 28-31, the space, U+0085, U+00A0, U+1680,
   * U+2000-U+200A, U+2028, U+2029, U+202F, U+205F and U+3000.
   */
  predicate IsSpace(c: char)
  {
    var k := c as int;
    || k == 0x20 || 0x09 <= k <= 0x0D || 0x1C <= k <= 0x1F
    || k == 0x85 || k == 0xA0 || k == 0x1680 || 0x2000 <= k <= 0x200A
    || k == 0x2028 || k == 0x2029 || k == 0x202F || k == 0x205F || k == 0x3000
  }

  predicate IsBlank(s: string)
  {
    forall i :: 0 <= i < |s| ==> IsSpace(s[i])
  }

  /** `s.lstrip()`: the suffix of `s` left after dropping leading whitespace. */
  function TrimLeft(s: string): (r: string)
    ensures |r| <= |s| && r == s[|s| - |r|..]
    ensures IsBlank(s[..|s| - |r|])
    ensures r == [] || !IsSpace(r[0])
  {
    if s != [] && IsSpace(s[0]) then
      var r := TrimLeft(s[1..]);
      assert s[1..][..|s| - 1 - |r|] == s[1..|s| - |r|];
      r
    else
      s
  }

  /** `s.rstrip()`: the prefix of `s` left after dropping trailing whitespace. */
  function TrimRight(s: string): (r: string)
    ensures |r| <= |s| && r == s[..|r|]
    ensures IsBlank(s[|r|..])
    ensures r == [] || !IsSpace(r[|r| - 1])
  {
    if s != [] && IsSpace(s[|s| - 1]) then
      var r := TrimRight(s[..|s| - 1]);
      assert s[..|s| - 1][|r|..] + [s[|s| - 1]] == s[|r|..];
      r
    else
      s
  }

  /**
   * `s.strip()`: neither end of the result is whitespace, and a text made of
   * whitespace only becomes empty.
   */
  function Strip(s: string): (r: string)
    ensures |r| <= |s|
    ensures r == [] || (!IsSpace(r[0]) && !IsSpace(r[|r| - 1]))
    ensures IsBlank(s) ==> r == []
  {
    var l := TrimLeft(s);
    assert l != [] ==> l[0] == s[|s| - |l|];
    TrimRight(l)
  }

  /** `s.strip() != ''` holds exactly when `s` has a non-whitespace character. */
  lemma StripEmptyIffBlank(s: string)
    ensures Strip(s) == [] <==> IsBlank(s)
  {
    var l := TrimLeft(s);
    if Strip(s) == [] {
      assert IsBlank(l[0..]);
      assert s == s[..|s| - |l|] + l;
    }
  }

  /** `lstrip()` removes exactly the whitespace before a text that does not start with whitespace. */
  lemma TrimLeftSurrounded(w: string, u: string)
    requires IsBlank(w) && u != [] && !IsSpace(u[0])
    ensures TrimLeft(w + u) == u
  {
    var s := w + u;
    var l := TrimLeft(s);
    var k := |s| - |l|;
    forall i | 0 <= i < k
      ensures IsSpace(s[i])
    {
      assert s[..k][i] == s[i];
    }
    assert s[|w|] == u[0];
    assert k <= |w| && l[0] == s[k];
    assert forall i :: 0 <= i < |w| ==> s[i] == w[i];
    assert k == |w|;
    assert l == s[|w|..] == u;
  }

  /** `rstrip()` removes exactly the whitespace after a text that does not end with whitespace. */
  lemma TrimRightSurrounded(u: string, w: string)
    requires IsBlank(w) && u != [] && !IsSpace(u[|u| - 1])
    ensures TrimRight(u + w) == u
  {
    var s := u + w;
    var r := TrimRight(s);
    forall i | |r| <= i < |s|
      ensures IsSpace(s[i])
    {
      assert s[|r|..][i - |r|] == s[i];
    }
    assert s[|u| - 1] == u[|u| - 1];
    assert |u| <= |r| && r[|r| - 1] == s[|r| - 1];
    assert forall i :: |u| <= i < |s| ==> s[i] == w[i - |u|];
    assert |r| == |u|;
    assert r == s[..|u|] == u;
  }

  /**
   * `strip()` removes exactly the whitespace around a text whose two ends
   * are not whitespace.
   */
  lemma StripSurrounded(w1: string, t: string, w2: string)
    requires IsBlank(w1) && IsBlank(w2)
    requires t != [] && !IsSpace(t[0]) && !IsSpace(t[|t| - 1])
    ensures Strip(w1 + t + w2) == t
  {
    assert w1 + t + w2 == w1 + (t + w2);
    TrimLeftSurrounded(w1, t + w2);
    TrimRightSurrounded(t, w2);
  }

  /** `sep` occurs in `s` starting at position `i`. */
  predicate OccursAt(s: string, sep: string, i: nat)
  {
    i + |sep| <= |s| && s[i..i + |sep|] == sep
  }

  /**
   * `s.split(sep)[0]`: the text before the first occurrence of `sep`, or all
   * of `s` when `sep` does not occur.
   */
  function BeforeFirst(s: string, sep: string): (r: string)
    requires sep != []
    ensures |r| <= |s| && r == s[..|r|]
    ensures forall i :: 0 <= i < |r| ==> !OccursAt(s, sep, i)
    ensures r != s ==> OccursAt(s, sep, |r|)
  {
    BeforeFirstFrom(s, sep, 0)
  }

  /** The scan behind `BeforeFirst`, with no occurrence before `start`. */
  function BeforeFirstFrom(s: string, sep: string, start: nat): (r: string)
    requires sep != [] && start <= |s|
    requires forall i :: 0 <= i < start ==> !OccursAt(s, sep, i)
    ensures start <= |r| <= |s| && r == s[..|r|]
    ensures forall i :: 0 <= i < |r| ==> !OccursAt(s, sep, i)
    ensures r != s ==> OccursAt(s, sep, |r|)
    decreases |s| - start
  {
    if start + |sep| > |s| then
      s
    else if s[start..start + |sep|] == sep then
      s[..start]
    else
      BeforeFirstFrom(s, sep, start + 1)
  }

  /** The first occurrence of `sep` is where `BeforeFirst` cuts. */
  lemma BeforeFirstAt(s: string, sep: string, j: nat)
    requires sep != [] && OccursAt(s, sep, j)
    requires forall i :: 0 <= i < j ==> !OccursAt(s, sep, i)
    ensures BeforeFirst(s, sep) == s[..j]
  {
    var r := BeforeFirst(s, sep);
    if |r| < j {
      assert false;
    }
  }
}
