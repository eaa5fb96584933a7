/**
 Python's `str.strip()` with no argument: removes leading and trailing
 characters for which `str.isspace()` holds.
 */
module PyStr {

  /** `str.isspace()` on one character: the Unicode code points Python treats
      as whitespace (bidirectional class WS, B or S, or category Zs). */
  predicate IsSpace(c: char) {
    var n := c as int;
    || (0x09 <= n <= 0x0D)
    || (0x1C <= n <= 0x20)
    || n == 0x85
    || n == 0xA0
    || n == 0x1680
    || (0x2000 <= n <= 0x200A)
    || n == 0x2028
    || n == 0x2029
    || n == 0x202F
    || n == 0x205F
    || n == 0x3000
  }

  /** True when every character of `s` is whitespace (vacuously for ""). */
  predicate AllSpace(s: string) {
    forall k :: 0 <= k < |s| ==> IsSpace(s[k])
  }

  /** `s.lstrip()`: the longest suffix of `s` that does not start with whitespace. */
  function LStrip(s: string): (r: string)
    ensures |r| <= |s| && r == s[|s| - |r|..]
    ensures AllSpace(s[..|s| - |r|])
    ensures r != [] ==> !IsSpace(r[0])
    decreases |s|
  {
    if |s| > 0 && IsSpace(s[0]) then
      var r := LStrip(s[1..]);
      assert s[1..][..|s[1..]| - |r|] == s[1..|s| - |r|];
      r
    else s
  }

  /** `s.rstrip()`: the longest prefix of `s` that does not end with whitespace. */
  function RStrip(s: string): (r: string)
    ensures |r| <= |s| && r == s[..|r|]
    ensures AllSpace(s[|r|..])
    ensures r != [] ==> !IsSpace(r[|r| - 1])
    decreases |s|
  {
    if |s| > 0 && IsSpace(s[|s| - 1]) then
      var r := RStrip(s[..|s| - 1]);
      assert s[..|s| - 1][|r|..] + [s[|s| - 1]] == s[|r|..];
      r
    else s
  }

  /** `s.strip()`: `s` with its whitespace margins removed. The result is the
      infix `s[a..a + |r|]`, everything outside it is whitespace, and it is
      empty exactly when `s` is all whitespace. */
  function Strip(s: string): (r: string)
    ensures exists a :: 0 <= a <= |s| - |r| && StrippedAt(s, r, a)
    ensures r != [] ==> !IsSpace(r[0]) && !IsSpace(r[|r| - 1])
    ensures r == [] <==> AllSpace(s)
  {
    var l := LStrip(s);
    var r := RStrip(l);
    StripShape(s, l, r);
    r
  }

  /** The facts `Strip` promises, from the shapes `LStrip` and `RStrip` guarantee. */
  lemma StripShape(s: string, l: string, r: string)
    requires |l| <= |s| && l == s[|s| - |l|..] && AllSpace(s[..|s| - |l|])
    requires |r| <= |l| && r == l[..|r|] && AllSpace(l[|r|..])
    requires r != [] ==> !IsSpace(r[0])
    ensures StrippedAt(s, r, |s| - |l|)
    ensures r == [] <==> AllSpace(s)
  {
    var a := |s| - |l|;
    SliceOfSuffix(s, a, |r|);
    SuffixOfSuffix(s, a, |r|);
    if r == [] {
      AllSpaceJoin(s, a);
    }
  }

  lemma SliceOfSuffix(s: string, a: int, n: int)
    requires 0 <= a <= |s| && 0 <= n <= |s| - a
    ensures s[a..][..n] == s[a..a + n]
  {}

  lemma SuffixOfSuffix(s: string, a: int, n: int)
    requires 0 <= a <= |s| && 0 <= n <= |s| - a
    ensures s[a..][n..] == s[a + n..]
  {}

  /** Two all-whitespace halves make an all-whitespace string. */
  lemma AllSpaceJoin(s: string, a: int)
    requires 0 <= a <= |s|
    requires AllSpace(s[..a]) && AllSpace(s[a..])
    ensures AllSpace(s)
  {
    forall k | 0 <= k < |s|
      ensures IsSpace(s[k])
    {
      if k < a {
        assert s[..a][k] == s[k];
      } else {
        assert s[a..][k - a] == s[k];
      }
    }
  }

  /** `r` sits at offset `a` of `s` and only whitespace surrounds it. */
  predicate StrippedAt(s: string, r: string, a: int)
    requires 0 <= a <= |s| - |r|
  {
    && r == s[a..a + |r|]
    && AllSpace(s[..a])
    && AllSpace(s[a + |r|..])
  }
}
