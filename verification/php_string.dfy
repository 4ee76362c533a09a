/** The two PHP string builtins the redirect rule relies on: `trim` and `in_array`. */
module PhpString {

  /** The characters `trim` strips by default: space, tab, LF, CR, NUL and vertical tab. */
  predicate IsTrimmed(c: char) {
    c == ' ' || c == '\t' || c == '\n' || c == '\r' || c == '\0' || c == '\U{B}'
  }

  /** A string made only of characters `trim` strips. */
  predicate IsBlank(s: string) {
    forall i :: 0 <= i < |s| ==> IsTrimmed(s[i])
  }

  /** `ltrim`: drops the longest blank prefix. */
  function TrimStart(s: string): (r: string)
    ensures |r| <= |s| && r == s[|s| - |r|..]
    ensures IsBlank(s[..|s| - |r|])
    ensures |r| > 0 ==> !IsTrimmed(r[0])
  {
    if |s| > 0 && IsTrimmed(s[0]) then
      var r := TrimStart(s[1..]);
      assert s[..|s| - |r|] == [s[0]] + s[1..][..|s[1..]| - |r|];
      r
    else s
  }

  /** `rtrim`: drops the longest blank suffix. */
  function TrimEnd(s: string): (r: string)
    ensures |r| <= |s| && r == s[..|r|]
    ensures IsBlank(s[|r|..])
    ensures |r| > 0 ==> !IsTrimmed(r[|r| - 1])
  {
    if |s| > 0 && IsTrimmed(s[|s| - 1]) then
      var r := TrimEnd(s[..|s| - 1]);
      assert s[|r|..] == s[..|s| - 1][|r|..] + [s[|s| - 1]];
      r
    else s
  }

  /** `trim`: the string with blank prefix and suffix removed. */
  function Trim(s: string): (r: string)
    ensures exists a :: 0 <= a <= |s| - |r| && r == s[a..a + |r|] && IsBlank(s[..a]) && IsBlank(s[a + |r|..])
    ensures |r| > 0 ==> !IsTrimmed(r[0]) && !IsTrimmed(r[|r| - 1])
  {
    var t := TrimStart(s);
    var r := TrimEnd(t);
    var a := |s| - |t|;
    assert r == s[a..a + |r|];
    assert s[a + |r|..] == t[|r|..];
    assert IsBlank(s[..a]) && IsBlank(s[a + |r|..]);
    r
  }

  /** `trim($s) !== ''` holds exactly when `s` has a character `trim` keeps. */
  lemma {:induction false} TrimEmptyIffBlank(s: string)
    ensures Trim(s) == "" <==> IsBlank(s)
  {
    var t := TrimStart(s);
    var k := |s| - |t|;
    if Trim(s) == "" {
      assert t[0..] == t;
      assert |t| == 0;
      assert s[..k] == s;
    } else {
      var r := Trim(s);
      assert r == t[..|r|];
      assert r[0] == s[k];
    }
  }

  /**
   * `in_array($needle, $haystack)` as PHP runs it, a scan from the front.
   * Loose `==` between two strings is plain equality unless both are numeric.
   */
  method InArray(needle: string, haystack: seq<string>) returns (found: bool)
    ensures found <==> needle in haystack
  {
    found := false;
    var i := 0;
    while i < |haystack| && !found
      invariant 0 <= i <= |haystack|
      invariant found <==> needle in haystack[..i]
    {
      if haystack[i] == needle {
        found := true;
      }
      assert haystack[..i + 1] == haystack[..i] + [haystack[i]];
      i := i + 1;
    }
    assert found || haystack[..i] == haystack;
  }
}
