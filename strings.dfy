/** `strings.Trim(s, " ")`: removal of leading and trailing space characters (and of nothing else). */
module Strings {
  predicate AllSpaces(s: string) {
    forall i :: 0 <= i < |s| ==> s[i] == ' '
  }

  /** `r` is the part of `s` that starts at index `i`. */
  predicate OccursAt(r: string, s: string, i: int) {
    0 <= i <= |s| - |r| && r == s[i..i + |r|]
  }

  /** `r` is the part of `s` at index `i`, and everything before and after it is a space. */
  predicate SpacesAround(r: string, s: string, i: int) {
    OccursAt(r, s, i) && AllSpaces(s[..i]) && AllSpaces(s[i + |r|..])
  }

  /** `s` without its leading spaces. */
  function TrimLeft(s: string): (r: string)
    ensures |r| <= |s| && r == s[|s| - |r|..]
    ensures AllSpaces(s[..|s| - |r|])
    ensures r == [] || r[0] != ' '
  {
    if |s| > 0 && s[0] == ' ' then
      var r := TrimLeft(s[1..]);
      assert s[..|s| - |r|] == [s[0]] + s[1..][..|s| - 1 - |r|];
      r
    else s
  }

  /** `s` without its trailing spaces. */
  function TrimRight(s: string): (r: string)
    ensures |r| <= |s| && r == s[..|r|]
    ensures AllSpaces(s[|r|..])
    ensures r == [] || r[|r| - 1] != ' '
  {
    if |s| > 0 && s[|s| - 1] == ' ' then
      var r := TrimRight(s[..|s| - 1]);
      assert s[|r|..] == s[..|s| - 1][|r|..] + [s[|s| - 1]];
      r
    else s
  }

  /**
   * `s` without leading or trailing spaces: a contiguous part of `s`, empty exactly
   * when `s` holds nothing but spaces. Tabs and newlines are kept.
   */
  function TrimSpaces(s: string): (r: string)
    ensures exists i :: SpacesAround(r, s, i)
    ensures r == [] || (r[0] != ' ' && r[|r| - 1] != ' ')
    ensures r == [] <==> AllSpaces(s)
  {
    var left := TrimLeft(s);
    var r := TrimRight(left);
    var i := |s| - |left|;
    assert OccursAt(r, s, i);
    assert s[i + |r|..] == left[|r|..];
    assert SpacesAround(r, s, i);
    assert r != [] ==> r[0] == left[0];
    assert left == [] <==> AllSpaces(s) by {
      if left == [] { assert s[..|s|] == s; }
    }
    assert r == [] <==> AllSpaces(left) by {
      if r == [] { assert left[0..] == left; }
    }
    r
  }
}
