/**
 * The string operations the handlers rely on: Python's `str.lower()`,
 * `str.strip()` and the substring test `needle in haystack`, restricted to
 * ASCII characters.
 */
module Text {

  /** The ASCII characters `str.isspace()` accepts: tab to carriage return, the four separators, space. */
  predicate IsSpace(c: char) {
    c == ' ' || (9 <= c as int <= 13) || (28 <= c as int <= 31)
  }

  predicate IsUpper(c: char) {
    'A' <= c <= 'Z'
  }

  function LowerChar(c: char): (l: char)
    ensures !IsUpper(l)
    ensures IsUpper(c) ==> l as int == c as int + 32
    ensures !IsUpper(c) ==> l == c
  {
    if IsUpper(c) then (c as int + 32) as char else c
  }

  /** `s.lower()`: every upper-case letter replaced by its lower-case form. */
  function Lower(s: string): (r: string)
    ensures |r| == |s|
    ensures forall i :: 0 <= i < |r| ==> !IsUpper(r[i])
    ensures forall i :: 0 <= i < |s| ==>
              && (IsUpper(s[i]) ==> r[i] as int == s[i] as int + 32)
              && (!IsUpper(s[i]) ==> r[i] == s[i])
  {
    seq(|s|, i requires 0 <= i < |s| => LowerChar(s[i]))
  }

  lemma LowerIdempotent(s: string)
    ensures Lower(Lower(s)) == Lower(s)
  {
    forall i | 0 <= i < |s|
      ensures Lower(Lower(s))[i] == Lower(s)[i]
    {
      assert !IsUpper(Lower(s)[i]);
    }
  }

  /** `s.lstrip()`: the suffix of `s` left after its leading white space. */
  function TrimStart(s: string): (r: string)
    ensures |r| <= |s| && r == s[|s| - |r|..]
    ensures r == [] || !IsSpace(r[0])
    ensures forall i :: 0 <= i < |s| - |r| ==> IsSpace(s[i])
  {
    if s != [] && IsSpace(s[0]) then TrimStart(s[1..]) else s
  }

  /** `s.rstrip()`: the prefix of `s` left after its trailing white space. */
  function TrimEnd(s: string): (r: string)
    ensures |r| <= |s| && r == s[..|r|]
    ensures r == [] || !IsSpace(r[|r| - 1])
    ensures forall i :: |r| <= i < |s| ==> IsSpace(s[i])
  {
    if s != [] && IsSpace(s[|s| - 1]) then TrimEnd(s[..|s| - 1]) else s
  }

  /** `s.strip()`. */
  function Strip(s: string): (r: string)
    ensures r == [] || (!IsSpace(r[0]) && !IsSpace(r[|r| - 1]))
    ensures Contains(s, r)
    ensures exists i | 0 <= i <= |s| :: SurroundedBySpaceAt(s, r, i)
  {
    var t := TrimStart(s);
    TrimmedShape(s);
    TrimEnd(t)
  }

  /** Trimming both ends removes only the leading and the trailing white space. */
  lemma TrimmedShape(s: string)
    ensures SurroundedBySpaceAt(s, TrimEnd(TrimStart(s)), |s| - |TrimStart(s)|)
    ensures Contains(s, TrimEnd(TrimStart(s)))
  {
    var t := TrimStart(s);
    var r := TrimEnd(t);
    SpaceAround(s, t, r);
    assert OccursAt(s, r, |s| - |t|);
  }

  /**
   * If `t` is `s` without a prefix of white space and `r` is `t` without a
   * suffix of white space, then `r` sits in `s` with only white space around it.
   */
  lemma SpaceAround(s: string, t: string, r: string)
    requires |t| <= |s| && t == s[|s| - |t|..]
    requires forall k :: 0 <= k < |s| - |t| ==> IsSpace(s[k])
    requires |r| <= |t| && r == t[..|r|]
    requires forall k :: |r| <= k < |t| ==> IsSpace(t[k])
    ensures SurroundedBySpaceAt(s, r, |s| - |t|)
  {
    var i := |s| - |t|;
    assert s[i..][..|r|] == s[i..i + |r|];
    forall j | i + |r| <= j < |s|
      ensures IsSpace(s[j])
    {
      assert s[j] == t[j - i];
    }
  }

  /** `r` occurs in `s` at `i`, and everything before and after that occurrence is white space. */
  predicate SurroundedBySpaceAt(s: string, r: string, i: int) {
    && OccursAt(s, r, i)
    && (forall j :: 0 <= j < i ==> IsSpace(s[j]))
    && (forall j :: i + |r| <= j < |s| ==> IsSpace(s[j]))
  }

  predicate OccursAt(haystack: string, needle: string, i: int) {
    0 <= i <= |haystack| - |needle| && haystack[i..i + |needle|] == needle
  }

  /** `needle in haystack` on strings: a contiguous occurrence. */
  predicate Contains(haystack: string, needle: string) {
    exists i | 0 <= i <= |haystack| :: OccursAt(haystack, needle, i)
  }

  /** The empty string occurs in every string, and every string occurs in itself. */
  lemma ContainsTrivial(s: string)
    ensures Contains(s, "")
    ensures Contains(s, s)
  {
    assert OccursAt(s, "", 0);
    assert OccursAt(s, s, 0);
  }
}
