/** Python's str.strip() with no argument: leading and trailing whitespace
    removed, where whitespace is what str.isspace() accepts. */
module Text {

  /** The characters Python treats as whitespace. */
  predicate IsSpace(c: char)
  {
    var n := c as int;
    n == 0x20 || 0x09 <= n <= 0x0D || 0x1C <= n <= 0x1F || n == 0x85 || n == 0xA0 ||
    n == 0x1680 || 0x2000 <= n <= 0x200A || n == 0x2028 || n == 0x2029 ||
    n == 0x202F || n == 0x205F || n == 0x3000
  }

  predicate AllSpace(s: string)
  {
    forall i :: 0 <= i < |s| ==> IsSpace(s[i])
  }

  /** Leading whitespace removed: a suffix of s, everything before it
      whitespace, and not starting with whitespace. */
  function StripLeading(s: string): (r: string)
    ensures |r| <= |s| && r == s[|s| - |r|..]
    ensures AllSpace(s[..|s| - |r|])
    ensures r != [] ==> !IsSpace(r[0])
  {
    if s != [] && IsSpace(s[0]) then
      var r := StripLeading(s[1..]);
      var k := |s| - |r|;
      assert AllSpace(s[..k]) by {
        forall j | 0 <= j < k
          ensures IsSpace(s[..k][j])
        {
          if 0 < j {
            assert s[..k][j] == s[1..][..k - 1][j - 1];
          }
        }
      }
      r
    else s
  }

  /** Trailing whitespace removed: a prefix of s, everything after it
      whitespace, and not ending with whitespace. */
  function StripTrailing(s: string): (r: string)
    ensures |r| <= |s| && r == s[..|r|]
    ensures AllSpace(s[|r|..])
    ensures r != [] ==> !IsSpace(r[|r| - 1])
  {
    if s != [] && IsSpace(s[|s| - 1]) then
      var r := StripTrailing(s[..|s| - 1]);
      assert AllSpace(s[|r|..]) by {
        forall j | 0 <= j < |s| - |r|
          ensures IsSpace(s[|r|..][j])
        {
          if j < |s| - 1 - |r| {
            assert s[|r|..][j] == s[..|s| - 1][|r|..][j];
          }
        }
      }
      r
    else s
  }

  function Strip(s: string): string
  {
    StripTrailing(StripLeading(s))
  }

  /** r sits at position i of s with only whitespace before and after it,
      and neither starts nor ends with whitespace. */
  predicate TrimmedSliceAt(s: string, i: nat, r: string)
  {
    i + |r| <= |s| && r == s[i..i + |r|] &&
    AllSpace(s[..i]) && AllSpace(s[i + |r|..]) &&
    (r != [] ==> !IsSpace(r[0]) && !IsSpace(r[|r| - 1]))
  }

  /** Strip(s) is the slice of s that starts after the leading whitespace,
      with only whitespace around it and none at either end. */
  lemma StripIsTrimmedSlice(s: string)
    ensures TrimmedSliceAt(s, |s| - |StripLeading(s)|, Strip(s))
  {
    var l := StripLeading(s);
    TrimmedSlice(s, l, StripTrailing(l));
  }

  /** The slice argument of StripIsTrimmedSlice, on plain values: l is s
      without a whitespace prefix and r is l without a whitespace suffix. */
  lemma TrimmedSlice(s: string, l: string, r: string)
    requires |l| <= |s| && l == s[|s| - |l|..] && AllSpace(s[..|s| - |l|])
    requires l != [] ==> !IsSpace(l[0])
    requires |r| <= |l| && r == l[..|r|] && AllSpace(l[|r|..])
    requires r != [] ==> !IsSpace(r[|r| - 1])
    ensures TrimmedSliceAt(s, |s| - |l|, r)
  {
    var i := |s| - |l|;
    assert s[i + |r|..] == l[|r|..];
    if r != [] {
      assert r[0] == l[0];
    }
  }

  /** The stripped text is empty exactly when the text is all whitespace. */
  lemma StripEmptyIff(s: string)
    ensures Strip(s) == "" <==> AllSpace(s)
  {
    var l := StripLeading(s);
    if Strip(s) == "" {
      assert l == [];
      assert s[..|s|] == s;
    }
  }

  /** Stripping twice is stripping once. */
  lemma StripIdempotent(s: string)
    ensures Strip(Strip(s)) == Strip(s)
  {
    var r := Strip(s);
    var l := StripLeading(s);
    if r != [] {
      assert r[0] == l[0];
      assert StripLeading(r) == r;
    }
  }
}
