/**
 * Whitespace stripping as performed by a `constr(strip_whitespace=True)`
 * field: leading and trailing characters with the Unicode White_Space
 * property are removed, the middle of the string is kept as it is.
 */
module Whitespace {

  /** The Unicode White_Space characters. */
  const WhiteSpace: set<char> := {
    '\t', '\n', '\U{B}', '\U{C}', '\r', ' ', '\U{85}', '\U{A0}', '\U{1680}',
    '\U{2000}', '\U{2001}', '\U{2002}', '\U{2003}', '\U{2004}', '\U{2005}',
    '\U{2006}', '\U{2007}', '\U{2008}', '\U{2009}', '\U{200A}',
    '\U{2028}', '\U{2029}', '\U{202F}', '\U{205F}', '\U{3000}'
  }

  predicate IsSpace(c: char) {
    c in WhiteSpace
  }

  /** True when every character of `s` is whitespace (the empty string included). */
  predicate Blank(s: string) {
    forall i :: 0 <= i < |s| ==> IsSpace(s[i])
  }

  /** `s` without its leading whitespace: a suffix of `s` that starts with a non-space. */
  function TrimStart(s: string): (r: string)
    ensures |r| <= |s| && r == s[|s| - |r|..]
    ensures r != [] ==> !IsSpace(r[0])
  {
    if s != [] && IsSpace(s[0]) then TrimStart(s[1..]) else s
  }

  /** `s` without its trailing whitespace: a prefix of `s` that ends with a non-space. */
  function TrimEnd(s: string): (r: string)
    ensures |r| <= |s| && r == s[..|r|]
    ensures r != [] ==> !IsSpace(r[|r| - 1])
  {
    if s != [] && IsSpace(s[|s| - 1]) then TrimEnd(s[..|s| - 1]) else s
  }

  /** What `TrimStart` drops is all whitespace. */
  lemma {:induction false} TrimStartDropsBlank(s: string)
    ensures Blank(s[..|s| - |TrimStart(s)|])
  {
    if s != [] && IsSpace(s[0]) {
      TrimStartDropsBlank(s[1..]);
      assert s[..|s| - |TrimStart(s)|] == [s[0]] + s[1..][..|s| - 1 - |TrimStart(s[1..])|];
    }
  }

  /** What `TrimEnd` drops is all whitespace. */
  lemma {:induction false} TrimEndDropsBlank(s: string)
    ensures Blank(s[|TrimEnd(s)|..])
  {
    if s != [] && IsSpace(s[|s| - 1]) {
      var t := s[..|s| - 1];
      TrimEndDropsBlank(t);
      assert s[|TrimEnd(s)|..] == t[|TrimEnd(t)|..] + [s[|s| - 1]];
    }
  }

  /** The `strip_whitespace` trim: leading and trailing White_Space removed. */
  function Strip(s: string): (r: string)
    ensures |r| <= |s|
    ensures Unpadded(r)
  {
    TrimEnd(TrimStart(s))
  }

  /** Stripping leaves nothing exactly when the string is all whitespace. */
  lemma StripEmptyIff(s: string)
    ensures Strip(s) == [] <==> Blank(s)
  {
    if Strip(s) == [] {
      BlankWhenStrippedEmpty(s);
    }
    if Blank(s) {
      StrippedEmptyWhenBlank(s);
    }
  }

  lemma BlankWhenStrippedEmpty(s: string)
    requires Strip(s) == []
    ensures Blank(s)
  {
    var t := TrimStart(s);
    TrimStartDropsBlank(s);
    TrimEndDropsBlank(t);
    assert Blank(t[0..]);
    assert t == [];
    assert s[..|s|] == s;
  }

  lemma StrippedEmptyWhenBlank(s: string)
    requires Blank(s)
    ensures Strip(s) == []
  {
    var t := TrimStart(s);
    assert s[|s| - |t|..] == t;
    assert Blank(t);
    assert t == [];
  }

  /** The characters `Strip` keeps are a contiguous part of `s`, surrounded only by whitespace. */
  lemma StripIsMiddle(s: string) returns (start: nat)
    ensures start + |Strip(s)| <= |s|
    ensures Strip(s) == s[start..start + |Strip(s)|]
    ensures Blank(s[..start]) && Blank(s[start + |Strip(s)|..])
  {
    var t := TrimStart(s);
    var r := Strip(s);
    TrimStartDropsBlank(s);
    TrimEndDropsBlank(t);
    start := |s| - |t|;
    assert s[start..start + |r|] == t[..|r|];
    assert s[start + |r|..] == t[|r|..];
  }

  /** True when `s` neither starts nor ends with whitespace. */
  predicate Unpadded(s: string) {
    s == [] || (!IsSpace(s[0]) && !IsSpace(s[|s| - 1]))
  }

  /** Stripping changes nothing exactly when there is nothing to strip. */
  lemma StripFixedIff(s: string)
    ensures Strip(s) == s <==> Unpadded(s)
  {
    if Unpadded(s) {
      assert TrimStart(s) == s;
      assert TrimEnd(s) == s;
    }
  }

  /** Stripping twice is stripping once. */
  lemma StripIdempotent(s: string)
    ensures Strip(Strip(s)) == Strip(s)
  {
    StripFixedIff(Strip(s));
  }
}
