/**
 * The parts of Go's `strings` and `unicode` packages that the request validator and the
 * HTTP client call: `strings.ToUpper`, `strings.TrimSpace` and the `unicode.IsSpace`
 * classification that `TrimSpace` uses. Strings are sequences of Unicode code points.
 */
module Strings {

  /** Go's `unicode.IsSpace`: the Latin-1 spaces and the other White_Space code points. */
  predicate IsSpace(c: char): (b: bool)
    ensures c == ' ' || c == '\t' || c == '\n' || c == '\r' ==> b
    ensures 'a' <= c <= 'z' || 'A' <= c <= 'Z' || '0' <= c <= '9' ==> !b
  {
    var n := c as int;
    || n == 0x20 || 0x09 <= n <= 0x0D || n == 0x85 || n == 0xA0
    || n == 0x1680 || 0x2000 <= n <= 0x200A || n == 0x2028 || n == 0x2029
    || n == 0x202F || n == 0x205F || n == 0x3000
  }

  predicate IsLowerAscii(c: char) {
    'a' <= c <= 'z'
  }

  /** Upper-case mapping of one character (ASCII letters only). */
  function UpperChar(c: char): char {
    if IsLowerAscii(c) then (c as int - 'a' as int + 'A' as int) as char else c
  }

  /** `strings.ToUpper`, character by character. */
  function ToUpper(s: string): (r: string)
    ensures |r| == |s|
  {
    if s == [] then [] else [UpperChar(s[0])] + ToUpper(s[1..])
  }

  /**
   * Each character of the upper-cased string is the upper-case form of the character at the
   * same position: no lower-case ASCII letter is left, white space stays white space, and
   * every other character is unchanged.
   */
  lemma {:induction false} ToUpperPointwise(s: string)
    ensures forall i :: 0 <= i < |s| ==> ToUpper(s)[i] == UpperChar(s[i])
    ensures forall i :: 0 <= i < |s| ==> !IsLowerAscii(ToUpper(s)[i])
    ensures forall i :: 0 <= i < |s| ==> (IsSpace(ToUpper(s)[i]) <==> IsSpace(s[i]))
    ensures forall i :: 0 <= i < |s| && !IsLowerAscii(s[i]) ==> ToUpper(s)[i] == s[i]
    decreases |s|
  {
    if s != [] {
      ToUpperPointwise(s[1..]);
      forall i | 1 <= i < |s|
        ensures ToUpper(s)[i] == UpperChar(s[i])
      {
        assert ToUpper(s)[i] == ToUpper(s[1..])[i - 1];
      }
    }
  }

  /** Upper-casing twice is upper-casing once. */
  lemma ToUpperIdempotent(s: string)
    ensures ToUpper(ToUpper(s)) == ToUpper(s)
  {
    var u := ToUpper(s);
    ToUpperPointwise(s);
    ToUpperPointwise(u);
  }

  /** A string without lower-case ASCII letters is its own upper-case form. */
  lemma ToUpperFixed(s: string)
    requires forall i :: 0 <= i < |s| ==> !IsLowerAscii(s[i])
    ensures ToUpper(s) == s
  {
    ToUpperPointwise(s);
  }

  /** Drops the leading white space. */
  function TrimLeft(s: string): string
    decreases |s|
  {
    if s != [] && IsSpace(s[0]) then TrimLeft(s[1..]) else s
  }

  /** Drops the trailing white space. */
  function TrimRight(s: string): string
    decreases |s|
  {
    if s != [] && IsSpace(s[|s| - 1]) then TrimRight(s[..|s| - 1]) else s
  }

  /** `strings.TrimSpace`: drops leading and trailing white space. */
  function TrimSpace(s: string): (r: string)
    ensures |r| <= |s|
    ensures r == [] || (!IsSpace(r[0]) && !IsSpace(r[|r| - 1]))
  {
    TrimLeftRemovesSpacePrefix(s);
    TrimRightRemovesSpaceSuffix(TrimLeft(s));
    var r := TrimRight(TrimLeft(s));
    assert r != [] ==> r[0] == TrimLeft(s)[0];
    r
  }

  /** `TrimLeft` removes a maximal white-space prefix and nothing else. */
  lemma {:induction false} TrimLeftRemovesSpacePrefix(s: string)
    ensures |TrimLeft(s)| <= |s| && TrimLeft(s) == s[|s| - |TrimLeft(s)|..]
    ensures TrimLeft(s) == [] || !IsSpace(TrimLeft(s)[0])
    ensures forall i :: 0 <= i < |s| - |TrimLeft(s)| ==> IsSpace(s[i])
    decreases |s|
  {
    if s != [] && IsSpace(s[0]) {
      TrimLeftRemovesSpacePrefix(s[1..]);
      forall i | 1 <= i < |s| - |TrimLeft(s)|
        ensures IsSpace(s[i])
      {
        assert s[i] == s[1..][i - 1];
      }
    }
  }

  /** `TrimRight` removes a maximal white-space suffix and nothing else. */
  lemma {:induction false} TrimRightRemovesSpaceSuffix(s: string)
    ensures |TrimRight(s)| <= |s| && TrimRight(s) == s[..|TrimRight(s)|]
    ensures TrimRight(s) == [] || !IsSpace(TrimRight(s)[|TrimRight(s)| - 1])
    ensures forall i :: |TrimRight(s)| <= i < |s| ==> IsSpace(s[i])
    decreases |s|
  {
    if s != [] && IsSpace(s[|s| - 1]) {
      TrimRightRemovesSpaceSuffix(s[..|s| - 1]);
      forall i | |TrimRight(s)| <= i < |s| - 1
        ensures IsSpace(s[i])
      {
        assert s[i] == s[..|s| - 1][i];
      }
    }
  }

  /**
   * `TrimSpace` removes exactly a white-space prefix and a white-space suffix: the result
   * is the slice `s[start..start + |r|]`, it neither starts nor ends with white space, and
   * everything outside it is white space.
   */
  lemma TrimSpaceIsInfix(s: string) returns (start: nat)
    ensures start + |TrimSpace(s)| <= |s|
    ensures TrimSpace(s) == s[start..start + |TrimSpace(s)|]
    ensures TrimSpace(s) == [] || (!IsSpace(TrimSpace(s)[0]) && !IsSpace(TrimSpace(s)[|TrimSpace(s)| - 1]))
    ensures forall i :: 0 <= i < start ==> IsSpace(s[i])
    ensures forall i :: start + |TrimSpace(s)| <= i < |s| ==> IsSpace(s[i])
  {
    var l := TrimLeft(s);
    TrimLeftRemovesSpacePrefix(s);
    TrimRightRemovesSpaceSuffix(l);
    start := TrimmedSlice(s, l, TrimRight(l));
  }

  /** A white-space suffix trimmed from what remains after a white-space prefix is trimmed. */
  lemma TrimmedSlice(s: string, l: string, r: string) returns (start: nat)
    requires |l| <= |s| && l == s[|s| - |l|..]
    requires l == [] || !IsSpace(l[0])
    requires forall i :: 0 <= i < |s| - |l| ==> IsSpace(s[i])
    requires |r| <= |l| && r == l[..|r|]
    requires r == [] || !IsSpace(r[|r| - 1])
    requires forall i :: |r| <= i < |l| ==> IsSpace(l[i])
    ensures start + |r| <= |s| && r == s[start..start + |r|]
    ensures r == [] || (!IsSpace(r[0]) && !IsSpace(r[|r| - 1]))
    ensures forall i :: 0 <= i < start ==> IsSpace(s[i])
    ensures forall i :: start + |r| <= i < |s| ==> IsSpace(s[i])
  {
    start := |s| - |l|;
    if r != [] {
      assert r[0] == l[0];
    }
    forall i | start + |r| <= i < |s|
      ensures IsSpace(s[i])
    {
      assert s[i] == l[i - start];
    }
  }

  /** A string that neither starts nor ends with white space is left as it is. */
  lemma TrimSpaceFixed(s: string)
    requires s == [] || (!IsSpace(s[0]) && !IsSpace(s[|s| - 1]))
    ensures TrimSpace(s) == s
  {
  }

  /** Trimming and then upper-casing is stable: applying it again changes nothing. */
  lemma TrimUpperIdempotent(s: string)
    ensures ToUpper(TrimSpace(ToUpper(TrimSpace(s)))) == ToUpper(TrimSpace(s))
  {
    var t := TrimSpace(s);
    var u := ToUpper(t);
    var _ := TrimSpaceIsInfix(s);
    ToUpperPointwise(t);
    TrimSpaceFixed(u);
    ToUpperIdempotent(t);
  }
}
