/** The Python string built-ins the bot relies on: `str.strip()`, `str.lower()`,
    clamped slicing `s[lo:hi]`, `str.startswith` and the substring test `sub in s`. */
module Text {

  /** Python's `str.isspace` accepts eleven inclusive ranges of code points: TAB..CR,
      the information separators 0x1C..0x1F, space, NEL, NO-BREAK SPACE, OGHAM SPACE
      MARK, the spaces 0x2000..0x200A, the line and paragraph separators, NARROW
      NO-BREAK SPACE, MEDIUM MATHEMATICAL SPACE and IDEOGRAPHIC SPACE. */
  const SpaceRangeCount := 11

  /** The `i`-th of those ranges, as its first and last character. */
  function SpaceRange(i: nat): (char, char)
  {
    match i
    case 0 => ('\t', '\r')
    case 1 => ('\U{1C}', '\U{1F}')
    case 2 => (' ', ' ')
    case 3 => ('\U{85}', '\U{85}')
    case 4 => ('\U{A0}', '\U{A0}')
    case 5 => ('\U{1680}', '\U{1680}')
    case 6 => ('\U{2000}', '\U{200A}')
    case 7 => ('\U{2028}', '\U{2029}')
    case 8 => ('\U{202F}', '\U{202F}')
    case 9 => ('\U{205F}', '\U{205F}')
    case _ => ('\U{3000}', '\U{3000}')
  }

  /** Whether `c` lies in the `i`-th whitespace range or a later one. */
  predicate InSpaceRanges(c: char, i: nat)
    decreases SpaceRangeCount - i
  {
    i < SpaceRangeCount && (SpaceRange(i).0 <= c <= SpaceRange(i).1 || InSpaceRanges(c, i + 1))
  }

  /** Python's `str.isspace` for one character. */
  predicate IsSpace(c: char)
  {
    InSpaceRanges(c, 0)
  }

  /** `s` with its leading whitespace removed: the longest suffix of `s` that starts
      with a non-space character, or the empty string. */
  function TrimStart(s: string): (r: string)
    ensures |r| <= |s| && r == s[|s| - |r|..]
    ensures forall k :: 0 <= k < |s| - |r| ==> IsSpace(s[k])
    ensures r == [] || !IsSpace(r[0])
  {
    if s != [] && IsSpace(s[0]) then TrimStart(s[1..]) else s
  }

  /** `s` with its trailing whitespace removed: the longest prefix of `s` that ends
      with a non-space character, or the empty string. */
  function TrimEnd(s: string): (r: string)
    ensures |r| <= |s| && r == s[..|r|]
    ensures forall k :: |r| <= k < |s| ==> IsSpace(s[k])
    ensures r == [] || !IsSpace(r[|r| - 1])
  {
    if s != [] && IsSpace(s[|s| - 1]) then TrimEnd(s[..|s| - 1]) else s
  }

  /** Python's `str.strip()` without argument. */
  function Strip(s: string): (r: string)
    ensures |r| <= |s|
    ensures r == [] || (!IsSpace(r[0]) && !IsSpace(r[|r| - 1]))
  {
    TrimEnd(TrimStart(s))
  }

  /** What `strip()` keeps: a contiguous piece of `s`, everything before and after it
      is whitespace, and it neither starts nor ends with whitespace. */
  lemma StripKeepsCore(s: string)
    ensures var r := Strip(s); var lead := |s| - |TrimStart(s)|;
      lead + |r| <= |s| && r == s[lead..lead + |r|] &&
      (forall k :: 0 <= k < lead ==> IsSpace(s[k])) &&
      (forall k :: lead + |r| <= k < |s| ==> IsSpace(s[k])) &&
      (r == [] || (!IsSpace(r[0]) && !IsSpace(r[|r| - 1])))
  {
    var t := TrimStart(s);
    var r := TrimEnd(t);
    var lead := |s| - |t|;
    assert t == s[lead..];
    forall k | lead + |r| <= k < |s|
      ensures IsSpace(s[k])
    {
      assert s[k] == t[k - lead];
    }
    assert r == t[..|r|];
    assert r == s[lead..lead + |r|];
  }

  /** `strip()` yields the empty string exactly when every character is whitespace. */
  lemma StripBlank(s: string)
    ensures Strip(s) == [] <==> forall k :: 0 <= k < |s| ==> IsSpace(s[k])
  {
    var t := TrimStart(s);
    assert t != [] ==> t[0] == s[|s| - |t|];
  }

  /** Python's `str.lower()` on one character, for the ASCII letters. */
  function LowerChar(c: char): char
  {
    if 'A' <= c <= 'Z' then (c as int - 'A' as int + 'a' as int) as char else c
  }

  /** `str.lower()` applied character by character. */
  function Lower(s: string): (r: string)
    ensures |r| == |s|
    ensures forall k :: 0 <= k < |s| ==> r[k] == LowerChar(s[k])
  {
    if s == [] then [] else [LowerChar(s[0])] + Lower(s[1..])
  }

  function Min(a: int, b: int): int
  {
    if a <= b then a else b
  }

  /** Python's `s[lo:hi]` for non-negative bounds: both bounds are clamped to the
      length, so the slice never fails. */
  function Slice(s: string, lo: nat, hi: nat): (r: string)
    ensures lo <= hi <= |s| ==> r == s[lo..hi]
    ensures lo <= |s| <= hi ==> r == s[lo..]
    ensures |s| <= lo || hi <= lo ==> r == []
  {
    var h := Min(hi, |s|);
    s[Min(lo, h)..h]
  }

  /** Python's `s.startswith(p)`. */
  predicate StartsWith(s: string, p: string)
  {
    p <= s
  }

  /** Python's `sub in s` on strings. */
  predicate Contains(s: string, sub: string)
  {
    sub <= s || (s != [] && Contains(s[1..], sub))
  }

  /** A string contains whatever is concatenated into it. */
  lemma {:induction false} ContainsInfix(a: string, b: string, c: string)
    ensures Contains(a + b + c, b)
  {
    if a == [] {
      assert a + b + c == b + c;
    } else {
      ContainsInfix(a[1..], b, c);
      assert (a + b + c)[1..] == a[1..] + b + c;
    }
  }
}
