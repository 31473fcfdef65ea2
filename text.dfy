/** The Python string operations the scripts rely on: `str.isspace`, `str.strip`,
    `str.lower`, `str.join` and substring tests. */
module Text {

  /** Python's `str.isspace()` on one character: the ASCII controls TAB..CR and
      FS..US, SPACE, NEL, NO-BREAK SPACE and the Unicode space separators. */
  predicate IsSpace(c: char) {
    var n := c as int;
    (9 <= n <= 13) || (28 <= n <= 32) || n == 0x85 || n == 0xA0 || n == 0x1680
    || (0x2000 <= n <= 0x200A) || n == 0x2028 || n == 0x2029 || n == 0x202F
    || n == 0x205F || n == 0x3000
  }

  predicate AllSpace(s: string) {
    forall k | 0 <= k < |s| :: IsSpace(s[k])
  }

  /** `t` occurs in `s` starting at index `i`. */
  predicate IsAt(s: string, i: int, t: string) {
    0 <= i && i + |t| <= |s| && s[i..i + |t|] == t
  }

  /** `t` occurs somewhere in `s`. */
  ghost predicate IsSubstring(t: string, s: string) {
    exists i :: IsAt(s, i, t)
  }

  /** Number of whitespace characters at the start of `s`. */
  function LeadingSpaces(s: string): (n: nat)
    ensures n <= |s| && AllSpace(s[..n])
    ensures n < |s| ==> !IsSpace(s[n])
  {
    if s == [] || !IsSpace(s[0]) then 0
    else
      var m := LeadingSpaces(s[1..]);
      assert s[..1 + m] == [s[0]] + s[1..][..m];
      1 + m
  }

  /** Number of whitespace characters at the end of `s`. */
  function TrailingSpaces(s: string): (n: nat)
    ensures n <= |s| && AllSpace(s[|s| - n..])
    ensures n < |s| ==> !IsSpace(s[|s| - n - 1])
  {
    if s == [] || !IsSpace(s[|s| - 1]) then 0
    else
      var init := s[..|s| - 1];
      var m := TrailingSpaces(init);
      assert s[|s| - (1 + m)..] == init[|init| - m..] + [s[|s| - 1]];
      1 + m
  }

  /** `r` is what Python's `s.strip()` gives when the kept text starts at `lo`:
      `r` sits at `lo` in `s`, everything before and after it is whitespace,
      and `r` neither starts nor ends with whitespace. */
  ghost predicate StripsTo(s: string, lo: int, r: string) {
    && 0 <= lo && lo + |r| <= |s|
    && s[lo..lo + |r|] == r
    && AllSpace(s[..lo])
    && AllSpace(s[lo + |r|..])
    && (r != [] ==> !IsSpace(r[0]) && !IsSpace(r[|r| - 1]))
  }

  /** Python's `s.strip()` with no argument. */
  function Strip(s: string): (r: string)
    ensures StripsTo(s, LeadingSpaces(s), r)
  {
    var lo := LeadingSpaces(s);
    var rest := s[lo..];
    var t := TrailingSpaces(rest);
    assert rest[|rest| - t..] == s[|s| - t..];
    assert t < |rest| ==> rest[|rest| - t - 1] == s[|s| - t - 1];
    StripBounds(s, lo, t);
    s[lo..|s| - t]
  }

  /** Leading and trailing whitespace runs that stop at non-whitespace
      delimit the stripped text. */
  lemma StripBounds(s: string, lo: nat, t: nat)
    requires lo <= |s| && AllSpace(s[..lo]) && (lo < |s| ==> !IsSpace(s[lo]))
    requires t <= |s| - lo && AllSpace(s[|s| - t..]) && (t < |s| - lo ==> !IsSpace(s[|s| - t - 1]))
    ensures StripsTo(s, lo, s[lo..|s| - t])
  {
    var r := s[lo..|s| - t];
    if r != [] {
      assert r[0] == s[lo];
      assert r[|r| - 1] == s[|s| - t - 1];
    }
  }

  /** The stripped text is determined by the characterisation: any `r` that
      `StripsTo` describes is `Strip(s)`. */
  lemma StripUnique(s: string, lo: int, r: string)
    requires StripsTo(s, lo, r)
    ensures r == Strip(s)
  {
    var lo' := LeadingSpaces(s);
    var r' := Strip(s);
    if r == [] {
      forall k | 0 <= k < |s| ensures IsSpace(s[k]) {
        if k < lo { assert s[..lo][k] == s[k]; } else { assert s[lo..][k - lo] == s[k]; }
      }
      assert lo' == |s|;
    } else {
      SameStart(s, lo, r, lo', r');
      SameEnd(s, lo, r, r');
    }
  }

  lemma SameStart(s: string, lo: int, r: string, lo': int, r': string)
    requires StripsTo(s, lo, r) && r != []
    requires lo' == LeadingSpaces(s) && StripsTo(s, lo', r')
    ensures lo == lo' && r' != []
  {
    assert s[lo] == r[0] by { assert s[lo..lo + |r|][0] == s[lo]; }
  }

  lemma SameEnd(s: string, lo: int, r: string, r': string)
    requires StripsTo(s, lo, r) && StripsTo(s, lo, r') && r != [] && r' != []
    ensures r == r'
  {
    var e, e' := lo + |r|, lo + |r'|;
    assert s[e - 1] == r[|r| - 1] by { assert s[lo..e][|r| - 1] == s[e - 1]; }
    assert s[e' - 1] == r'[|r'| - 1] by { assert s[lo..e'][|r'| - 1] == s[e' - 1]; }
  }

  /** Stripping a slice of `s` leaves a piece of `s`. */
  lemma StrippedSliceIsSubstring(s: string, lo: nat, hi: nat)
    requires lo <= hi <= |s|
    ensures IsSubstring(Strip(s[lo..hi]), s)
  {
    var g := s[lo..hi];
    var r := Strip(g);
    var off := LeadingSpaces(g);
    assert off + |r| <= |g| && g[off..off + |r|] == r;
    SliceOfSlice(s, lo, hi, off, off + |r|);
    assert IsAt(s, lo + off, r);
  }

  /** A slice of a slice is a slice of the original. */
  lemma SliceOfSlice(s: string, lo: nat, hi: nat, a: nat, b: nat)
    requires lo <= hi <= |s| && a <= b <= hi - lo
    ensures s[lo..hi][a..b] == s[lo + a..lo + b]
  {
    forall k | 0 <= k < b - a
      ensures s[lo..hi][a..b][k] == s[lo + a..lo + b][k]
    {
      assert s[lo..hi][a..b][k] == s[lo..hi][a + k] == s[lo + a + k];
    }
  }

  /** ASCII case folding of one character (Python's `str.lower` on ASCII letters). */
  function LowerChar(c: char): char {
    if 'A' <= c <= 'Z' then (c as int + 32) as char else c
  }

  /** Python's `s.lower()`, restricted to ASCII letters. */
  function Lower(s: string): (r: string)
    ensures |r| == |s|
    ensures forall k :: 0 <= k < |s| ==> r[k] == LowerChar(s[k])
  {
    seq(|s|, k requires 0 <= k < |s| => LowerChar(s[k]))
  }

  /** Python's `sep.join(parts)`. */
  function Join(sep: string, parts: seq<string>): (r: string)
  {
    if |parts| == 0 then ""
    else if |parts| == 1 then parts[0]
    else parts[0] + sep + Join(sep, parts[1..])
  }

  /** Joining three parts puts the separator between each neighbouring pair. */
  lemma JoinThree(sep: string, a: string, b: string, c: string)
    ensures Join(sep, [a, b, c]) == a + sep + b + sep + c
  {
    assert [a, b, c][1..] == [b, c];
    assert [b, c][1..] == [c];
    assert Join(sep, [b, c]) == b + sep + c;
    assert a + sep + (b + sep + c) == a + sep + b + sep + c;
  }
}
