/** Python's `str.strip` family, shared by the chunker, the coalescer and the history editor. */
module Text {

  /** The characters `str.strip()` removes, as ranges: Unicode white space plus the C0 information separators. */
  const SPACES := [
    ('\t', '\r'), ('\U{1c}', ' '), ('\U{85}', '\U{85}'), ('\U{a0}', '\U{a0}'), ('\U{1680}', '\U{1680}'),
    ('\U{2000}', '\U{200a}'), ('\U{2028}', '\U{2029}'), ('\U{202f}', '\U{202f}'), ('\U{205f}', '\U{205f}'),
    ('\U{3000}', '\U{3000}')]

  predicate InRanges(c: char, ranges: seq<(char, char)>) {
    ranges != [] && (ranges[0].0 <= c <= ranges[0].1 || InRanges(c, ranges[1..]))
  }

  predicate IsSpace(c: char) {
    InRanges(c, SPACES)
  }

  const ELLIPSIS := '\U{2026}'

  lemma SpaceFacts()
    ensures IsSpace(' ') && IsSpace('\n') && !IsSpace(ELLIPSIS)
  {
    InRangesIff(' ', SPACES);
    InRangesIff('\n', SPACES);
    InRangesIff(ELLIPSIS, SPACES);
    assert SPACES[1].0 <= ' ' <= SPACES[1].1 && SPACES[0].0 <= '\n' <= SPACES[0].1;
  }

  lemma {:induction false} InRangesIff(c: char, ranges: seq<(char, char)>)
    ensures InRanges(c, ranges) <==> exists i :: 0 <= i < |ranges| && ranges[i].0 <= c <= ranges[i].1
  {
    if ranges != [] {
      InRangesIff(c, ranges[1..]);
      if i :| 0 <= i < |ranges| && ranges[i].0 <= c <= ranges[i].1 {
        assert i > 0 ==> ranges[1..][i - 1] == ranges[i];
      }
      if i :| 0 <= i < |ranges[1..]| && ranges[1..][i].0 <= c <= ranges[1..][i].1 {
        assert ranges[i + 1] == ranges[1..][i];
      }
    }
  }

  predicate IsBlank(s: string) {
    forall i :: 0 <= i < |s| ==> IsSpace(s[i])
  }

  /** No white space at either end; the empty string is trimmed. */
  predicate IsTrimmed(s: string) {
    s == "" || (!IsSpace(s[0]) && !IsSpace(s[|s| - 1]))
  }

  /** The first visible position at or after i. */
  function SkipRight(s: string, i: nat): (r: nat)
    requires i <= |s|
    ensures i <= r <= |s| && (forall k :: i <= k < r ==> IsSpace(s[k])) && (r < |s| ==> !IsSpace(s[r]))
    decreases |s| - i
  {
    if i < |s| && IsSpace(s[i]) then SkipRight(s, i + 1) else i
  }

  /** The end of the last visible position before j. */
  function SkipLeft(s: string, j: nat): (r: nat)
    requires j <= |s|
    ensures r <= j && (forall k :: r <= k < j ==> IsSpace(s[k])) && (r > 0 ==> !IsSpace(s[r - 1]))
  {
    if j > 0 && IsSpace(s[j - 1]) then SkipLeft(s, j - 1) else j
  }

  function RStrip(s: string): string {
    s[..SkipLeft(s, |s|)]
  }

  function Strip(s: string): (r: string)
    ensures IsTrimmed(r)
  {
    var i, j := SkipRight(s, 0), SkipLeft(s, |s|);
    if i < j then s[i..j] else ""
  }

  lemma Margins(s: string, i: nat, j: nat)
    requires i <= j <= |s|
    requires (forall k :: 0 <= k < i ==> IsSpace(s[k])) && (forall k :: j <= k < |s| ==> IsSpace(s[k]))
    ensures s == s[..i] + s[i..j] + s[j..] && IsBlank(s[..i]) && IsBlank(s[j..])
  {
    forall k | 0 <= k < |s[j..]| ensures IsSpace(s[j..][k]) {
      assert s[j..][k] == s[j + k];
    }
  }

  /** What was cut off on either side is white space. */
  lemma StripSplits(s: string) returns (left: string, right: string)
    ensures s == left + Strip(s) + right && IsBlank(left) && IsBlank(right)
  {
    var i, j := SkipRight(s, 0), SkipLeft(s, |s|);
    left, right := if i < j then s[..i] else s, if i < j then s[j..] else "";
    if i < j {
      Margins(s, i, j);
    } else {
      assert Strip(s) == "" && s + "" + "" == s;
      assert IsBlank(s);
    }
  }

  /** Trimming changes nothing exactly on trimmed strings. */
  lemma StripFixpoint(s: string)
    ensures Strip(s) == s <==> IsTrimmed(s)
  {
  }

  lemma StripIdempotent(s: string)
    ensures Strip(Strip(s)) == Strip(s)
  {
    StripFixpoint(Strip(s));
  }

  /** A string whose first character is visible never trims to nothing. */
  lemma StripKeepsFirst(s: string)
    requires s != "" && !IsSpace(s[0])
    ensures Strip(s) != "" && Strip(s) <= s && Strip(s)[0] == s[0] && IsBlank(s[|Strip(s)|..])
  {
  }

  lemma RStripKeepsFirst(s: string)
    requires s != "" && !IsSpace(s[0])
    ensures RStrip(s) != "" && RStrip(s) <= s && IsTrimmed(RStrip(s)) && IsBlank(s[|RStrip(s)|..])
  {
  }

  /** Nor does one whose last character is visible. */
  lemma StripKeepsLast(s: string)
    requires s != "" && !IsSpace(s[|s| - 1])
    ensures var r := Strip(s);
            r != "" && |r| <= |s| && r == s[|s| - |r|..] && IsBlank(s[..|s| - |r|])
  {
  }

  /** The visible characters of a string, in order. */
  function Ink(s: string): string {
    if s == "" then "" else (if IsSpace(s[0]) then "" else [s[0]]) + Ink(s[1..])
  }

  lemma {:induction false} InkConcat(a: string, b: string)
    ensures Ink(a + b) == Ink(a) + Ink(b)
  {
    if a == "" {
      assert a + b == b;
    } else {
      assert (a + b)[1..] == a[1..] + b;
      InkConcat(a[1..], b);
    }
  }

  lemma {:induction false} InkBlank(s: string)
    requires IsBlank(s)
    ensures Ink(s) == ""
  {
    if s != "" {
      assert forall i :: 0 <= i < |s| - 1 ==> s[1..][i] == s[i + 1];
      InkBlank(s[1..]);
    }
  }

  lemma InkStrip(s: string)
    ensures Ink(Strip(s)) == Ink(s)
  {
    var left, right := StripSplits(s);
    InkConcat(left + Strip(s), right);
    InkConcat(left, Strip(s));
    InkBlank(left);
    InkBlank(right);
  }
}
