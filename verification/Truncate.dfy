/** Head-and-tail truncation of tool output to a byte budget, never cutting a character. */
module Truncate {
  import opened Utf8

  const USIZE_MAX: nat := 0xFFFF_FFFF_FFFF_FFFF

  function SaturatingDouble(max: nat): nat {
    if max * 2 > USIZE_MAX then USIZE_MAX else max * 2
  }

  function Min(a: nat, b: nat): nat {
    if a < b then a else b
  }

  function Digits(n: nat): seq<Byte> {
    if n < 10 then [0x30 + n] else Digits(n / 10) + [0x30 + n % 10]
  }

  /** The number a row of decimal digits denotes. */
  function Value(s: seq<Byte>): int {
    if s == [] then 0 else Value(s[..|s| - 1]) * 10 + (s[|s| - 1] as int - 0x30)
  }

  /** The printed count reads back as the count. */
  lemma {:induction false} DigitsReadBack(n: nat)
    ensures Value(Digits(n)) == n && forall i :: 0 <= i < |Digits(n)| ==> 0x30 <= Digits(n)[i] <= 0x39
  {
    if n >= 10 {
      DigitsReadBack(n / 10);
      var pre: seq<Byte> := Digits(n / 10);
      assert Digits(n)[..|pre|] == pre;
    } else {
      assert Value([]) == 0 && Digits(n)[..0] == [];
    }
  }

  /** Newline, three dots, a space and an opening bracket. */
  const MARK_OPEN: seq<Byte> := [0x0A, 0x2E, 0x2E, 0x2E, 0x20, 0x5B]

  /** ` bytes elided] ...` and a newline. */
  const MARK_CLOSE: seq<Byte> :=
    [0x20, 0x62, 0x79, 0x74, 0x65, 0x73, 0x20, 0x65, 0x6C, 0x69, 0x64, 0x65, 0x64, 0x5D, 0x20, 0x2E, 0x2E, 0x2E, 0x0A]

  function Marker(elided: nat): seq<Byte> {
    MARK_OPEN + Digits(elided) + MARK_CLOSE
  }

  /** The longest valid prefix of at most `max` bytes. */
  predicate IsLongestHead(s: seq<Byte>, max: nat, h: nat) {
    h <= max <= |s| && Valid(s[..h]) && forall j :: h < j <= max ==> !Valid(s[..j])
  }

  /** The start of the longest valid suffix of at most `max` bytes. */
  predicate IsLongestTail(s: seq<Byte>, max: nat, t: nat) {
    max <= |s| && |s| - max <= t <= |s| && Valid(s[t..]) && forall j :: |s| - max <= j < t ==> !Valid(s[j..])
  }

  method FloorCharBoundary(s: seq<Byte>, idx: nat) returns (i: nat)
    requires Valid(s)
    ensures IsLongestHead(s, Min(idx, |s|), i)
    ensures Min(idx, |s|) - i <= 3
  {
    var m := Min(idx, |s|);
    i := m;
    while i > 0 && !IsCharBoundary(s, i)
      invariant i <= m
      invariant forall j :: i < j <= m ==> !IsCharBoundary(s, j)
    {
      i := i - 1;
    }
    BoundaryCuts(s, i);
    BoundaryNear(s, m);
    forall j | i < j <= m ensures !Valid(s[..j]) { BoundaryCuts(s, j); }
  }

  method CeilCharBoundary(s: seq<Byte>, idx: nat) returns (i: nat)
    requires Valid(s)
    ensures var m := Min(idx, |s|); IsLongestTail(s, |s| - m, i) && i - m <= 3
  {
    var m := Min(idx, |s|);
    i := m;
    while i < |s| && !IsCharBoundary(s, i)
      invariant m <= i <= |s|
      invariant forall j :: m <= j < i ==> !IsCharBoundary(s, j)
      decreases |s| - i
    {
      i := i + 1;
    }
    BoundaryCuts(s, i);
    if i > m + 3 { BoundaryNear(s, m + 3); }
    forall j | m <= j < i ensures !Valid(s[j..]) {
      if Valid(s[j..]) { ValidStartsCharacter(s, j); }
    }
  }

  /** Head, marker and tail. */
  function Joined(s: seq<Byte>, h: nat, t: nat): seq<Byte>
    requires h <= t <= |s|
  {
    s[..h] + Marker(t - h) + s[t..]
  }

  /** The output begins with the head and ends with the tail; between them stands the marker with the exact count. */
  predicate IsHeadMarkerTail(s: seq<Byte>, h: nat, t: nat, text: seq<Byte>) {
    h <= t <= |s| &&
    var end := |text| - (|s| - t);
    h <= end <= |text| && text[..h] == s[..h] && text[end..] == s[t..] &&
    text[h..end] == Encode("\n... [") + Digits(t - h) + Encode(" bytes elided] ...\n")
  }

  lemma {:induction false} EncodeAscii(text: string, bytes: seq<Byte>)
    requires |bytes| == |text| && forall i :: 0 <= i < |text| ==> text[i] as int < 0x80 && bytes[i] == text[i] as int
    ensures Encode(text) == bytes
  {
    if text != "" {
      EncodeAscii(text[1..], bytes[1..]);
      assert bytes == [bytes[0]] + bytes[1..];
    }
  }

  lemma MarkerReads()
    ensures MARK_OPEN == Encode("\n... [") && MARK_CLOSE == Encode(" bytes elided] ...\n")
  {
    EncodeAscii("\n... [", MARK_OPEN);
    EncodeAscii(" bytes elided] ...\n", MARK_CLOSE);
  }

  lemma JoinedParts(s: seq<Byte>, h: nat, t: nat)
    requires h <= t <= |s|
    ensures IsHeadMarkerTail(s, h, t, Joined(s, h, t))
  {
    MarkerReads();
    ThreeParts(s[..h], Marker(t - h), s[t..]);
  }

  lemma ThreeParts(a: seq<Byte>, b: seq<Byte>, c: seq<Byte>)
    ensures var text, end := a + b + c, |a| + |b|;
            end == |text| - |c| && text[..|a|] == a && text[|a|..end] == b && text[end..] == c
  {
  }

  /**
   Text over budget keeps its longest valid head and tail of at most `max` bytes; both
   come within three bytes of `max`, do not overlap, and the reported count is exact.
   */
  predicate IsElided(s: seq<Byte>, max: nat, text: seq<Byte>, h: nat, t: nat) {
    IsLongestHead(s, max, h) && IsLongestTail(s, max, t) && h <= t &&
    max - h <= 3 && max - (|s| - t) <= 3 &&
    IsHeadMarkerTail(s, h, t, text) &&
    |s| - 2 * max <= t - h <= |s| - 2 * max + 6
  }

  lemma Elides(s: seq<Byte>, max: nat, h: nat, t: nat)
    requires 2 * max < |s| && IsLongestHead(s, max, h) && IsLongestTail(s, max, t)
    requires max - h <= 3 && t - (|s| - max) <= 3
    ensures h <= t && IsElided(s, max, Joined(s, h, t), h, t)
  {
    JoinedParts(s, h, t);
  }

  method Elide(s: seq<Byte>, max: nat) returns (text: seq<Byte>, ghost head: nat, ghost tail: nat)
    requires Valid(s) && 2 * max < |s|
    ensures IsElided(s, max, text, head, tail) && Valid(text)
  {
    var headEnd := FloorCharBoundary(s, max);
    var tailStart := CeilCharBoundary(s, |s| - max);
    var elided := |s| - headEnd - (|s| - tailStart);
    text, head, tail := s[..headEnd] + Marker(elided) + s[tailStart..], headEnd, tailStart;
    assert text == Joined(s, headEnd, tailStart) by { assert elided == tailStart - headEnd; }
    ElidedIsValid(s, headEnd, tailStart);
    Elides(s, max, headEnd, tailStart);
  }

  method HeadTail(s: seq<Byte>, max: nat) returns (text: seq<Byte>, truncated: bool, ghost head: nat, ghost tail: nat)
    requires Valid(s) && |s| <= USIZE_MAX && max <= USIZE_MAX
    ensures truncated <==> |s| > 2 * max
    ensures !truncated ==> text == s
    ensures truncated ==> IsElided(s, max, text, head, tail)
    ensures Valid(text)
  {
    if |s| <= SaturatingDouble(max) { return s, false, 0, 0; }
    truncated := true;
    text, head, tail := Elide(s, max);
  }

  lemma ElidedIsValid(s: seq<Byte>, h: nat, t: nat)
    requires h <= t <= |s| && Valid(s[..h]) && Valid(s[t..])
    ensures Valid(Joined(s, h, t))
  {
    MarkerIsAscii(t - h);
    ValidWithAscii(s[..h], Marker(t - h), s[t..]);
  }

  predicate AllAscii(s: seq<Byte>) {
    forall i :: 0 <= i < |s| ==> s[i] < 0x80
  }

  lemma {:induction false} DigitsAreAscii(n: nat)
    ensures AllAscii(Digits(n))
  {
    if n >= 10 { DigitsAreAscii(n / 10); }
  }

  lemma MarkerIsAscii(n: nat)
    ensures AllAscii(Marker(n))
  {
    DigitsAreAscii(n);
  }

  lemma {:induction false} AsciiThenValid(a: seq<Byte>, b: seq<Byte>)
    requires AllAscii(a) && Valid(b)
    ensures Valid(a + b)
  {
    if a == [] {
      assert a + b == b;
    } else {
      AsciiThenValid(a[1..], b);
      assert (a + b)[1..] == a[1..] + b;
    }
  }

  lemma WidthConcat(a: seq<Byte>, b: seq<Byte>)
    requires Width(a) > 0
    ensures Width(a + b) == Width(a)
  {
    assert (a + b)[..|a|] == a;
    WidthOfPrefix(a + b, |a|);
  }

  lemma {:induction false} ValidConcat(a: seq<Byte>, b: seq<Byte>)
    requires Valid(a) && Valid(b)
    ensures Valid(a + b)
    decreases |a|
  {
    if a == [] {
      assert a + b == b;
    } else {
      WidthConcat(a, b);
      ValidConcat(a[Width(a)..], b);
      TailConcat(a, b, Width(a));
    }
  }

  lemma TailConcat(a: seq<Byte>, b: seq<Byte>, n: nat)
    requires n <= |a|
    ensures (a + b)[n..] == a[n..] + b
  {
  }

  lemma ValidWithAscii(a: seq<Byte>, mid: seq<Byte>, b: seq<Byte>)
    requires Valid(a) && AllAscii(mid) && Valid(b)
    ensures Valid(a + mid + b)
  {
    AsciiThenValid(mid, b);
    ValidConcat(a, mid + b);
    assert a + mid + b == a + (mid + b);
  }
}
