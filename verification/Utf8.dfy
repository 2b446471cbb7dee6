/** Well-formed UTF-8, as the table in section 4 of RFC 3629 gives it. */
module Utf8 {
  type Byte = b: int | 0 <= b < 256

  predicate IsTail(b: Byte) {
    0x80 <= b <= 0xBF
  }

  predicate Tails(s: seq<Byte>, from: nat, end: nat)
    requires end <= |s|
  {
    forall i :: from <= i < end ==> IsTail(s[i])
  }

  /** Length of the well-formed character `s` begins with, or 0. */
  function Width(s: seq<Byte>): (n: nat)
    ensures n <= |s| && n <= 4
    ensures n > 0 ==> !IsTail(s[0]) && Tails(s, 1, n)
    ensures n > 1 ==> s[0] >= 0xC2
  {
    if s == [] then 0
    else if s[0] <= 0x7F then 1
    else if |s| >= 2 && 0xC2 <= s[0] <= 0xDF && IsTail(s[1]) then 2
    else if |s| >= 3 && SecondOfThree(s[0], s[1]) && IsTail(s[2]) then 3
    else if |s| >= 4 && SecondOfFour(s[0], s[1]) && IsTail(s[2]) && IsTail(s[3]) then 4
    else 0
  }

  predicate SecondOfThree(a: Byte, b: Byte) {
    (a == 0xE0 && 0xA0 <= b <= 0xBF) || (0xE1 <= a <= 0xEC && IsTail(b)) ||
    (a == 0xED && 0x80 <= b <= 0x9F) || (0xEE <= a <= 0xEF && IsTail(b))
  }

  predicate SecondOfFour(a: Byte, b: Byte) {
    (a == 0xF0 && 0x90 <= b <= 0xBF) || (0xF1 <= a <= 0xF3 && IsTail(b)) || (a == 0xF4 && 0x80 <= b <= 0x8F)
  }

  predicate Valid(s: seq<Byte>) {
    s == [] || (Width(s) > 0 && Valid(s[Width(s)..]))
  }

  /** The test the standard library makes: not in front of a continuation byte. */
  predicate IsCharBoundary(s: seq<Byte>, i: nat) {
    i == 0 || i == |s| || (i < |s| && !IsTail(s[i]))
  }

  /** The first character of a longer text is the same. */
  lemma WidthOfPrefix(s: seq<Byte>, j: nat)
    requires j <= |s|
    ensures Width(s) <= j ==> Width(s[..j]) == Width(s)
    ensures Width(s[..j]) > 0 ==> Width(s) == Width(s[..j])
  {
  }

  /** In valid text the test finds exactly the places that cut it into two valid texts. */
  lemma {:induction false} BoundaryCuts(s: seq<Byte>, i: nat)
    requires Valid(s) && i <= |s|
    ensures IsCharBoundary(s, i) <==> Valid(s[..i])
    ensures IsCharBoundary(s, i) ==> Valid(s[i..])
    decreases |s|
  {
    if s == [] || i == 0 {
      assert s[i..] == s && s[..i] == [];
    } else {
      var n := Width(s);
      WidthOfPrefix(s, i);
      if i < n {
        assert IsTail(s[i]);
      } else {
        BoundaryCuts(s[n..], i - n);
        assert s[..i][n..] == s[n..][..i - n] && s[i..] == s[n..][i - n..];
        assert i < |s| ==> s[n..][i - n] == s[i];
      }
    }
  }

  lemma ValidStartsCharacter(s: seq<Byte>, i: nat)
    requires i < |s| && Valid(s[i..])
    ensures IsCharBoundary(s, i)
  {
    assert s[i..][0] == s[i];
  }

  /** Of four neighbouring positions in valid text at least one is a boundary. */
  lemma {:induction false} BoundaryNear(s: seq<Byte>, i: nat)
    requires Valid(s) && i <= |s|
    ensures exists j :: i - 3 <= j <= i && 0 <= j && IsCharBoundary(s, j)
    decreases |s|
  {
    if s == [] || i < 4 {
      assert IsCharBoundary(s, 0);
    } else {
      var n := Width(s);
      BoundaryNear(s[n..], i - n);
      var j :| i - n - 3 <= j <= i - n && 0 <= j && IsCharBoundary(s[n..], j);
      if j == 0 && n < |s| {
        assert Valid(s[n..]);
        ValidStartsCharacter(s, n);
      }
      assert j < |s| - n ==> s[n..][j] == s[j + n];
      assert IsCharBoundary(s, j + n);
    }
  }

  /** Behind an ASCII byte a new character begins. */
  lemma {:induction false} BoundaryAfterAscii(s: seq<Byte>, i: nat)
    requires Valid(s) && i < |s| && s[i] < 0x80
    ensures IsCharBoundary(s, i + 1)
    decreases |s|
  {
    var n := Width(s);
    if i < n {
      assert i == 0;
      if |s| > 1 { ValidStartsCharacter(s, 1); }
    } else {
      BoundaryAfterAscii(s[n..], i - n);
      assert i + 1 < |s| ==> s[n..][i - n + 1] == s[i + 1];
    }
  }

  // ----- encoding -----

  function EncodeChar(c: char): seq<Byte> {
    var v := c as int;
    if v < 0x80 then [v]
    else if v < 0x800 then [0xC0 + v / 0x40, 0x80 + v % 0x40]
    else if v < 0x10000 then [0xE0 + v / 0x1000, 0x80 + v / 0x40 % 0x40, 0x80 + v % 0x40]
    else [0xF0 + v / 0x40000, 0x80 + v / 0x1000 % 0x40, 0x80 + v / 0x40 % 0x40, 0x80 + v % 0x40]
  }

  function Encode(s: string): seq<Byte> {
    if s == "" then [] else EncodeChar(s[0]) + Encode(s[1..])
  }

  lemma CharIsOneCharacter(c: char, rest: seq<Byte>)
    ensures Width(EncodeChar(c) + rest) == |EncodeChar(c)|
  {
    var first := EncodeChar(c);
    EncodedWidth(c);
    assert (first + rest)[..|first|] == first;
    WidthOfPrefix(first + rest, |first|);
  }

  lemma EncodedWidth(c: char)
    ensures Width(EncodeChar(c)) == |EncodeChar(c)| > 0
  {
    var v := c as int;
    if v < 0x80 {
      assert EncodeChar(c) == [v];
    } else if v < 0x800 {
      TwoWide([0xC0 + v / 0x40, 0x80 + v % 0x40]);
    } else if v < 0x10000 {
      ThreeWide(v, EncodeChar(c));
    } else {
      FourWide(v, EncodeChar(c));
    }
  }

  lemma TwoWide(s: seq<Byte>)
    requires |s| == 2 && 0xC2 <= s[0] <= 0xDF && IsTail(s[1])
    ensures Width(s) == 2
  {
  }

  /** The code points from 0xD800 to 0xDFFF are no characters. */
  lemma ThreeWide(v: int, s: seq<Byte>)
    requires 0x800 <= v < 0x10000 && !(0xD800 <= v <= 0xDFFF)
    requires |s| == 3 && s[0] == 0xE0 + v / 0x1000 && s[1] == 0x80 + v / 0x40 % 0x40 && s[2] == 0x80 + v % 0x40
    ensures Width(s) == 3
  {
    assert v / 0x1000 == 0 ==> v / 0x40 % 0x40 >= 0x20;
    assert v / 0x1000 == 13 ==> v / 0x40 % 0x40 < 0x20;
    assert SecondOfThree(s[0], s[1]);
  }

  lemma FourWide(v: int, s: seq<Byte>)
    requires 0x10000 <= v < 0x110000 && |s| == 4 && s[0] == 0xF0 + v / 0x40000 && s[1] == 0x80 + v / 0x1000 % 0x40
    requires s[2] == 0x80 + v / 0x40 % 0x40 && s[3] == 0x80 + v % 0x40
    ensures Width(s) == 4
  {
    assert v / 0x40000 == 0 ==> v / 0x1000 % 0x40 >= 0x10;
    assert v / 0x40000 == 4 ==> v / 0x1000 % 0x40 < 0x10;
    assert SecondOfFour(s[0], s[1]);
  }

  lemma {:induction false} EncodedIsValid(s: string)
    ensures Valid(Encode(s))
  {
    if s != "" {
      EncodedIsValid(s[1..]);
      CharIsOneCharacter(s[0], Encode(s[1..]));
      assert (EncodeChar(s[0]) + Encode(s[1..]))[|EncodeChar(s[0])|..] == Encode(s[1..]);
    }
  }

  // ----- decoding -----

  /** The code point of a well-formed character, by the table in section 3 of RFC 3629. */
  function CodePoint(c: seq<Byte>): int {
    if |c| == 1 then c[0] as int
    else if |c| == 2 then (c[0] as int - 0xC0) * 0x40 + Six(c[1])
    else if |c| == 3 then ((c[0] as int - 0xE0) * 0x40 + Six(c[1])) * 0x40 + Six(c[2])
    else if |c| == 4 then (((c[0] as int - 0xF0) * 0x40 + Six(c[1])) * 0x40 + Six(c[2])) * 0x40 + Six(c[3])
    else -1
  }

  /** The six bits of a continuation byte. */
  function Six(b: Byte): int {
    b as int - 0x80
  }

  /** The code points of valid text. */
  function CodePoints(s: seq<Byte>): seq<int>
    requires Valid(s)
  {
    if s == [] then [] else [CodePoint(s[..Width(s)])] + CodePoints(s[Width(s)..])
  }

  lemma Halved(v: nat)
    ensures v == v / 0x40 * 0x40 + v % 0x40
    ensures v / 0x1000 == v / 0x40 / 0x40 && v / 0x40000 == v / 0x40 / 0x40 / 0x40
  {
  }

  lemma CharReadsBack(c: char)
    ensures CodePoint(EncodeChar(c)) == c as int
  {
    var v := c as int;
    Halved(v);
    Halved(v / 0x40);
    Halved(v / 0x1000);
    if v < 0x80 {
      assert EncodeChar(c) == [v];
    } else if v < 0x800 {
      TwoRead(c, v / 0x40, v % 0x40);
    } else if v < 0x10000 {
      ThreeRead(c, v / 0x1000, v / 0x40 % 0x40, v % 0x40);
    } else {
      FourRead(c, v / 0x40000, v / 0x1000 % 0x40, v / 0x40 % 0x40, v % 0x40);
    }
  }

  lemma TwoRead(c: char, x: nat, y: nat)
    requires y < 0x40 && 0xC0 + x < 256 && EncodeChar(c) == [0xC0 + x, 0x80 + y]
    ensures CodePoint(EncodeChar(c)) == x * 0x40 + y
  {
  }

  lemma ThreeRead(c: char, x: nat, y: nat, z: nat)
    requires y < 0x40 && z < 0x40 && 0xE0 + x < 256 && EncodeChar(c) == [0xE0 + x, 0x80 + y, 0x80 + z]
    ensures CodePoint(EncodeChar(c)) == (x * 0x40 + y) * 0x40 + z
  {
  }

  lemma FourRead(c: char, w: nat, x: nat, y: nat, z: nat)
    requires x < 0x40 && y < 0x40 && z < 0x40 && 0xF0 + w < 256
    requires EncodeChar(c) == [0xF0 + w, 0x80 + x, 0x80 + y, 0x80 + z]
    ensures CodePoint(EncodeChar(c)) == ((w * 0x40 + x) * 0x40 + y) * 0x40 + z
  {
  }

  /** Decoding what was encoded gives back the characters. */
  lemma {:induction false} EncodedReadsBack(s: string)
    ensures Valid(Encode(s)) && CodePoints(Encode(s)) == seq(|s|, i requires 0 <= i < |s| => s[i] as int)
  {
    EncodedIsValid(s);
    if s != "" {
      EncodedReadsBack(s[1..]);
      CharReadsBack(s[0]);
      CharIsOneCharacter(s[0], Encode(s[1..]));
      FirstCharacter(EncodeChar(s[0]), Encode(s[1..]), Encode(s));
      assert seq(|s|, i requires 0 <= i < |s| => s[i] as int) ==
             [s[0] as int] + seq(|s[1..]|, i requires 0 <= i < |s[1..]| => s[1..][i] as int);
    }
  }

  lemma FirstCharacter(first: seq<Byte>, rest: seq<Byte>, s: seq<Byte>)
    requires s == first + rest && first != [] && Width(s) == |first| && Valid(rest)
    ensures Valid(s) && CodePoints(s) == [CodePoint(first)] + CodePoints(rest)
  {
    assert s[..|first|] == first && s[|first|..] == rest;
  }
}
