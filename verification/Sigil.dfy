/**
 The sigil scanner. The scanner jumps from one special byte to the next; `ModeAt` is an
 independent automaton that reads one byte at a time. They are proved equal on every
 chunk, and the fence properties are proved of the automaton.
 */
module Sigil {
  import opened Wrappers
  import opened Utf8

  datatype FenceState = Normal | InFenced | InInline

  /** A sigil: its name and the offset of its `$`. */
  datatype Hit = Hit(name: seq<Byte>, offset: nat)

  const DOLLAR: Byte := 0x24
  const BACKTICK: Byte := 0x60
  const NEWLINE: Byte := 0x0A
  const MAX_NAME := 64

  predicate IsLetter(b: Byte) {
    0x41 <= b <= 0x5A || 0x61 <= b <= 0x7A
  }

  predicate IsNameByte(b: Byte) {
    IsLetter(b) || 0x30 <= b <= 0x39 || b == 0x5F || b == 0x3A || b == 0x2D
  }

  /** The bytes by the characters they stand for. */
  lemma BytesOfThePattern(c: char)
    requires c as int < 0x80
    ensures c as int == DOLLAR <==> c == '$'
    ensures c as int == BACKTICK <==> c == '`'
    ensures c as int == NEWLINE <==> c == '\n'
    ensures IsLetter(c as int) <==> 'a' <= c <= 'z' || 'A' <= c <= 'Z'
    ensures IsNameByte(c as int) <==>
            'a' <= c <= 'z' || 'A' <= c <= 'Z' || '0' <= c <= '9' || c == '_' || c == ':' || c == '-'
  {
  }

  // ----- sigils -----

  predicate SigilAt(s: seq<Byte>, i: nat) {
    i + 1 < |s| && s[i] == DOLLAR && IsLetter(s[i + 1])
  }

  /** Length of the greedy name at `i`, at most `room` bytes. */
  function NameLength(s: seq<Byte>, i: nat, room: nat): (n: nat)
    requires i <= |s|
    ensures n <= room && i + n <= |s|
    decreases |s| - i
  {
    if room == 0 || i == |s| || !IsNameByte(s[i]) then 0 else 1 + NameLength(s, i + 1, room - 1)
  }

  /** It takes name bytes only, and all it can. */
  lemma {:induction false} NameIsGreedy(s: seq<Byte>, i: nat, room: nat)
    requires i <= |s|
    ensures var n := NameLength(s, i, room);
            (forall k :: i <= k < i + n ==> IsNameByte(s[k])) && (n == room || i + n == |s| || !IsNameByte(s[i + n]))
    decreases room
  {
    if room > 0 && i < |s| && IsNameByte(s[i]) { NameIsGreedy(s, i + 1, room - 1); }
  }

  /** The `n` bytes from `i` on. */
  function Part(s: seq<Byte>, i: nat, n: nat): (r: seq<Byte>)
    requires i + n <= |s|
    ensures |r| == n
  {
    if n == 0 then [] else Part(s, i, n - 1) + [s[i + n - 1]]
  }

  lemma {:induction false} PartIsSlice(s: seq<Byte>, i: nat, n: nat)
    requires i + n <= |s|
    ensures Part(s, i, n) == s[i..i + n]
  {
    if n > 0 {
      PartIsSlice(s, i, n - 1);
      assert s[i..i + n] == s[i..i + n - 1] + [s[i + n - 1]];
    }
  }

  function HitAt(s: seq<Byte>, i: nat): Hit
    requires i < |s|
  {
    Hit(Part(s, i + 1, NameLength(s, i + 1, MAX_NAME)), i)
  }

  // ----- the automaton -----

  /** `quiet`: a newline has been passed, so single backticks no longer matter. `Closing`: inside a closing fence. */
  datatype Mode = Plain(quiet: bool) | Fenced | Inline | Closing(left: nat)

  /** Three backticks at the start of a line. */
  predicate FenceAt(s: seq<Byte>, i: nat) {
    i + 3 <= |s| && (i == 0 || s[i - 1] == NEWLINE) && s[i] == BACKTICK && s[i + 1] == BACKTICK && s[i + 2] == BACKTICK
  }

  function StepByte(m: Mode, s: seq<Byte>, i: nat): Mode
    requires i < |s|
  {
    match m
    case Plain(quiet) =>
      if FenceAt(s, i) then Fenced
      else if s[i] == BACKTICK && !quiet then Inline
      else if s[i] == NEWLINE then Plain(true)
      else m
    case Fenced => if FenceAt(s, i) then Closing(2) else Fenced
    case Inline => if s[i] == BACKTICK || s[i] == NEWLINE then Plain(false) else Inline
    case Closing(left) => if left <= 1 then Plain(false) else Closing(left - 1)
  }

  function ModeOf(state: FenceState): Mode {
    match state
    case Normal => Plain(false)
    case InFenced => Fenced
    case InInline => Inline
  }

  function StateOf(m: Mode): FenceState {
    match m
    case Plain(_) => Normal
    case Closing(_) => Normal
    case Fenced => InFenced
    case Inline => InInline
  }

  /** The mode in front of byte `i`. */
  function ModeAt(state: FenceState, s: seq<Byte>, i: nat): Mode
    requires i <= |s|
  {
    if i == 0 then ModeOf(state) else StepByte(ModeAt(state, s, i - 1), s, i - 1)
  }

  /** The sigils before byte `i` that stand in plain text. */
  function HitsBefore(state: FenceState, s: seq<Byte>, i: nat): seq<Hit>
    requires i <= |s|
  {
    if i == 0 then []
    else
      var before := HitsBefore(state, s, i - 1);
      if SigilAt(s, i - 1) && ModeAt(state, s, i - 1).Plain? then before + [HitAt(s, i - 1)] else before
  }

  // ----- the scanner -----

  function FindByte(s: seq<Byte>, from: nat, b: Byte): (r: Option<nat>)
    requires from <= |s|
    ensures r.Some? ==> from <= r.value < |s| && s[r.value] == b
    decreases |s| - from
  {
    if from == |s| then None else if s[from] == b then Some(from) else FindByte(s, from + 1, b)
  }

  lemma {:induction false} FoundFirst(s: seq<Byte>, from: nat, b: Byte)
    requires from <= |s|
    ensures var r := FindByte(s, from, b);
            forall k :: from <= k < (if r.Some? then r.value else |s|) ==> s[k] != b
    decreases |s| - from
  {
    if from < |s| && s[from] != b { FoundFirst(s, from + 1, b); }
  }

  method FindAtLineStart(s: seq<Byte>, from: nat) returns (r: Option<nat>)
    requires from <= |s|
    ensures r.Some? ==> from <= r.value && FenceAt(s, r.value) && forall k :: from <= k < r.value ==> !FenceAt(s, k)
    ensures r.None? ==> forall k: nat :: from <= k ==> !FenceAt(s, k)
  {
    var i := from;
    while i + 3 <= |s|
      invariant from <= i
      invariant forall k :: from <= k < i ==> !FenceAt(s, k)
    {
      assert s[i..i + 3] == [s[i], s[i + 1], s[i + 2]];
      if (i == 0 || s[i - 1] == NEWLINE) && s[i..i + 3] == [BACKTICK, BACKTICK, BACKTICK] {
        return Some(i);
      }
      i := i + 1;
    }
    return None;
  }

  function PickMin(a: Option<nat>, b: Option<nat>): Option<nat> {
    if a.None? then b else if b.None? then a else if a.value <= b.value then a else b
  }

  /** Cutting text anywhere but at a character boundary is an error; this is the only way the scanner cuts. */
  function Slice(s: seq<Byte>, from: nat, end: nat): (r: seq<Byte>)
    requires from <= end <= |s| && IsCharBoundary(s, from) && IsCharBoundary(s, end)
    ensures r == s[from..end]
  {
    s[from..end]
  }

  /** All sigils of a slice before `n`, whatever surrounds them. */
  function Captured(s: seq<Byte>, n: nat): seq<Hit>
    requires n <= |s|
  {
    if n == 0 then [] else if SigilAt(s, n - 1) then Captured(s, n - 1) + [HitAt(s, n - 1)] else Captured(s, n - 1)
  }

  lemma {:induction false} CapturedSkips(s: seq<Byte>, i: nat, n: nat)
    requires i <= n <= |s| && forall k :: i <= k < n ==> s[k] != DOLLAR
    ensures Captured(s, n) == Captured(s, i)
    decreases n
  {
    if n > i { CapturedSkips(s, i, n - 1); }
  }

  /** A match, and nothing else inside its name. */
  lemma CapturedOne(s: seq<Byte>, i: nat)
    requires i < |s| && SigilAt(s, i)
    ensures var n := NameLength(s, i + 1, MAX_NAME);
            Captured(s, i + 1 + n) == Captured(s, i) + [Hit(s[i + 1..i + 1 + n], i)]
  {
    PartIsSlice(s, i + 1, NameLength(s, i + 1, MAX_NAME));
    NameIsGreedy(s, i + 1, MAX_NAME);
    CapturedSkips(s, i + 1, i + 1 + NameLength(s, i + 1, MAX_NAME));
  }

  /** Leftmost, greedy, non-overlapping matches of a `$` and a name. */
  method Captures(s: seq<Byte>) returns (hits: seq<Hit>)
    ensures hits == Captured(s, |s|)
  {
    hits := [];
    var i := 0;
    while i < |s|
      invariant i <= |s| && hits == Captured(s, i)
    {
      if i + 1 < |s| && s[i] == DOLLAR && IsLetter(s[i + 1]) {
        var n := NameLength(s, i + 1, MAX_NAME);
        hits := hits + [Hit(s[i + 1..i + 1 + n], i)];
        CapturedOne(s, i);
        i := i + 1 + n;
      } else {
        i := i + 1;
      }
    }
  }

  function Shifted(hits: seq<Hit>, base: nat): seq<Hit> {
    if hits == [] then []
    else Shifted(hits[..|hits| - 1], base) + [Hit(hits[|hits| - 1].name, base + hits[|hits| - 1].offset)]
  }

  /** `slice` is the chunk between two positions, the second a backtick or the end. */
  predicate IsSlice(s: seq<Byte>, from: nat, slice: seq<Byte>) {
    from + |slice| <= |s| && (forall j {:trigger slice[j]} :: 0 <= j < |slice| ==> slice[j] == s[from + j]) &&
    (from + |slice| < |s| ==> s[from + |slice|] == BACKTICK)
  }

  lemma {:induction false} NameInSlice(s: seq<Byte>, from: nat, slice: seq<Byte>, i: nat, room: nat)
    requires IsSlice(s, from, slice) && i <= |slice|
    ensures NameLength(slice, i, room) == NameLength(s, from + i, room)
    decreases room
  {
    if room > 0 && i < |slice| && IsNameByte(slice[i]) {
      NameInSlice(s, from, slice, i + 1, room - 1);
    }
  }

  lemma SliceHit(s: seq<Byte>, from: nat, slice: seq<Byte>, i: nat)
    requires IsSlice(s, from, slice) && i < |slice|
    ensures SigilAt(slice, i) <==> SigilAt(s, from + i)
    ensures SigilAt(slice, i) ==> HitAt(s, from + i) == Hit(HitAt(slice, i).name, from + i)
  {
    if SigilAt(slice, i) {
      NameInSlice(s, from, slice, i + 1, MAX_NAME);
      var len := NameLength(slice, i + 1, MAX_NAME);
      SamePart(s, from, slice, i + 1, len);
    }
  }

  lemma {:induction false} SamePart(s: seq<Byte>, from: nat, slice: seq<Byte>, i: nat, len: nat)
    requires IsSlice(s, from, slice) && i + len <= |slice|
    ensures Part(slice, i, len) == Part(s, from + i, len)
  {
    if len > 0 { SamePart(s, from, slice, i, len - 1); }
  }

  lemma ShiftedSnoc(hits: seq<Hit>, h: Hit, base: nat)
    ensures Shifted(hits + [h], base) == Shifted(hits, base) + [Hit(h.name, base + h.offset)]
  {
    assert (hits + [h])[..|hits|] == hits;
  }

  lemma HitsSnoc(state: FenceState, s: seq<Byte>, i: nat)
    requires i < |s|
    ensures HitsBefore(state, s, i + 1) ==
            if SigilAt(s, i) && ModeAt(state, s, i).Plain? then HitsBefore(state, s, i) + [HitAt(s, i)]
            else HitsBefore(state, s, i)
  {
  }

  lemma NextCapture(state: FenceState, s: seq<Byte>, from: nat, slice: seq<Byte>, i: nat, head: seq<Hit>, found: seq<Hit>)
    requires from + i < |s| && i < |slice| && ModeAt(state, s, from + i).Plain?
    requires SigilAt(slice, i) <==> SigilAt(s, from + i)
    requires SigilAt(slice, i) ==> HitAt(s, from + i) == Hit(HitAt(slice, i).name, from + i)
    requires found == Captured(slice, i) && HitsBefore(state, s, from + i) == head + Shifted(found, from)
    ensures HitsBefore(state, s, from + i + 1) == head + Shifted(Captured(slice, i + 1), from)
  {
    HitsSnoc(state, s, from + i);
    CapturedSnoc(slice, i);
    if SigilAt(slice, i) { PlainSnoc(head, found, HitAt(slice, i), from); }
  }

  lemma CapturedSnoc(s: seq<Byte>, i: nat)
    requires i < |s|
    ensures Captured(s, i + 1) == if SigilAt(s, i) then Captured(s, i) + [HitAt(s, i)] else Captured(s, i)
  {
  }

  /** Plain text all the way: the sigils of the slice are the sigils of the chunk there. */
  lemma {:induction false} CapturedArePlain(state: FenceState, s: seq<Byte>, from: nat, slice: seq<Byte>, n: nat)
    requires IsSlice(s, from, slice) && n <= |slice|
    requires forall k :: from <= k < from + n ==> ModeAt(state, s, k).Plain?
    ensures HitsBefore(state, s, from + n) == HitsBefore(state, s, from) + Shifted(Captured(slice, n), from)
    decreases n
  {
    if n == 0 {
      assert HitsBefore(state, s, from) + [] == HitsBefore(state, s, from);
    } else {
      CapturedArePlain(state, s, from, slice, n - 1);
      SliceHit(s, from, slice, n - 1);
      NextCapture(state, s, from, slice, n - 1, HitsBefore(state, s, from), Captured(slice, n - 1));
    }
  }

  lemma PlainSnoc(before: seq<Hit>, found: seq<Hit>, h: Hit, base: nat)
    ensures before + Shifted(found + [h], base) == before + Shifted(found, base) + [Hit(h.name, base + h.offset)]
  {
    ShiftedSnoc(found, h, base);
  }

  lemma {:induction false} NoHitsOutside(state: FenceState, s: seq<Byte>, from: nat, end: nat)
    requires from <= end <= |s| && forall k :: from <= k < end ==> !ModeAt(state, s, k).Plain? || s[k] != DOLLAR
    ensures HitsBefore(state, s, end) == HitsBefore(state, s, from)
    decreases end
  {
    if end > from { NoHitsOutside(state, s, from, end - 1); }
  }

  // ----- where the scanner jumps to -----

  /** No fence opens in the stretch, and no backtick before its first newline. */
  predicate StaysPlain(s: seq<Byte>, from: nat, end: nat)
    requires end <= |s|
  {
    (forall k :: from <= k < end ==> !FenceAt(s, k)) &&
    (forall k :: from <= k < end && s[k] == BACKTICK ==> exists j :: from <= j < k && s[j] == NEWLINE)
  }

  predicate NewlineIn(s: seq<Byte>, from: nat, end: nat)
    requires end <= |s|
  {
    exists j :: from <= j < end && s[j] == NEWLINE
  }

  lemma {:induction false} PlainRun(state: FenceState, s: seq<Byte>, from: nat, end: nat)
    requires from <= end <= |s| && ModeAt(state, s, from) == Plain(false) && StaysPlain(s, from, end)
    ensures ModeAt(state, s, end) == Plain(NewlineIn(s, from, end))
    ensures forall k :: from <= k <= end ==> ModeAt(state, s, k).Plain?
    decreases end
  {
    if end > from {
      PlainRun(state, s, from, end - 1);
      assert NewlineIn(s, from, end) <==> NewlineIn(s, from, end - 1) || s[end - 1] == NEWLINE;
    }
  }

  lemma {:induction false} FencedRun(state: FenceState, s: seq<Byte>, from: nat, end: nat)
    requires from <= end <= |s| && ModeAt(state, s, from).Fenced? && forall k :: from <= k < end ==> !FenceAt(s, k)
    ensures forall k :: from <= k <= end ==> ModeAt(state, s, k).Fenced?
    decreases end
  {
    if end > from { FencedRun(state, s, from, end - 1); }
  }

  lemma {:induction false} InlineRun(state: FenceState, s: seq<Byte>, from: nat, end: nat)
    requires from <= end <= |s| && ModeAt(state, s, from).Inline?
    requires forall k :: from <= k < end ==> s[k] != BACKTICK && s[k] != NEWLINE
    ensures forall k :: from <= k <= end ==> ModeAt(state, s, k).Inline?
    decreases end
  {
    if end > from { InlineRun(state, s, from, end - 1); }
  }

  lemma FenceOpens(state: FenceState, s: seq<Byte>, t: nat)
    requires FenceAt(s, t) && ModeAt(state, s, t).Plain?
    ensures ModeAt(state, s, t + 3).Fenced? && HitsBefore(state, s, t + 3) == HitsBefore(state, s, t)
  {
    assert !FenceAt(s, t + 1) && !FenceAt(s, t + 2);
    FencedRun(state, s, t + 1, t + 3);
    NoHitsOutside(state, s, t, t + 3);
  }

  lemma FenceCloses(state: FenceState, s: seq<Byte>, t: nat)
    requires FenceAt(s, t) && ModeAt(state, s, t).Fenced?
    ensures ModeAt(state, s, t + 3) == Plain(false) && HitsBefore(state, s, t + 3) == HitsBefore(state, s, t)
  {
    assert ModeAt(state, s, t + 1) == Closing(2) && ModeAt(state, s, t + 2) == Closing(1);
    NoHitsOutside(state, s, t, t + 3);
  }

  // ----- one jump -----

  /** The scanner in front of byte `idx` agrees with the automaton there. */
  predicate Reads(state: FenceState, s: seq<Byte>, idx: nat, out: FenceState, hits: seq<Hit>) {
    idx <= |s| && IsCharBoundary(s, idx) && hits == HitsBefore(state, s, idx) &&
    StateOf(ModeAt(state, s, idx)) == out && (idx < |s| ==> ModeAt(state, s, idx) == ModeOf(out))
  }

  /** From plain text at `idx` to `end`, the next special byte or the end of the chunk. */
  lemma PlainJump(state: FenceState, s: seq<Byte>, idx: nat, end: nat, before: seq<Hit>)
    requires idx < |s| && Reads(state, s, idx, Normal, before)
    requires idx <= end <= |s| && StaysPlain(s, idx, end) && (end == |s| || s[end] == BACKTICK)
    ensures ModeAt(state, s, end) == Plain(NewlineIn(s, idx, end))
    ensures HitsBefore(state, s, end) == before + Shifted(Captured(s[idx..end], end - idx), idx)
  {
    PlainRun(state, s, idx, end);
    CapturedArePlain(state, s, idx, s[idx..end], end - idx);
  }

  lemma IntoFence(state: FenceState, s: seq<Byte>, t: nat, hits: seq<Hit>)
    requires Valid(s) && FenceAt(s, t) && ModeAt(state, s, t).Plain? && hits == HitsBefore(state, s, t)
    ensures Reads(state, s, t + 3, InFenced, hits)
  {
    FenceOpens(state, s, t);
    BoundaryAfterAscii(s, t + 2);
  }

  lemma IntoInline(state: FenceState, s: seq<Byte>, b: nat, hits: seq<Hit>)
    requires Valid(s) && b < |s| && s[b] == BACKTICK && !FenceAt(s, b) && ModeAt(state, s, b) == Plain(false)
    requires hits == HitsBefore(state, s, b)
    ensures Reads(state, s, b + 1, InInline, hits)
  {
    BoundaryAfterAscii(s, b);
  }

  lemma OutOfFence(state: FenceState, s: seq<Byte>, idx: nat, t: nat, hits: seq<Hit>)
    requires Valid(s) && Reads(state, s, idx, InFenced, hits) && idx <= t && FenceAt(s, t)
    requires forall k :: idx <= k < t ==> !FenceAt(s, k)
    ensures Reads(state, s, t + 3, Normal, hits)
  {
    FencedRun(state, s, idx, t);
    NoHitsOutside(state, s, idx, t);
    FenceCloses(state, s, t);
    BoundaryAfterAscii(s, t + 2);
  }

  lemma OutOfInline(state: FenceState, s: seq<Byte>, idx: nat, close: nat, hits: seq<Hit>)
    requires Valid(s) && Reads(state, s, idx, InInline, hits) && idx <= close < |s|
    requires s[close] == BACKTICK || s[close] == NEWLINE
    requires forall k :: idx <= k < close ==> s[k] != BACKTICK && s[k] != NEWLINE
    ensures Reads(state, s, close + 1, Normal, hits)
  {
    InlineRun(state, s, idx, close);
    NoHitsOutside(state, s, idx, close + 1);
    InlineEnds(state, s, close);
    BoundaryAfterAscii(s, close);
  }

  lemma InlineEnds(state: FenceState, s: seq<Byte>, close: nat)
    requires close < |s| && ModeAt(state, s, close).Inline? && (s[close] == BACKTICK || s[close] == NEWLINE)
    ensures ModeAt(state, s, close + 1) == Plain(false)
  {
  }

  lemma CodeToTheEnd(state: FenceState, s: seq<Byte>, idx: nat, out: FenceState, hits: seq<Hit>)
    requires idx < |s| && Reads(state, s, idx, out, hits)
    requires (out == InFenced && forall k: nat :: idx <= k ==> !FenceAt(s, k)) ||
             (out == InInline && forall k :: idx <= k < |s| ==> s[k] != BACKTICK && s[k] != NEWLINE)
    ensures Reads(state, s, |s|, out, hits)
  {
    if out == InFenced {
      FencedRun(state, s, idx, |s|);
    } else {
      InlineRun(state, s, idx, |s|);
    }
    NoHitsOutside(state, s, idx, |s|);
  }

  lemma PlainToTheEnd(state: FenceState, s: seq<Byte>, hits: seq<Hit>)
    requires ModeAt(state, s, |s|).Plain? && hits == HitsBefore(state, s, |s|)
    ensures Reads(state, s, |s|, Normal, hits)
  {
  }

  /** The next fence, or the next backtick of this line, whichever comes first. */
  method FindSpecial(chunk: seq<Byte>, idx: nat) returns (special: Option<nat>, fence: bool)
    requires idx < |chunk|
    ensures special.Some? ==>
              idx <= special.value < |chunk| && chunk[special.value] == BACKTICK &&
              (fence <==> FenceAt(chunk, special.value)) && (!fence ==> !NewlineIn(chunk, idx, special.value))
    ensures StaysPlain(chunk, idx, if special.Some? then special.value else |chunk|)
  {
    var triple := FindAtLineStart(chunk, idx);
    var backtick := FindByte(chunk, idx, BACKTICK);
    var newline := FindByte(chunk, idx, NEWLINE);
    FoundFirst(chunk, idx, BACKTICK);
    FoundFirst(chunk, idx, NEWLINE);
    var inLine := if backtick.Some? && newline.Some? && backtick.value >= newline.value then None else backtick;
    special := PickMin(triple, inLine);
    fence := triple.Some? && triple == special;
    if newline.Some? { assert chunk[newline.value] == NEWLINE; }
  }

  /** The sigils of the plain text up to `end`, added to those before. */
  method ReportPlain(ghost state: FenceState, chunk: seq<Byte>, idx: nat, end: nat, before: seq<Hit>) returns (hits: seq<Hit>)
    requires idx < |chunk| && Reads(state, chunk, idx, Normal, before)
    requires idx <= end <= |chunk| && StaysPlain(chunk, idx, end) && (end == |chunk| || chunk[end] == BACKTICK)
    ensures hits == HitsBefore(state, chunk, end) && ModeAt(state, chunk, end) == Plain(NewlineIn(chunk, idx, end))
  {
    PlainJump(state, chunk, idx, end, before);
    var found := Captures(Slice(chunk, idx, end));
    hits := before + Shifted(found, idx);
  }

  method ScanNormal(ghost state: FenceState, chunk: seq<Byte>, idx: nat, before: seq<Hit>)
    returns (hits: seq<Hit>, out: FenceState, next: nat)
    requires Valid(chunk) && idx < |chunk| && Reads(state, chunk, idx, Normal, before)
    ensures next > idx && Reads(state, chunk, next, out, hits)
  {
    var special, fence := FindSpecial(chunk, idx);
    if special.None? {
      hits := ReportPlain(state, chunk, idx, |chunk|, before);
      PlainToTheEnd(state, chunk, hits);
      return hits, Normal, |chunk|;
    }
    hits := ReportPlain(state, chunk, idx, special.value, before);
    out, next := EnterCode(state, chunk, special.value, fence, hits);
  }

  /** Behind the backticks that open a fence, or the one that opens an inline span. */
  method EnterCode(ghost state: FenceState, chunk: seq<Byte>, end: nat, fence: bool, ghost hits: seq<Hit>)
    returns (out: FenceState, next: nat)
    requires Valid(chunk) && end < |chunk| && chunk[end] == BACKTICK && hits == HitsBefore(state, chunk, end)
    requires fence <==> FenceAt(chunk, end)
    requires ModeAt(state, chunk, end).Plain? && (!fence ==> ModeAt(state, chunk, end) == Plain(false))
    ensures next > end && Reads(state, chunk, next, out, hits)
  {
    if fence {
      IntoFence(state, chunk, end, hits);
      return InFenced, end + 3;
    }
    IntoInline(state, chunk, end, hits);
    return InInline, end + 1;
  }

  /** Skips to behind the closing fence; None when the fence stays open. */
  method SkipFence(ghost state: FenceState, chunk: seq<Byte>, idx: nat, ghost hits: seq<Hit>) returns (next: Option<nat>)
    requires Valid(chunk) && idx < |chunk| && Reads(state, chunk, idx, InFenced, hits)
    ensures next.Some? ==> next.value > idx && Reads(state, chunk, next.value, Normal, hits)
    ensures next.None? ==> Reads(state, chunk, |chunk|, InFenced, hits)
  {
    var close := FindAtLineStart(chunk, idx);
    if close.None? {
      CodeToTheEnd(state, chunk, idx, InFenced, hits);
      return None;
    }
    OutOfFence(state, chunk, idx, close.value, hits);
    return Some(close.value + 3);
  }

  /** Skips to behind the closing backtick or the end of the line; None when neither comes. */
  method SkipInline(ghost state: FenceState, chunk: seq<Byte>, idx: nat, ghost hits: seq<Hit>) returns (next: Option<nat>)
    requires Valid(chunk) && idx < |chunk| && Reads(state, chunk, idx, InInline, hits)
    ensures next.Some? ==> next.value > idx && Reads(state, chunk, next.value, Normal, hits)
    ensures next.None? ==> Reads(state, chunk, |chunk|, InInline, hits)
  {
    var backtick := FindByte(chunk, idx, BACKTICK);
    var newline := FindByte(chunk, idx, NEWLINE);
    FoundFirst(chunk, idx, BACKTICK);
    FoundFirst(chunk, idx, NEWLINE);
    if backtick.None? && newline.None? {
      CodeToTheEnd(state, chunk, idx, InInline, hits);
      return None;
    }
    var close := PickMin(backtick, newline).value;
    OutOfInline(state, chunk, idx, close, hits);
    return Some(close + 1);
  }

  /** The scanner: on every chunk it ends in the automaton's state and reports exactly its hits. */
  method FindSigilsOutsideCode(state: FenceState, chunk: seq<Byte>) returns (hits: seq<Hit>, out: FenceState)
    requires Valid(chunk)
    ensures out == StateOf(ModeAt(state, chunk, |chunk|))
    ensures hits == HitsBefore(state, chunk, |chunk|)
  {
    hits, out := [], state;
    var idx := 0;
    while idx < |chunk|
      invariant Reads(state, chunk, idx, out, hits)
      decreases |chunk| - idx
    {
      match out {
        case Normal => hits, out, idx := ScanNormal(state, chunk, idx, hits);
        case InFenced =>
          var next := SkipFence(state, chunk, idx, hits);
          if next.None? { return; }
          out, idx := Normal, next.value;
        case InInline =>
          var next := SkipInline(state, chunk, idx, hits);
          if next.None? { return; }
          out, idx := Normal, next.value;
      }
    }
  }

  // ----- what the automaton means -----

  /** Line-start triple backticks from `from` to before `i`. */
  function Toggles(s: seq<Byte>, from: nat, i: nat): nat {
    if i <= from then 0 else Toggles(s, from, i - 1) + if FenceAt(s, i - 1) then 1 else 0
  }

  /** A chunk that starts inside an inline span cannot open a fence with its first byte. */
  function FirstToggle(state: FenceState): nat {
    if state == InInline then 1 else 0
  }

  /** Fenced regions, by counting alone: the toggles so far flip the state the chunk began with. */
  predicate InFence(state: FenceState, s: seq<Byte>, i: nat) {
    (state == InFenced) != (Toggles(s, FirstToggle(state), i) % 2 == 1)
  }

  lemma ClosingOnBackticks(state: FenceState, s: seq<Byte>, i: nat)
    requires i <= |s| && ModeAt(state, s, i).Closing?
    ensures var left := ModeAt(state, s, i).left;
            (left == 2 && i >= 1 && FenceAt(s, i - 1)) || (left == 1 && i >= 2 && FenceAt(s, i - 2))
  {
    if i >= 1 && ModeAt(state, s, i - 1).Closing? { ClosingOnBackticks(state, s, i - 1); }
  }

  /** A fence is only ever seen from plain text or from inside one. */
  lemma FenceIsSeen(state: FenceState, s: seq<Byte>, i: nat)
    requires FenceAt(s, i) && i >= FirstToggle(state)
    ensures ModeAt(state, s, i).Plain? || ModeAt(state, s, i).Fenced?
  {
    if i > 0 {
      if ModeAt(state, s, i).Closing? { ClosingOnBackticks(state, s, i); }
      if ModeAt(state, s, i - 1).Closing? { ClosingOnBackticks(state, s, i - 1); }
    }
  }

  /** The automaton is inside a fence exactly when the toggles say so. */
  lemma {:induction false} FenceParity(state: FenceState, s: seq<Byte>, i: nat)
    requires i <= |s|
    ensures ModeAt(state, s, i).Fenced? <==> InFence(state, s, i)
  {
    if i > 0 {
      FenceParity(state, s, i - 1);
      if FenceAt(s, i - 1) && i - 1 >= FirstToggle(state) { FenceIsSeen(state, s, i - 1); }
    }
  }

  /** The scan ends inside a fence exactly when the line-start toggles say so. */
  lemma EndsInFence(state: FenceState, s: seq<Byte>)
    ensures StateOf(ModeAt(state, s, |s|)) == InFenced <==> InFence(state, s, |s|)
  {
    FenceParity(state, s, |s|);
  }

  predicate IsName(name: seq<Byte>) {
    1 <= |name| <= MAX_NAME && IsLetter(name[0]) && forall k :: 0 <= k < |name| ==> IsNameByte(name[k])
  }

  /** A report is a dollar sign, then the longest name there is. */
  predicate IsReport(s: seq<Byte>, h: Hit) {
    var end := h.offset + 1 + |h.name|;
    end <= |s| && s[h.offset] == DOLLAR && s[h.offset + 1..end] == h.name && IsName(h.name) &&
    (|h.name| == MAX_NAME || end == |s| || !IsNameByte(s[end]))
  }

  lemma HitIsReport(s: seq<Byte>, i: nat)
    requires SigilAt(s, i)
    ensures IsReport(s, HitAt(s, i))
  {
    NameIsGreedy(s, i + 1, MAX_NAME);
    PartIsSlice(s, i + 1, NameLength(s, i + 1, MAX_NAME));
  }

  predicate IsSound(state: FenceState, s: seq<Byte>, i: nat, h: Hit) {
    h.offset < i && IsReport(s, h) && !InFence(state, s, h.offset)
  }

  predicate AllSound(state: FenceState, s: seq<Byte>, i: nat, hits: seq<Hit>) {
    forall j :: 0 <= j < |hits| ==> IsSound(state, s, i, hits[j])
  }

  predicate Disjoint(hits: seq<Hit>) {
    forall j, k :: 0 <= j < k < |hits| ==> hits[j].offset + |hits[j].name| < hits[k].offset
  }

  lemma HitIsSound(state: FenceState, s: seq<Byte>, i: nat)
    requires SigilAt(s, i) && ModeAt(state, s, i).Plain?
    ensures IsSound(state, s, i + 1, HitAt(s, i))
  {
    HitIsReport(s, i);
    FenceParity(state, s, i);
  }

  lemma SoundStays(state: FenceState, s: seq<Byte>, i: nat, hits: seq<Hit>)
    requires AllSound(state, s, i, hits)
    ensures AllSound(state, s, i + 1, hits)
  {
    forall j | 0 <= j < |hits| ensures IsSound(state, s, i + 1, hits[j]) {
      assert IsSound(state, s, i, hits[j]);
    }
  }

  lemma SoundSnoc(state: FenceState, s: seq<Byte>, i: nat, hits: seq<Hit>, h: Hit)
    requires AllSound(state, s, i, hits) && Disjoint(hits) && h.offset == i && IsSound(state, s, i + 1, h)
    ensures AllSound(state, s, i + 1, hits + [h]) && Disjoint(hits + [h])
  {
    forall j | 0 <= j < |hits| ensures hits[j].offset + |hits[j].name| < i {
      assert IsSound(state, s, i, hits[j]);
      NotInName(s, hits[j], i);
    }
    forall j | 0 <= j < |hits + [h]| ensures IsSound(state, s, i + 1, (hits + [h])[j]) {
      if j < |hits| { assert IsSound(state, s, i, hits[j]); }
    }
  }

  lemma NextIsSound(state: FenceState, s: seq<Byte>, i: nat, hits: seq<Hit>)
    requires i < |s| && AllSound(state, s, i, hits) && Disjoint(hits)
    ensures var next := if SigilAt(s, i) && ModeAt(state, s, i).Plain? then hits + [HitAt(s, i)] else hits;
            AllSound(state, s, i + 1, next) && Disjoint(next)
  {
    if SigilAt(s, i) && ModeAt(state, s, i).Plain? {
      HitIsSound(state, s, i);
      SoundSnoc(state, s, i, hits, HitAt(s, i));
    } else {
      SoundStays(state, s, i, hits);
    }
  }

  lemma StaysSound(state: FenceState, s: seq<Byte>, i: nat)
    requires i < |s| && AllSound(state, s, i, HitsBefore(state, s, i)) && Disjoint(HitsBefore(state, s, i))
    ensures AllSound(state, s, i + 1, HitsBefore(state, s, i + 1)) && Disjoint(HitsBefore(state, s, i + 1))
  {
    HitsSnoc(state, s, i);
    NextIsSound(state, s, i, HitsBefore(state, s, i));
  }

  /** Every report is genuine and outside every fence; reports come in order and do not overlap. */
  lemma {:induction false} ReportsAreSound(state: FenceState, s: seq<Byte>, i: nat)
    requires i <= |s|
    ensures AllSound(state, s, i, HitsBefore(state, s, i)) && Disjoint(HitsBefore(state, s, i))
  {
    if i > 0 {
      ReportsAreSound(state, s, i - 1);
      StaysSound(state, s, i - 1);
    }
  }

  lemma NotInName(s: seq<Byte>, h: Hit, i: nat)
    requires IsReport(s, h) && h.offset < i < |s| && s[i] == DOLLAR
    ensures h.offset + |h.name| < i
  {
    var first := h.offset + 1;
    forall k | first <= k < first + |h.name| ensures IsNameByte(s[k]) {
      assert s[first..first + |h.name|][k - first] == s[k];
    }
  }

  predicate Reported(hits: seq<Hit>, p: nat) {
    exists j :: 0 <= j < |hits| && hits[j].offset == p
  }

  lemma ReportedSnoc(hits: seq<Hit>, h: Hit, p: nat)
    ensures Reported(hits + [h], p) <==> Reported(hits, p) || h.offset == p
  {
    assert (hits + [h])[|hits|] == h;
    if Reported(hits, p) {
      var j :| 0 <= j < |hits| && hits[j].offset == p;
      assert (hits + [h])[j].offset == p;
    }
  }

  /** Nothing in plain text is missed, and nothing else is reported. */
  lemma {:induction false} ReportsAreComplete(state: FenceState, s: seq<Byte>, i: nat, p: nat)
    requires i <= |s|
    ensures Reported(HitsBefore(state, s, i), p) <==> p < i && SigilAt(s, p) && ModeAt(state, s, p).Plain?
  {
    if i > 0 {
      ReportsAreComplete(state, s, i - 1, p);
      HitsSnoc(state, s, i - 1);
      if SigilAt(s, i - 1) { ReportedSnoc(HitsBefore(state, s, i - 1), HitAt(s, i - 1), p); }
    }
  }

  // ----- inline code -----

  /** Neither a backtick nor a line's end from `from` up to `i`. */
  predicate Unbroken(s: seq<Byte>, from: nat, i: nat)
    requires i <= |s|
  {
    forall k :: from <= k < i ==> s[k] != BACKTICK && s[k] != NEWLINE
  }

  /** A single backtick in text that has not gone quiet opens an inline span. */
  predicate OpensSpan(state: FenceState, s: seq<Byte>, o: nat)
    requires o < |s|
  {
    s[o] == BACKTICK && !FenceAt(s, o) && ModeAt(state, s, o) == Plain(false)
  }

  /** Inside an inline span: since its backtick, or since the chunk began in one, there was no backtick and no line's end. */
  lemma {:induction false} InlineMeans(state: FenceState, s: seq<Byte>, i: nat)
    requires i <= |s|
    ensures ModeAt(state, s, i).Inline? <==>
            (state == InInline && Unbroken(s, 0, i)) ||
            exists o: nat :: o < i && OpensSpan(state, s, o) && Unbroken(s, o + 1, i)
  {
    if i > 0 {
      var b := s[i - 1];
      InlineMeans(state, s, i - 1);
      forall o: nat | o < i - 1 && OpensSpan(state, s, o)
        ensures Unbroken(s, o + 1, i) <==> Unbroken(s, o + 1, i - 1) && b != BACKTICK && b != NEWLINE {}
      if OpensSpan(state, s, i - 1) { assert Unbroken(s, i, i); }
    }
  }

  /** Quiet text: a line has ended in plain text, and since then no fence has opened. */
  lemma {:induction false} QuietMeans(state: FenceState, s: seq<Byte>, i: nat)
    requires i <= |s|
    ensures ModeAt(state, s, i) == Plain(true) <==>
            exists n: nat :: n < i && s[n] == NEWLINE && ModeAt(state, s, n).Plain? && forall k :: n < k < i ==> !FenceAt(s, k)
  {
    if i > 0 {
      QuietMeans(state, s, i - 1);
    }
  }

  // ----- streaming -----

  /** The mode a chunk ends in. */
  function Ending(state: FenceState, a: seq<Byte>): Mode {
    ModeAt(state, a, |a|)
  }

  predicate EndsLine(a: seq<Byte>) {
    a != [] && a[|a| - 1] == NEWLINE
  }

  predicate LineStart(s: seq<Byte>, i: nat)
    requires i <= |s|
  {
    i == 0 || s[i - 1] == NEWLINE
  }

  /** The last `n` bytes are backticks and begin a line. */
  predicate EndsInTicks(a: seq<Byte>, n: nat) {
    n <= |a| && LineStart(a, |a| - n) && forall k :: |a| - n <= k < |a| ==> a[k] == BACKTICK
  }

  /**
   A chunk that may be cut off here, whatever follows: nothing read yet, or a line read to
   its end without going quiet, or an inline span that is no fence begun.
   */
  predicate SafeCut(state: FenceState, a: seq<Byte>) {
    a == [] || (EndsLine(a) && Ending(state, a) != Plain(true)) ||
    (Ending(state, a).Inline? && !EndsInTicks(a, 1))
  }

  /** Two chunks end in the state, and report the sigils, of the one chunk they make up. */
  predicate Agrees(state: FenceState, a: seq<Byte>, b: seq<Byte>) {
    var mid := StateOf(Ending(state, a));
    StateOf(Ending(state, a + b)) == StateOf(Ending(mid, b)) &&
    HitsBefore(state, a + b, |a + b|) == HitsBefore(state, a, |a|) + Shifted(HitsBefore(mid, b, |b|), |a|)
  }

  /** `s` is `a` followed by `b`. */
  predicate Chunks(s: seq<Byte>, a: seq<Byte>, b: seq<Byte>) {
    |a| + |b| == |s| && (forall i {:trigger a[i]} :: 0 <= i < |a| ==> a[i] == s[i]) &&
    (forall i {:trigger b[i]} :: 0 <= i < |b| ==> b[i] == s[|a| + i])
  }

  lemma FenceInside(s: seq<Byte>, a: seq<Byte>, b: seq<Byte>, i: nat)
    requires Chunks(s, a, b) && i + 2 < |a|
    ensures FenceAt(a, i) <==> FenceAt(s, i)
  {
    assert a[i] == s[i] && a[i + 1] == s[i + 1] && a[i + 2] == s[i + 2];
    if i > 0 { assert a[i - 1] == s[i - 1]; }
  }

  /** A fence that the first chunk alone does not show needs its bytes up to the cut. */
  lemma NewFenceStraddles(s: seq<Byte>, a: seq<Byte>, b: seq<Byte>, i: nat)
    requires Chunks(s, a, b) && i < |a| <= i + 2 && FenceAt(s, i)
    ensures EndsInTicks(a, |a| - i) && a[|a| - 1] == BACKTICK
  {
    assert a[i] == s[i];
    if i > 0 { assert a[i - 1] == s[i - 1]; }
    if i + 1 < |a| { assert a[i + 1] == s[i + 1]; }
  }

  /** What two backticks at a line start do to the mode when they are no fence. */
  lemma TwoTicks(state: FenceState, a: seq<Byte>)
    requires EndsInTicks(a, 2)
    ensures var m := ModeAt(state, a, |a| - 2);
            Ending(state, a) == (match m
              case Plain(_) => m
              case Fenced => m
              case Inline => Inline
              case Closing(_) => Ending(state, a))
  {
    var i := |a| - 2;
    assert !FenceAt(a, i) && !FenceAt(a, i + 1);
    assert ModeAt(state, a, i + 1) == StepByte(ModeAt(state, a, i), a, i);
  }

  /** What one does. */
  lemma OneTick(state: FenceState, a: seq<Byte>)
    requires EndsInTicks(a, 1)
    ensures var m := ModeAt(state, a, |a| - 1);
            Ending(state, a) == (match m
              case Plain(quiet) => if quiet then m else Inline
              case Fenced => m
              case Inline => Plain(false)
              case Closing(_) => Ending(state, a))
  {
    assert !FenceAt(a, |a| - 1);
  }

  /** At a line start the automaton is not within a closing fence, and in a span only at the start of the chunk. */
  lemma ModeAtLineStart(state: FenceState, a: seq<Byte>, i: nat)
    requires i <= |a| && LineStart(a, i)
    ensures var m := ModeAt(state, a, i); m.Plain? || m.Fenced? || (m.Inline? && i == 0)
  {
    if i > 0 && ModeAt(state, a, i - 1).Closing? { ClosingOnBackticks(state, a, i - 1); }
  }

  /** Before a safe cut the automaton takes the same steps in both readings. */
  lemma StepBeforeCut(state: FenceState, s: seq<Byte>, a: seq<Byte>, b: seq<Byte>, i: nat)
    requires Chunks(s, a, b) && SafeCut(state, a) && i < |a|
    ensures StepByte(ModeAt(state, a, i), s, i) == StepByte(ModeAt(state, a, i), a, i)
  {
    assert a[i] == s[i];
    if i + 2 < |a| {
      FenceInside(s, a, b, i);
    } else if FenceAt(s, i) {
      NewFenceStraddles(s, a, b, i);
      ModeAtLineStart(state, a, i);
      if i + 1 == |a| { OneTick(state, a); } else { TwoTicks(state, a); }
    }
  }

  lemma {:induction false} ModeBeforeCut(state: FenceState, s: seq<Byte>, a: seq<Byte>, b: seq<Byte>, i: nat)
    requires Chunks(s, a, b) && SafeCut(state, a) && i <= |a|
    ensures ModeAt(state, a, i) == ModeAt(state, s, i)
  {
    if i > 0 {
      ModeBeforeCut(state, s, a, b, i - 1);
      StepBeforeCut(state, s, a, b, i - 1);
    }
  }

  lemma FenceBehindCut(s: seq<Byte>, a: seq<Byte>, b: seq<Byte>, i: nat)
    requires Chunks(s, a, b) && i < |b| && (i == 0 ==> a == [] || EndsLine(a))
    ensures FenceAt(b, i) <==> FenceAt(s, |a| + i)
  {
    assert b[i] == s[|a| + i];
    if i > 0 { assert b[i - 1] == s[|a| + i - 1]; } else if a != [] { assert a[|a| - 1] == s[|a| - 1]; }
    if i + 1 < |b| { assert b[i + 1] == s[|a| + i + 1]; }
    if i + 2 < |b| { assert b[i + 2] == s[|a| + i + 2]; }
  }

  /** A safe cut leaves no more than the state to remember. */
  lemma EndingIsState(state: FenceState, a: seq<Byte>)
    requires SafeCut(state, a)
    ensures ModeOf(StateOf(Ending(state, a))) == Ending(state, a)
  {
    if EndsLine(a) {
      assert LineStart(a, |a|);
      ModeAtLineStart(state, a, |a|);
    }
  }

  lemma StepAcrossCut(state: FenceState, s: seq<Byte>, a: seq<Byte>, b: seq<Byte>, i: nat, m: Mode)
    requires Chunks(s, a, b) && SafeCut(state, a) && i < |b| && (i == 0 ==> m == Ending(state, a))
    ensures StepByte(m, b, i) == StepByte(m, s, |a| + i)
  {
    assert b[i] == s[|a| + i];
    if i > 0 || a == [] || EndsLine(a) { FenceBehindCut(s, a, b, i); }
  }

  lemma {:induction false} ModeAcrossCut(state: FenceState, s: seq<Byte>, a: seq<Byte>, b: seq<Byte>, i: nat)
    requires Chunks(s, a, b) && SafeCut(state, a) && i <= |b|
    ensures ModeAt(StateOf(Ending(state, a)), b, i) == ModeAt(state, s, |a| + i)
  {
    if i == 0 {
      EndingIsState(state, a);
      ModeBeforeCut(state, s, a, b, |a|);
    } else {
      ModeAcrossCut(state, s, a, b, i - 1);
      EndingIsState(state, a);
      StepAcrossCut(state, s, a, b, i - 1, ModeAt(StateOf(Ending(state, a)), b, i - 1));
    }
  }

  /** Plain text stays plain over name bytes. */
  lemma {:induction false} NamesStayPlain(state: FenceState, a: seq<Byte>, i: nat, end: nat)
    requires i <= end <= |a| && ModeAt(state, a, i).Plain? && forall k :: i <= k < end ==> IsNameByte(a[k])
    ensures ModeAt(state, a, end).Plain?
    decreases end
  {
    if end > i { NamesStayPlain(state, a, i, end - 1); }
  }

  lemma {:induction false} NameBeforeCut(s: seq<Byte>, a: seq<Byte>, b: seq<Byte>, i: nat, room: nat)
    requires Chunks(s, a, b) && i <= |a| && exists k :: i <= k < |a| && !IsNameByte(a[k])
    ensures NameLength(a, i, room) == NameLength(s, i, room)
    decreases room
  {
    assert i < |a| && a[i] == s[i];
    if room > 0 && IsNameByte(a[i]) { NameBeforeCut(s, a, b, i + 1, room - 1); }
  }

  /** Before a safe cut no name runs into it, and no dollar sign stands right at it in plain text. */
  lemma NameEndsBeforeCut(state: FenceState, a: seq<Byte>, i: nat)
    requires SafeCut(state, a) && i < |a| && a[i] == DOLLAR && ModeAt(state, a, i).Plain?
    ensures i + 1 < |a| && exists k :: i + 1 <= k < |a| && !IsNameByte(a[k])
  {
    if EndsLine(a) {
      assert !IsNameByte(a[|a| - 1]);
    } else {
      assert ModeAt(state, a, i + 1).Plain?;
      if forall k :: i + 1 <= k < |a| ==> IsNameByte(a[k]) { NamesStayPlain(state, a, i + 1, |a|); }
    }
  }

  lemma {:induction false} SamePartBefore(s: seq<Byte>, a: seq<Byte>, b: seq<Byte>, i: nat, len: nat)
    requires Chunks(s, a, b) && i + len <= |a|
    ensures Part(a, i, len) == Part(s, i, len)
  {
    if len > 0 { SamePartBefore(s, a, b, i, len - 1); }
  }

  function NextHit(state: FenceState, s: seq<Byte>, i: nat): Option<Hit>
    requires i < |s|
  {
    if SigilAt(s, i) && ModeAt(state, s, i).Plain? then Some(HitAt(s, i)) else None
  }

  lemma HitsNext(state: FenceState, s: seq<Byte>, i: nat, h: Option<Hit>)
    requires 0 < i <= |s| && h == NextHit(state, s, i - 1)
    ensures HitsBefore(state, s, i) == OneMore(HitsBefore(state, s, i - 1), h)
  {
  }

  lemma SameHitBefore(state: FenceState, s: seq<Byte>, a: seq<Byte>, b: seq<Byte>, i: nat)
    requires Chunks(s, a, b) && SafeCut(state, a) && i < |a|
    ensures NextHit(state, a, i) == NextHit(state, s, i)
  {
    ModeBeforeCut(state, s, a, b, i);
    assert a[i] == s[i];
    if a[i] == DOLLAR && ModeAt(state, a, i).Plain? {
      NameEndsBeforeCut(state, a, i);
      assert a[i + 1] == s[i + 1];
      NameBeforeCut(s, a, b, i + 1, MAX_NAME);
      SamePartBefore(s, a, b, i + 1, NameLength(a, i + 1, MAX_NAME));
    }
  }

  lemma {:induction false} HitsBeforeCut(state: FenceState, s: seq<Byte>, a: seq<Byte>, b: seq<Byte>, i: nat)
    requires Chunks(s, a, b) && SafeCut(state, a) && i <= |a|
    ensures HitsBefore(state, a, i) == HitsBefore(state, s, i)
  {
    if i > 0 {
      HitsBeforeCut(state, s, a, b, i - 1);
      SameHitBefore(state, s, a, b, i - 1);
      HitsNext(state, s, i, NextHit(state, s, i - 1));
      HitsNext(state, a, i, NextHit(state, a, i - 1));
    }
  }

  lemma {:induction false} NameAfterCut(s: seq<Byte>, a: seq<Byte>, b: seq<Byte>, i: nat, room: nat)
    requires Chunks(s, a, b) && i <= |b|
    ensures NameLength(b, i, room) == NameLength(s, |a| + i, room)
    decreases room
  {
    if room > 0 && i < |b| && IsNameByte(b[i]) { NameAfterCut(s, a, b, i + 1, room - 1); }
  }

  lemma {:induction false} SamePartAfter(s: seq<Byte>, a: seq<Byte>, b: seq<Byte>, i: nat, len: nat)
    requires Chunks(s, a, b) && i + len <= |b|
    ensures Part(b, i, len) == Part(s, |a| + i, len)
  {
    if len > 0 { SamePartAfter(s, a, b, i, len - 1); }
  }

  lemma HitAfterCut(s: seq<Byte>, a: seq<Byte>, b: seq<Byte>, i: nat)
    requires Chunks(s, a, b) && i < |b|
    ensures SigilAt(b, i) <==> SigilAt(s, |a| + i)
    ensures SigilAt(b, i) ==> HitAt(s, |a| + i) == Hit(HitAt(b, i).name, |a| + i)
  {
    if SigilAt(b, i) {
      NameAfterCut(s, a, b, i + 1, MAX_NAME);
      SamePartAfter(s, a, b, i + 1, NameLength(b, i + 1, MAX_NAME));
    }
  }

  lemma SameHitAfter(state: FenceState, s: seq<Byte>, a: seq<Byte>, b: seq<Byte>, i: nat)
    requires Chunks(s, a, b) && SafeCut(state, a) && i < |b|
    ensures NextHit(state, s, |a| + i) == Moved(NextHit(StateOf(Ending(state, a)), b, i), |a|)
  {
    ModeAcrossCut(state, s, a, b, i);
    HitAfterCut(s, a, b, i);
  }

  function OneMore(hits: seq<Hit>, h: Option<Hit>): seq<Hit> {
    if h.None? then hits else hits + [h.value]
  }

  function Moved(h: Option<Hit>, n: nat): Option<Hit> {
    if h.None? then None else Some(Hit(h.value.name, n + h.value.offset))
  }

  /** One more step on both sides: the same sigil or none. */
  lemma NextHitAcross(before: seq<Hit>, found: seq<Hit>, n: nat, h: Option<Hit>, head: seq<Hit>)
    requires before == head + Shifted(found, n)
    ensures OneMore(before, Moved(h, n)) == head + Shifted(OneMore(found, h), n)
  {
    if h.Some? { MovedSnoc(before, found, n, h.value, Hit(h.value.name, n + h.value.offset), head); }
  }

  lemma MovedSnoc(before: seq<Hit>, found: seq<Hit>, n: nat, h: Hit, moved: Hit, head: seq<Hit>)
    requires before == head + Shifted(found, n) && moved == Hit(h.name, n + h.offset)
    ensures before + [moved] == head + Shifted(found + [h], n)
  {
    PlainSnoc(head, found, h, n);
  }

  /** The reader of the second chunk reports at `k` what the reader of the whole reports there. */
  predicate SameNext(state: FenceState, s: seq<Byte>, mid: FenceState, b: seq<Byte>, n: nat, k: nat)
    requires k < |b| && n + |b| <= |s|
  {
    NextHit(state, s, n + k) == Moved(NextHit(mid, b, k), n)
  }

  /** From byte `i - 1` of the second chunk, byte `m - 1` of the whole, to the next. */
  lemma NextFollows(state: FenceState, s: seq<Byte>, mid: FenceState, b: seq<Byte>, n: nat, m: nat, i: nat, head: seq<Hit>)
    requires 0 < i <= |b| && n + |b| <= |s| && m == n + i && SameNext(state, s, mid, b, n, i - 1)
    requires HitsBefore(state, s, m - 1) == head + Shifted(HitsBefore(mid, b, i - 1), n)
    ensures HitsBefore(state, s, m) == head + Shifted(HitsBefore(mid, b, i), n)
  {
    HitsNext(state, s, m, Moved(NextHit(mid, b, i - 1), n));
    HitsNext(mid, b, i, NextHit(mid, b, i - 1));
    NextHitAcross(HitsBefore(state, s, m - 1), HitsBefore(mid, b, i - 1), n, NextHit(mid, b, i - 1), head);
  }

  lemma {:induction false} HitsFollow(state: FenceState, s: seq<Byte>, mid: FenceState, b: seq<Byte>, n: nat, m: nat, i: nat,
                                      head: seq<Hit>)
    requires n + |b| <= |s| && i <= |b| && m == n + i && forall k :: 0 <= k < |b| ==> SameNext(state, s, mid, b, n, k)
    requires HitsBefore(state, s, n) == head
    ensures HitsBefore(state, s, m) == head + Shifted(HitsBefore(mid, b, i), n)
  {
    if i == 0 {
      assert head + [] == head;
    } else {
      HitsFollow(state, s, mid, b, n, m - 1, i - 1, head);
      NextFollows(state, s, mid, b, n, m, i, head);
    }
  }

  /** At a safe cut, the sigils of the two chunks together are the sigils of the one. */
  lemma StreamingHits(state: FenceState, s: seq<Byte>, a: seq<Byte>, b: seq<Byte>)
    requires Chunks(s, a, b) && SafeCut(state, a)
    ensures HitsBefore(state, s, |a| + |b|) ==
            HitsBefore(state, a, |a|) + Shifted(HitsBefore(StateOf(Ending(state, a)), b, |b|), |a|)
  {
    HitsBeforeCut(state, s, a, b, |a|);
    forall k | 0 <= k < |b| ensures SameNext(state, s, StateOf(Ending(state, a)), b, |a|, k) {
      SameHitAfter(state, s, a, b, k);
    }
    HitsFollow(state, s, StateOf(Ending(state, a)), b, |a|, |a| + |b|, |b|, HitsBefore(state, a, |a|));
  }

  lemma SafeCutAgrees(state: FenceState, a: seq<Byte>, b: seq<Byte>)
    requires SafeCut(state, a)
    ensures Agrees(state, a, b)
  {
    assert Chunks(a + b, a, b);
    ModeAcrossCut(state, a + b, a, b, |b|);
    StreamingHits(state, a + b, a, b);
  }

  // ----- why every other cut matters -----

  const TICK: seq<Byte> := [BACKTICK]
  const TICKS: seq<Byte> := [BACKTICK, BACKTICK, BACKTICK]

  lemma TicksAreValid()
    ensures Valid(TICK) && Valid(TICKS)
  {
    assert TICKS[1..][1..] == TICK && TICK[1..] == [];
    assert Valid(TICK);
    assert Valid(TICKS[1..]);
  }

  /** Where no straddling fence begins, the first chunk is read as if alone. */
  lemma {:induction false} ReadsAlone(state: FenceState, s: seq<Byte>, a: seq<Byte>, b: seq<Byte>, i: nat)
    requires Chunks(s, a, b) && i <= |a|
    requires forall k :: 0 <= k < i && FenceAt(s, k) && !FenceAt(a, k) ==> ModeAt(state, a, k).Inline?
    ensures ModeAt(state, s, i) == ModeAt(state, a, i)
  {
    if i > 0 {
      ReadsAlone(state, s, a, b, i - 1);
      assert a[i - 1] == s[i - 1];
      if i + 1 < |a| { FenceInside(s, a, b, i - 1); }
    }
  }

  lemma AloneBeforeTicks(state: FenceState, s: seq<Byte>, a: seq<Byte>, b: seq<Byte>, n: nat)
    requires Chunks(s, a, b) && n <= 2 && EndsInTicks(a, n)
    ensures ModeAt(state, s, |a| - n) == ModeAt(state, a, |a| - n)
  {
    forall k | 0 <= k < |a| - n ensures FenceAt(s, k) ==> FenceAt(a, k) {
      if k + 2 < |a| { FenceInside(s, a, b, k); } else if FenceAt(s, k) { NewFenceStraddles(s, a, b, k); }
    }
    ReadsAlone(state, s, a, b, |a| - n);
  }

  /** The modes of the second chunk alone. */
  lemma TickAlone(mid: FenceState)
    ensures Ending(mid, TICK) == (match mid case Normal => Inline case InFenced => Fenced case InInline => Plain(false))
  {
    assert !FenceAt(TICK, 0) && ModeAt(mid, TICK, 0) == ModeOf(mid);
  }

  lemma TicksAlone(mid: FenceState)
    ensures StateOf(Ending(mid, TICKS)) == (match mid case Normal => InFenced case InFenced => Normal case InInline => Normal)
  {
    assert FenceAt(TICKS, 0) && !FenceAt(TICKS, 1) && !FenceAt(TICKS, 2);
    assert ModeAt(mid, TICKS, 0) == ModeOf(mid);
    assert ModeAt(mid, TICKS, 1) == StepByte(ModeOf(mid), TICKS, 0);
    assert ModeAt(mid, TICKS, 2) == StepByte(ModeAt(mid, TICKS, 1), TICKS, 1);
    assert ModeAt(mid, TICKS, 3) == StepByte(ModeAt(mid, TICKS, 2), TICKS, 2);
  }

  /** A tick behind a quiet stretch: as one chunk it opens nothing. */
  lemma QuietCutMatters(state: FenceState, a: seq<Byte>)
    requires Ending(state, a) == Plain(true)
    ensures StateOf(Ending(state, a + TICK)) != InInline && StateOf(Ending(Normal, TICK)) == InInline
  {
    var s := a + TICK;
    assert Chunks(s, a, TICK) && s[|a|] == BACKTICK;
    TickAlone(Normal);
    if |a| >= 2 && FenceAt(s, |a| - 2) {
      NewFenceStraddles(s, a, TICK, |a| - 2);
      TwoTicks(state, a);
      AloneBeforeTicks(state, s, a, TICK, 2);
      ModeAtLineStart(state, a, |a| - 2);
      FenceOpens(state, s, |a| - 2);
    } else {
      TickIsNoFence(s, a);
      ReadsAlone(state, s, a, TICK, |a|);
    }
  }

  /** Unless it completes a fence, a single tick changes no fence before it. */
  lemma TickIsNoFence(s: seq<Byte>, a: seq<Byte>)
    requires s == a + TICK && !(|a| >= 2 && FenceAt(s, |a| - 2))
    ensures forall k :: 0 <= k <= |a| && FenceAt(s, k) ==> k < |a| && FenceAt(a, k)
  {
    assert Chunks(s, a, TICK);
    forall k | 0 <= k <= |a| && FenceAt(s, k) ensures k < |a| && FenceAt(a, k) {
      FenceInside(s, a, TICK, k);
    }
  }

  /** Mid-line, three ticks are a fence only for a reader that starts afresh. */
  lemma PlainCutMatters(state: FenceState, a: seq<Byte>)
    requires a != [] && !EndsLine(a) && Ending(state, a) == Plain(false)
    ensures !Agrees(state, a, TICK) || !Agrees(state, a, TICKS)
  {
    if EndsInTicks(a, 2) {
      var s := a + TICK;
      assert Chunks(s, a, TICK) && s[|a|] == BACKTICK;
      TwoTicks(state, a);
      AloneBeforeTicks(state, s, a, TICK, 2);
      ModeAtLineStart(state, a, |a| - 2);
      TicksMakeFence(s, a, TICK, 2);
      FenceOpens(state, s, |a| - 2);
      TickAlone(Normal);
    } else {
      PlainThenTicks(state, a);
      TicksAlone(Normal);
    }
  }

  /** Ticks at a line start and the ticks that follow make a fence. */
  lemma TicksMakeFence(s: seq<Byte>, a: seq<Byte>, b: seq<Byte>, n: nat)
    requires Chunks(s, a, b) && n <= 2 && EndsInTicks(a, n) && n + |b| >= 3
    requires forall k :: 0 <= k < |b| ==> b[k] == BACKTICK
    ensures FenceAt(s, |a| - n)
  {
    var i := |a| - n;
    if i > 0 { assert a[i - 1] == s[i - 1]; }
    forall k | i <= k < i + 3 ensures s[k] == BACKTICK {
      if k < |a| { assert a[k] == s[k]; } else { assert b[k - |a|] == s[k]; }
    }
  }

  lemma PlainThenTicks(state: FenceState, a: seq<Byte>)
    requires a != [] && !EndsLine(a) && Ending(state, a) == Plain(false) && !EndsInTicks(a, 2)
    ensures StateOf(Ending(state, a + TICKS)) == InInline
  {
    var s, n := a + TICKS, |a|;
    assert Chunks(s, a, TICKS);
    forall k | 0 <= k < n && FenceAt(s, k) && !FenceAt(a, k) ensures ModeAt(state, a, k).Inline? {
      if k + 2 < n { FenceInside(s, a, TICKS, k); } else { NewFenceStraddles(s, a, TICKS, k); }
      OneTick(state, a);
      ModeAtLineStart(state, a, k);
    }
    ReadsAlone(state, s, a, TICKS, n);
    MidLineTicks(state, s, n);
  }

  /** Three ticks in the middle of a line, read in plain text: open, close, open. */
  lemma MidLineTicks(state: FenceState, s: seq<Byte>, n: nat)
    requires |s| == n + 3 && n > 0 && s[n - 1] != NEWLINE && s[n] == s[n + 1] == s[n + 2] == BACKTICK
    requires ModeAt(state, s, n) == Plain(false)
    ensures StateOf(Ending(state, s)) == InInline
  {
    assert ModeAt(state, s, n + 1) == StepByte(Plain(false), s, n) == Inline;
    assert ModeAt(state, s, n + 2) == StepByte(Inline, s, n + 1) == Plain(false);
    assert ModeAt(state, s, n + 3) == StepByte(Plain(false), s, n + 2) == Inline;
  }

  /** Mid-line inside a fence, three ticks close it only for a reader that starts afresh. */
  lemma FencedCutMatters(state: FenceState, a: seq<Byte>)
    requires a != [] && !EndsLine(a) && Ending(state, a).Fenced?
    ensures !Agrees(state, a, TICK) || !Agrees(state, a, TICKS)
  {
    if EndsInTicks(a, 2) {
      var s := a + TICK;
      assert Chunks(s, a, TICK) && s[|a|] == BACKTICK;
      TwoTicks(state, a);
      AloneBeforeTicks(state, s, a, TICK, 2);
      ModeAtLineStart(state, a, |a| - 2);
      TicksMakeFence(s, a, TICK, 2);
      FenceCloses(state, s, |a| - 2);
      TickAlone(InFenced);
    } else if EndsInTicks(a, 1) {
      FencedTickThenTicks(state, a);
      TicksAlone(InFenced);
    } else {
      FencedThenTicks(state, a);
      TicksAlone(InFenced);
    }
  }

  lemma FencedTickThenTicks(state: FenceState, a: seq<Byte>)
    requires EndsInTicks(a, 1) && Ending(state, a).Fenced?
    ensures StateOf(Ending(state, a + TICKS)) == InInline
  {
    var s, n := a + TICKS, |a|;
    assert Chunks(s, a, TICKS) && s[n] == s[n + 1] == s[n + 2] == BACKTICK;
    OneTick(state, a);
    AloneBeforeTicks(state, s, a, TICKS, 1);
    ModeAtLineStart(state, a, n - 1);
    TicksMakeFence(s, a, TICKS, 1);
    FenceCloses(state, s, n - 1);
    assert ModeAt(state, s, n + 3) == StepByte(Plain(false), s, n + 2);
  }

  lemma FencedThenTicks(state: FenceState, a: seq<Byte>)
    requires a != [] && !EndsLine(a) && Ending(state, a).Fenced? && !EndsInTicks(a, 1) && !EndsInTicks(a, 2)
    ensures StateOf(Ending(state, a + TICKS)) == InFenced
  {
    var s, n := a + TICKS, |a|;
    assert Chunks(s, a, TICKS);
    forall k | 0 <= k < n ensures FenceAt(s, k) ==> FenceAt(a, k) {
      if k + 2 < n { FenceInside(s, a, TICKS, k); } else if FenceAt(s, k) { NewFenceStraddles(s, a, TICKS, k); }
    }
    ReadsAlone(state, s, a, TICKS, n);
    assert s[n] == s[n + 1] == s[n + 2] == BACKTICK;
    FencedRun(state, s, n, n + 3);
  }

  /** A tick at a line start, taken for a span, and two more behind the cut were to be a fence. */
  lemma TickCutMatters(state: FenceState, a: seq<Byte>)
    requires EndsInTicks(a, 1) && Ending(state, a).Inline?
    ensures !Agrees(state, a, TICKS)
  {
    var s, n := a + TICKS, |a|;
    assert Chunks(s, a, TICKS) && s[n] == s[n + 1] == s[n + 2] == BACKTICK;
    OneTick(state, a);
    AloneBeforeTicks(state, s, a, TICKS, 1);
    ModeAtLineStart(state, a, n - 1);
    TicksMakeFence(s, a, TICKS, 1);
    FenceOpens(state, s, n - 1);
    assert ModeAt(state, s, n + 3) == StepByte(Fenced, s, n + 2);
    TicksAlone(InInline);
  }

  lemma UnsafeCutMatters(state: FenceState, a: seq<Byte>)
    requires !SafeCut(state, a)
    ensures !Agrees(state, a, TICK) || !Agrees(state, a, TICKS)
  {
    match Ending(state, a)
    case Plain(quiet) => if quiet { QuietCutMatters(state, a); } else { PlainCutMatters(state, a); }
    case Fenced => FencedCutMatters(state, a);
    case Inline => TickCutMatters(state, a);
    case Closing(_) => ClosingOnBackticks(state, a, |a|);
  }

  /**
   Streaming: a chunk may be cut off at its end without changing what is reported, whatever
   text follows, exactly when the cut is safe; and a streaming caller, who has only the
   first chunk, can tell.
   */
  lemma CuttingIsSafe(state: FenceState, a: seq<Byte>)
    ensures SafeCut(state, a) <==> forall b :: Agrees(state, a, b)
    ensures SafeCut(state, a) <==> forall b :: Valid(b) ==> Agrees(state, a, b)
  {
    if SafeCut(state, a) {
      forall b ensures Agrees(state, a, b) { SafeCutAgrees(state, a, b); }
    } else {
      UnsafeCutMatters(state, a);
      TicksAreValid();
    }
  }

  /** After a newline a single backtick no longer opens a span, unless the chunk ends at the newline. */
  const QUIET: seq<Byte> := [NEWLINE, BACKTICK, DOLLAR, 0x78]

  lemma CuttingAtNewlineMatters()
    ensures HitsBefore(Normal, QUIET, 4) == [Hit([0x78], 2)]
    ensures StateOf(ModeAt(Normal, QUIET[..1], 1)) == Normal && HitsBefore(Normal, QUIET[1..], 3) == []
  {
    var m0, m1, m2 := Plain(false), Plain(true), Plain(true);
    assert ModeAt(Normal, QUIET, 0) == m0;
    assert ModeAt(Normal, QUIET, 1) == m1;
    assert ModeAt(Normal, QUIET, 2) == m2;
    assert HitsBefore(Normal, QUIET, 0) == [];
    assert HitsBefore(Normal, QUIET, 1) == [];
    assert HitsBefore(Normal, QUIET, 2) == [];
    assert NameLength(QUIET, 4, 63) == 0;
    assert NameLength(QUIET, 3, MAX_NAME) == 1;
    PartIsSlice(QUIET, 3, 1);
    assert QUIET[3..3 + 1] == [0x78];
    assert ModeAt(Normal, QUIET[..1], 0) == m0 && ModeAt(Normal, QUIET[..1], 1) == m1;
    assert HitsBefore(Normal, QUIET, 3) == [HitAt(QUIET, 2)];
    var b := QUIET[1..];
    assert b == [BACKTICK, DOLLAR, 0x78] && ModeAt(Normal, b, 0) == Plain(false);
    assert StepByte(Plain(false), b, 0) == Inline;
    assert ModeAt(Normal, b, 1) == Inline;
    assert ModeAt(Normal, b, 2) == Inline;
    assert HitsBefore(Normal, b, 1) == [];
    assert HitsBefore(Normal, b, 2) == [];
  }
}
