/** UTF-8 as Go reads it (section 4 of RFC 3629), and trimming at rune boundaries. */
module Utf8 {
  import opened Bytes

  predicate IsContinuation(b: Byte) {
    0x80 <= b <= 0xBF
  }

  /** What the second byte of a sequence may be, given its first. */
  predicate SecondFits(first: Byte, second: Byte) {
    if first == 0xE0 then 0xA0 <= second <= 0xBF
    else if first == 0xED then 0x80 <= second <= 0x9F
    else if first == 0xF0 then 0x90 <= second <= 0xBF
    else if first == 0xF4 then 0x80 <= second <= 0x8F
    else IsContinuation(second)
  }

  /** The length of the rune at the start, 0 when there is no valid one. */
  function Width(s: ByteString): (w: nat)
    requires s != []
    ensures w <= 4 && w <= |s|
    ensures w > 0 ==> !IsContinuation(s[0]) && forall i :: 1 <= i < w ==> IsContinuation(s[i])
  {
    if s[0] < 0x80 then 1
    else if 0xC2 <= s[0] <= 0xDF then
      if |s| >= 2 && SecondFits(s[0], s[1]) then 2 else 0
    else if 0xE0 <= s[0] <= 0xEF then
      if |s| >= 3 && SecondFits(s[0], s[1]) && IsContinuation(s[2]) then 3 else 0
    else if 0xF0 <= s[0] <= 0xF4 then
      if |s| >= 4 && SecondFits(s[0], s[1]) && IsContinuation(s[2]) && IsContinuation(s[3]) then 4 else 0
    else 0
  }

  predicate Valid(s: ByteString) {
    s == [] || (Width(s) > 0 && Valid(s[Width(s)..]))
  }

  // ---- Code points -------------------------------------------------------------------------

  /** A code point that UTF-8 may encode: any but the surrogates (section 3 of RFC 3629). */
  predicate IsScalar(c: int) {
    0 <= c < 0xD800 || 0xE000 <= c < 0x11_0000
  }

  /** All bits but the low six. */
  function High(c: nat): (h: nat)
    ensures 64 * h <= c < 64 * h + 64
  {
    c / 64
  }

  /** The continuation byte that holds the low six bits. */
  function Low(c: nat): (b: Byte)
    ensures b == 0x80 + c - 64 * High(c) && IsContinuation(b)
  {
    0x80 + c % 64
  }

  /** The encoding of section 3 of RFC 3629. */
  function Encode(c: int): ByteString
    requires IsScalar(c)
  {
    if c < 0x80 then [c]
    else if c < 0x800 then [0xC0 + High(c), Low(c)]
    else if c < 0x1_0000 then [0xE0 + High(High(c)), Low(High(c)), Low(c)]
    else [0xF0 + High(High(High(c))), Low(High(High(c))), Low(High(c)), Low(c)]
  }

  function Tail(high: int, b: Byte): int {
    64 * high + b - 0x80
  }

  /** The code point of the rune at the start. */
  function Decode(s: ByteString): int
    requires s != [] && Width(s) > 0
  {
    if Width(s) == 1 then s[0]
    else if Width(s) == 2 then Tail(s[0] - 0xC0, s[1])
    else if Width(s) == 3 then Tail(Tail(s[0] - 0xE0, s[1]), s[2])
    else Tail(Tail(Tail(s[0] - 0xF0, s[1]), s[2]), s[3])
  }

  /** Every code point has a rune, which is read back whatever follows it. */
  lemma EncodedIsRead(c: int, rest: ByteString)
    requires IsScalar(c)
    ensures var s := Encode(c) + rest; Width(s) == |Encode(c)| && Decode(s) == c
  {
  }

  /** And every rune is the one encoding of a code point: no overlong form, no surrogate, nothing beyond U+10FFFF. */
  lemma RunesAreEncodings(s: ByteString)
    requires s != [] && Width(s) > 0
    ensures IsScalar(Decode(s)) && Encode(Decode(s)) == s[..Width(s)]
  {
    hide Encode, IsScalar;
    if Width(s) == 1 {
      assert s[..1] == [s[0]];
      OneByte(s[0]);
    } else if Width(s) == 2 {
      assert s[..2] == [s[0], s[1]];
      TwoBytes(s[0], s[1]);
    } else if Width(s) == 3 {
      assert s[..3] == [s[0], s[1], s[2]];
      ThreeBytes(s[0], s[1], s[2]);
    } else {
      assert s[..4] == [s[0], s[1], s[2], s[3]];
      FourBytes(s[0], s[1], s[2], s[3]);
    }
  }

  lemma OneByte(a: Byte)
    requires a < 0x80
    ensures IsScalar(a) && Encode(a) == [a]
  {
  }

  lemma TwoBytes(a: Byte, b: Byte)
    requires 0xC2 <= a <= 0xDF && IsContinuation(b)
    ensures var c := Tail(a - 0xC0, b); IsScalar(c) && Encode(c) == [a, b]
  {
    hide High, Low;
    HighOfTail(a - 0xC0, b);
  }

  lemma ThreeBytes(a: Byte, b: Byte, d: Byte)
    requires 0xE0 <= a <= 0xEF && SecondFits(a, b) && IsContinuation(d)
    ensures var c := Tail(Tail(a - 0xE0, b), d); IsScalar(c) && Encode(c) == [a, b, d]
  {
    hide High, Low;
    var high := Tail(a - 0xE0, b);
    HighOfTail(a - 0xE0, b);
    HighOfTail(high, d);
    var c := Tail(high, d);
    assert 0x800 <= c < 0x1_0000;
  }

  lemma FourBytes(a: Byte, b: Byte, d: Byte, e: Byte)
    requires 0xF0 <= a <= 0xF4 && SecondFits(a, b) && IsContinuation(d) && IsContinuation(e)
    ensures var c := Tail(Tail(Tail(a - 0xF0, b), d), e); IsScalar(c) && Encode(c) == [a, b, d, e]
  {
    hide High, Low;
    var high := Tail(a - 0xF0, b);
    var middle := Tail(high, d);
    HighOfTail(a - 0xF0, b);
    HighOfTail(high, d);
    HighOfTail(middle, e);
    var c := Tail(middle, e);
    assert 0x1_0000 <= c < 0x11_0000;
  }

  lemma HighOfTail(high: int, b: Byte)
    requires high >= 0 && IsContinuation(b)
    ensures Tail(high, b) >= 0 && High(Tail(high, b)) == high && Low(Tail(high, b)) == b
  {
  }

  // ---- Slices of slices ------------------------------------------------------------------

  lemma DropDrop(s: ByteString, w: nat, k: nat)
    requires w <= k <= |s|
    ensures s[w..][k - w..] == s[k..]
  {
  }

  lemma TakeDrop(s: ByteString, w: nat, k: nat)
    requires w <= k <= |s|
    ensures s[..k][w..] == s[w..][..k - w] && s[..w] + s[w..][..k - w] == s[..k]
  {
  }

  lemma Regroup(a: ByteString, b: ByteString, c: ByteString)
    ensures a + (b + c) == (a + b) + c && [] + c == c
  {
  }

  // ---- Runes -----------------------------------------------------------------------------

  /** A rune is read the same way whatever follows it. */
  lemma WidthIsLocal(s: ByteString, t: ByteString)
    requires s != [] && Width(s) > 0
    ensures Width(s + t) == Width(s) && (s + t)[Width(s)..] == s[Width(s)..] + t
  {
  }

  // ---- Trimming the end ------------------------------------------------------------------

  /** What Go writes for a byte that starts no rune: U+FFFD. */
  const REPLACEMENT: ByteString := [0xEF, 0xBF, 0xBD]

  function Rune(s: ByteString): (r: ByteString)
    requires s != []
    ensures r != [] && Width(r) == |r|
  {
    if Width(s) > 0 then s[..Width(s)] else REPLACEMENT
  }

  function Stride(s: ByteString): (n: nat)
    requires s != []
    ensures 0 < n <= |s|
  {
    if Width(s) > 0 then Width(s) else 1
  }

  /** As many runes from the start as fit into the room. */
  function FittingRunes(s: ByteString, room: nat): ByteString
    decreases |s|
  {
    if s == [] || |Rune(s)| > room then [] else Rune(s) + FittingRunes(s[Stride(s)..], room - |Rune(s)|)
  }

  function TrimPrefix(text: ByteString, limit: nat): ByteString {
    if |text| <= limit then text else FittingRunes(text, limit)
  }

  method TrimTextPrefix(text: ByteString, limit: nat) returns (result: ByteString)
    ensures result == TrimPrefix(text, limit)
  {
    if |text| <= limit {
      return text;
    }
    hide Width, Rune, FittingRunes;
    result := [];
    var rest := text;
    Regroup([], [], FittingRunes(text, limit));
    while rest != []
      invariant |result| <= limit && FittingRunes(text, limit) == result + FittingRunes(rest, limit - |result|)
      decreases |rest|
    {
      FitFirst(rest, limit - |result|);
      if |result| + |Rune(rest)| > limit {
        return;
      }
      Regroup(result, Rune(rest), FittingRunes(rest[Stride(rest)..], limit - |result| - |Rune(rest)|));
      result := result + Rune(rest);
      rest := rest[Stride(rest)..];
    }
    NothingFits(limit - |result|);
  }

  lemma NothingFits(room: nat)
    ensures FittingRunes([], room) == []
  {
  }

  /** Whatever the bytes, what fits is valid UTF-8 within the room. */
  lemma {:induction false} FittingRunesAreValid(s: ByteString, room: nat)
    ensures Valid(FittingRunes(s, room)) && |FittingRunes(s, room)| <= room
    decreases |s|
  {
    hide Width, Rune, FittingRunes;
    if s == [] {
      NothingFits(room);
    } else {
      FitFirst(s, room);
      if |Rune(s)| <= room {
        var rest := FittingRunes(s[Stride(s)..], room - |Rune(s)|);
        FittingRunesAreValid(s[Stride(s)..], room - |Rune(s)|);
        WidthIsLocal(Rune(s), rest);
        assert Rune(s)[|Rune(s)|..] + rest == rest;
      }
    }
  }

  lemma ValidStart(s: ByteString)
    requires s != [] && Valid(s)
    ensures 0 < Width(s) <= 4 && Rune(s) == s[..Width(s)] && Stride(s) == Width(s) && Valid(s[Width(s)..])
  {
  }

  lemma FitFirst(s: ByteString, room: nat)
    requires s != []
    ensures FittingRunes(s, room) == if |Rune(s)| > room then [] else Rune(s) + FittingRunes(s[Stride(s)..], room - |Rune(s)|)
  {
    hide Width, Rune;
  }

  /** A valid prefix of valid UTF-8 starts with the same rune and continues the same way. */
  lemma PrefixStartsAlike(s: ByteString, other: nat)
    requires s != [] && Valid(s) && 0 < other <= |s| && Valid(s[..other])
    ensures Width(s) <= other && Valid(s[Width(s)..][..other - Width(s)])
  {
    hide Width, Valid;
    var prefix := s[..other];
    ValidStart(prefix);
    WidthIsLocal(prefix, s[other..]);
    assert prefix + s[other..] == s;
    TakeDrop(s, Width(s), other);
  }

  /** Of valid UTF-8 it keeps a prefix and stops at most 3 bytes short. */
  lemma {:induction false} FittingRunesIsPrefix(s: ByteString, room: nat)
    requires Valid(s)
    ensures var k := |FittingRunes(s, room)|;
            k <= |s| && FittingRunes(s, room) == s[..k] && (k == |s| || k + 3 >= room)
    decreases |s|
  {
    hide Width, Valid, Rune, Stride, FittingRunes;
    if s == [] {
      NothingFits(room);
    } else {
      ValidStart(s);
      var w := Width(s);
      FitFirst(s, room);
      if w <= room {
        FittingRunesIsPrefix(s[w..], room - w);
        TakeDrop(s, w, w + |FittingRunes(s[w..], room - w)|);
      }
    }
  }

  /** And the prefix is the longest valid one that fits. */
  lemma {:induction false} FittingRunesIsLongest(s: ByteString, room: nat, other: nat)
    requires Valid(s) && other <= |s| && other <= room && Valid(s[..other])
    ensures other <= |FittingRunes(s, room)|
    decreases |s|
  {
    hide Width, Valid, Rune, Stride, FittingRunes;
    if other > 0 {
      ValidStart(s);
      PrefixStartsAlike(s, other);
      FitFirst(s, room);
      FittingRunesIsLongest(s[Width(s)..], room - Width(s), other - Width(s));
    }
  }

  lemma TrimPrefixOfValid(text: ByteString, limit: nat, other: nat)
    requires Valid(text)
    ensures var r := TrimPrefix(text, limit);
            && Valid(r) && r <= text && |r| <= limit
            && (|text| > limit ==> |r| + 3 >= limit)
            && (other <= |text| && other <= limit && Valid(text[..other]) ==> other <= |r|)
  {
    if |text| > limit {
      FittingRunesAreValid(text, limit);
      FittingRunesIsPrefix(text, limit);
      if other <= |text| && other <= limit && Valid(text[..other]) {
        FittingRunesIsLongest(text, limit, other);
      }
    }
  }

  /** The text with every byte that starts no rune replaced, as ranging over it reads it. */
  ghost function Cleaned(s: ByteString): ByteString
    decreases |s|
  {
    if s == [] then [] else Rune(s) + Cleaned(s[Stride(s)..])
  }

  /** What stands for a byte that starts no rune is the replacement character. */
  lemma ReplacementIsItsRune(s: ByteString)
    requires s != [] && Width(s) == 0
    ensures Rune(s) == Encode(0xFFFD) && Cleaned(s) == Encode(0xFFFD) + Cleaned(s[1..])
  {
  }

  /** The cleaned text is valid, and it is the text itself if that is valid. */
  lemma {:induction false} CleanedIsValid(s: ByteString)
    ensures Valid(Cleaned(s)) && (Valid(s) ==> Cleaned(s) == s)
    decreases |s|
  {
    if s != [] {
      hide Width, Rune, Cleaned, Valid;
      CleanedFirst(s);
      CleanedIsValid(s[Stride(s)..]);
      RuneThenValid(Rune(s), Cleaned(s[Stride(s)..]));
      if Valid(s) {
        ValidStart(s);
        assert s[..Width(s)] + s[Width(s)..] == s;
      }
    }
  }

  lemma CleanedFirst(s: ByteString)
    requires s != []
    ensures Cleaned(s) == Rune(s) + Cleaned(s[Stride(s)..])
  {
    hide Width, Rune, Stride;
  }

  lemma RuneThenValid(rune: ByteString, rest: ByteString)
    requires rune != [] && Width(rune) == |rune| && Valid(rest)
    ensures Valid(rune + rest)
    ensures Width(rune + rest) == |rune| && Rune(rune + rest) == rune && Stride(rune + rest) == |rune|
    ensures (rune + rest)[|rune|..] == rest
  {
    hide Width;
    WidthIsLocal(rune, rest);
    assert rune[|rune|..] + rest == rest;
    assert (rune + rest)[..|rune|] == rune;
  }

  /** Whatever the bytes, what fits of them is what fits of the cleaned text. */
  lemma {:induction false} FitsLikeCleaned(s: ByteString, room: nat)
    ensures FittingRunes(s, room) == FittingRunes(Cleaned(s), room)
    decreases |s|
  {
    hide Width, Rune, Stride, FittingRunes, Cleaned, Valid;
    if s == [] {
      NothingCleaned();
    } else {
      var rest := Cleaned(s[Stride(s)..]);
      CleanedFirst(s);
      CleanedIsValid(s[Stride(s)..]);
      RuneThenValid(Rune(s), rest);
      FitFirst(s, room);
      FitFirst(Rune(s) + rest, room);
      if |Rune(s)| <= room {
        FitsLikeCleaned(s[Stride(s)..], room - |Rune(s)|);
      }
    }
  }

  lemma NothingCleaned()
    ensures Cleaned([]) == []
  {
  }

  /** So a text over the limit, valid or not, is cut to the longest valid prefix of its cleaned form that fits. */
  lemma TrimPrefixOfAny(text: ByteString, limit: nat, other: nat)
    requires |text| > limit
    ensures var (r, clean) := (TrimPrefix(text, limit), Cleaned(text));
            && Valid(r) && r <= clean && |r| <= limit && (r == clean || |r| + 3 >= limit)
            && (other <= |clean| && other <= limit && Valid(clean[..other]) ==> other <= |r|)
  {
    hide Width, Rune, Stride, FittingRunes, Cleaned, Valid;
    CleanedIsValid(text);
    FitsLikeCleaned(text, limit);
    FittingRunesAreValid(text, limit);
    FittingRunesIsPrefix(Cleaned(text), limit);
    if other <= |Cleaned(text)| && other <= limit && Valid(Cleaned(text)[..other]) {
      FittingRunesIsLongest(Cleaned(text), limit, other);
    }
  }

  // ---- Trimming the start ------------------------------------------------------------------

  /** The first position from here on that does not continue a rune. */
  function RuneStartFrom(text: ByteString, start: nat): (r: nat)
    requires start <= |text|
    ensures start <= r <= |text| && (r < |text| ==> !IsContinuation(text[r]))
    ensures forall i :: start <= i < r ==> IsContinuation(text[i])
    decreases |text| - start
  {
    if start < |text| && IsContinuation(text[start]) then RuneStartFrom(text, start + 1) else start
  }

  function TrimSuffix(text: ByteString, limit: nat): ByteString {
    if |text| <= limit then text else text[RuneStartFrom(text, |text| - limit)..]
  }

  method TrimTextSuffix(text: ByteString, limit: nat) returns (result: ByteString)
    ensures result == TrimSuffix(text, limit)
  {
    if |text| <= limit {
      return text;
    }
    var start := |text| - limit;
    while start < |text| && IsContinuation(text[start])
      invariant |text| - limit <= start <= |text|
      invariant RuneStartFrom(text, start) == RuneStartFrom(text, |text| - limit)
    {
      start := start + 1;
    }
    result := text[start..];
  }

  lemma {:induction false} StopsBy(text: ByteString, start: nat, k: nat)
    requires start <= k <= |text| && (k < |text| ==> !IsContinuation(text[k]))
    ensures RuneStartFrom(text, start) <= k
    decreases k - start
  {
    if start < k {
      StopsBy(text, start + 1, k);
    }
  }

  /** In valid UTF-8 the boundaries are the ends and the bytes that do not continue a rune. */
  lemma {:induction false} BoundariesAreRuneStarts(text: ByteString, k: nat)
    requires Valid(text) && k <= |text|
    ensures Valid(text[k..]) <==> k == |text| || !IsContinuation(text[k])
    decreases |text|
  {
    if k == 0 {
      assert text[0..] == text;
    } else {
      ValidStart(text);
      var w := Width(text);
      if k < w {
        assert IsContinuation(text[k]) && text[k..][0] == text[k];
      } else {
        hide Width, Valid;
        BoundariesAreRuneStarts(text[w..], k - w);
        DropDrop(text, w, k);
      }
    }
  }

  lemma {:induction false} BoundaryIsNear(text: ByteString, start: nat)
    requires Valid(text) && start <= |text|
    ensures RuneStartFrom(text, start) <= start + 3
    decreases |text|
  {
    hide Width, Valid;
    if text != [] && start > 0 {
      ValidStart(text);
      var w := Width(text);
      if start < w {
        AfterRune(text);
        StopsBy(text, start, w);
      } else {
        BoundaryIsNear(text[w..], start - w);
        StopsBy(text, start, w + RuneStartFrom(text[w..], start - w));
      }
    } else {
      AfterRune(text);
      StopsBy(text, 0, 0);
    }
  }

  /** Neither the first byte of valid UTF-8 nor the one after its first rune continues a rune. */
  lemma AfterRune(text: ByteString)
    requires Valid(text)
    ensures text != [] ==> !IsContinuation(text[0]) && (Width(text) < |text| ==> !IsContinuation(text[Width(text)]))
  {
    if text != [] {
      ValidStart(text);
      if Width(text) < |text| {
        ValidStart(text[Width(text)..]);
      }
    }
  }

  /** Of valid UTF-8 it keeps the longest valid suffix within the limit, at most 3 bytes short. */
  lemma TrimSuffixOfValid(text: ByteString, limit: nat, other: nat)
    requires Valid(text)
    ensures var r := TrimSuffix(text, limit);
            && Valid(r) && |r| <= limit && r == text[|text| - |r|..]
            && (|text| > limit ==> |r| + 3 >= limit)
            && (other <= |text| && |text| - other <= limit && Valid(text[other..]) ==> |text| - other <= |r|)
  {
    hide Valid, RuneStartFrom;
    if |text| > limit {
      var start := |text| - limit;
      BoundariesAreRuneStarts(text, RuneStartFrom(text, start));
      BoundaryIsNear(text, start);
      if start <= other <= |text| && Valid(text[other..]) {
        BoundariesAreRuneStarts(text, other);
        StopsBy(text, start, other);
      }
    }
  }

  lemma {:induction false} ValidConcat(a: ByteString, b: ByteString)
    requires Valid(a) && Valid(b)
    ensures Valid(a + b)
    decreases |a|
  {
    if a == [] {
      assert a + b == b;
    } else {
      WidthIsLocal(a, b);
      ValidConcat(a[Width(a)..], b);
    }
  }
}
