/**
 The streaming preview of a run and its fallback text: both grow delta by delta
 and are cut at byte, line and rune boundaries.  Redaction is any function.
 */
module Preview {
  import opened Bytes
  import opened Utf8

  const FALLBACK_LIMIT := 8192

  const PREVIEW_LIMIT := 1200

  const PREVIEW_LINE_LIMIT := 12

  const RESET_LIMIT := 1800

  const RESET_LINE_LIMIT := 18

  const NEWLINE: Byte := 10

  /** Three full stops and a blank line. */
  const OMISSION_MARKER: ByteString := [46, 46, 46, 10, 10]

  function Newlines(text: ByteString): nat {
    if text == [] then 0 else (if text[0] == NEWLINE then 1 else 0) + Newlines(text[1..])
  }

  /** `processingDetailLineCount`. */
  function LineCount(text: ByteString): nat {
    if text == [] then 0 else Newlines(text) + 1
  }

  lemma {:induction false} NewlinesConcat(a: ByteString, b: ByteString)
    ensures Newlines(a + b) == Newlines(a) + Newlines(b)
  {
    if a == [] {
      assert a + b == b;
    } else {
      assert (a + b)[1..] == a[1..] + b;
      NewlinesConcat(a[1..], b);
    }
  }

  lemma NewlinesOfSuffix(text: ByteString, i: nat, j: nat)
    requires i <= j <= |text|
    ensures Newlines(text[i..]) == Newlines(text[i..j]) + Newlines(text[j..])
  {
    assert text[i..] == text[i..j] + text[j..];
    NewlinesConcat(text[i..j], text[j..]);
  }

  lemma NoNewlines(text: ByteString)
    requires text == []
    ensures Newlines(text) == 0
  {
  }

  // ---- The last lines --------------------------------------------------------------------

  /** Where the last `limit` lines start, scanning down from `index` with `lines` of them below it. */
  function TailStart(text: ByteString, index: int, lines: int, limit: int): (start: nat)
    requires -1 <= index < |text|
    ensures start <= index + 1
    decreases index + 1
  {
    if index < 0 then 0
    else if text[index] != NEWLINE then TailStart(text, index - 1, lines, limit)
    else if lines == limit then index + 1
    else TailStart(text, index - 1, lines + 1, limit)
  }

  function TailLines(text: ByteString, limit: int): ByteString {
    if limit <= 0 || text == [] then [] else text[TailStart(text, |text| - 1, 1, limit)..]
  }

  method TrimTextTailLines(text: ByteString, limit: int) returns (result: ByteString)
    ensures result == TailLines(text, limit)
  {
    if limit <= 0 || text == [] {
      return [];
    }
    var lines := 1;
    var index := |text| - 1;
    while index >= 0
      invariant -1 <= index < |text|
      invariant TailStart(text, index, lines, limit) == TailStart(text, |text| - 1, 1, limit)
    {
      if text[index] == NEWLINE {
        if lines == limit {
          return text[index + 1..];
        }
        lines := lines + 1;
      }
      index := index - 1;
    }
    result := text;
  }

  lemma {:induction false} TailStartCounts(text: ByteString, index: int, lines: int, limit: int)
    requires -1 <= index < |text| && lines == Newlines(text[index + 1..]) + 1 && 1 <= lines <= limit
    ensures var k := TailStart(text, index, lines, limit);
            && Newlines(text[k..]) + 1 <= limit
            && (k > 0 ==> text[k - 1] == NEWLINE && Newlines(text[k..]) + 1 == limit)
    decreases index + 1
  {
    if index < 0 {
      assert text[0..] == text;
    } else {
      assert text[index..][1..] == text[index + 1..];
      if text[index] != NEWLINE {
        TailStartCounts(text, index - 1, lines, limit);
      } else if lines < limit {
        TailStartCounts(text, index - 1, lines + 1, limit);
      }
    }
  }

  /** What is left is the longest suffix with at most `limit` lines. */
  lemma TailLinesIsLongest(text: ByteString, limit: int, longer: nat)
    ensures var r := TailLines(text, limit);
            && |r| <= |text| && r == text[|text| - |r|..]
            && (LineCount(r) <= limit || r == [])
            && (longer < |text| - |r| ==> LineCount(text[longer..]) > limit)
  {
    if limit > 0 && text != [] {
      var k := TailStart(text, |text| - 1, 1, limit);
      assert text[|text|..] == [];
      TailStartCounts(text, |text| - 1, 1, limit);
      if longer < k {
        NewlinesOfSuffix(text, longer, k);
        assert text[longer..k] == text[longer..k - 1] + [NEWLINE];
        NewlinesConcat(text[longer..k - 1], [NEWLINE]);
      }
    }
  }

  // ---- The preview -----------------------------------------------------------------------

  function PreviewTail(text: ByteString): ByteString {
    TrimSuffix(TailLines(text, PREVIEW_LINE_LIMIT), PREVIEW_LIMIT)
  }

  predicate FitsPreview(text: ByteString) {
    |text| <= RESET_LIMIT && LineCount(text) <= RESET_LINE_LIMIT
  }

  /** `appendProcessingPreview`. */
  function AppendPreview(preview: ByteString, delta: ByteString, redact: ByteString -> ByteString): ByteString {
    var next := redact(preview + delta);
    if FitsPreview(next) then next else OMISSION_MARKER + PreviewTail(next)
  }

  lemma PreviewTailIsShort(text: ByteString)
    ensures |PreviewTail(text)| <= PREVIEW_LIMIT && LineCount(PreviewTail(text)) <= PREVIEW_LINE_LIMIT
    ensures |PreviewTail(text)| <= |text| && PreviewTail(text) == text[|text| - |PreviewTail(text)|..]
  {
    hide TailLines, Newlines;
    var tail := TailLines(text, PREVIEW_LINE_LIMIT);
    TailLinesIsLongest(text, PREVIEW_LINE_LIMIT, 0);
    var r := PreviewTail(text);
    NewlinesOfSuffix(tail, 0, |tail| - |r|);
    assert tail[0..] == tail && tail[|tail| - |r|..] == r;
  }

  /** Of valid UTF-8 the end kept is the longest that is valid, has 12 lines and 1200 bytes. */
  lemma PreviewTailIsLongest(text: ByteString, other: nat)
    requires Valid(text) && other <= |text| && Valid(text[other..])
    requires |text| - other <= 1200 && LineCount(text[other..]) <= 12
    ensures |text| - other <= |PreviewTail(text)|
  {
    hide TailLines, Newlines, Valid, TrimSuffix;
    var tail := TailLines(text, PREVIEW_LINE_LIMIT);
    var cut := |text| - |tail|;
    TailLinesIsLongest(text, PREVIEW_LINE_LIMIT, other);
    TailLinesIsValid(text, PREVIEW_LINE_LIMIT);
    assert other >= cut;
    DropDrop(text, cut, other);
    TrimSuffixOfValid(tail, PREVIEW_LIMIT, other - cut);
  }

  /**
   A preview within 1800 bytes and 18 lines is all of the redacted text; otherwise it
   is the marker and the end of the redacted text, 1205 bytes and 14 lines at most,
   and of valid UTF-8 as much of the end as 1200 bytes and 12 lines hold.
   */
  lemma RolledPreviewIsShort(preview: ByteString, delta: ByteString, redact: ByteString -> ByteString, other: nat)
    ensures var next := redact(preview + delta);
            var r := AppendPreview(preview, delta, redact);
            if |next| <= 1800 && LineCount(next) <= 18 then r == next
            else
              && 5 <= |r| <= 1205 && LineCount(r) <= 14 && r[..5] == [46, 46, 46, 10, 10]
              && |r| - 5 <= |next| && r[5..] == next[|next| - (|r| - 5)..]
              && (Valid(next) && other <= |next| && Valid(next[other..]) && |next| - other <= 1200 && LineCount(next[other..]) <= 12 ==>
                    |next| - other <= |r| - 5)
  {
    var next := redact(preview + delta);
    hide Valid, PreviewTail;
    if |next| <= 1800 && LineCount(next) <= 18 {
    } else {
      PreviewTailIsShort(next);
      NewlinesConcat(OMISSION_MARKER, PreviewTail(next));
      MarkerHasTwoNewlines();
      if Valid(next) && other <= |next| && Valid(next[other..]) && |next| - other <= 1200 && LineCount(next[other..]) <= 12 {
        PreviewTailIsLongest(next, other);
      }
    }
  }

  lemma MarkerHasTwoNewlines()
    ensures Newlines(OMISSION_MARKER) == 2
  {
    assert OMISSION_MARKER[1..] == [46, 46, 10, 10];
    assert OMISSION_MARKER[1..][1..] == [46, 10, 10];
    assert OMISSION_MARKER[1..][1..][1..] == [10, 10];
    assert OMISSION_MARKER[1..][1..][1..][1..] == [10];
  }

  /** The preview after these deltas, from an empty one. */
  function PreviewOf(deltas: seq<ByteString>, redact: ByteString -> ByteString): ByteString {
    if deltas == [] then [] else AppendPreview(PreviewOf(deltas[..|deltas| - 1], redact), deltas[|deltas| - 1], redact)
  }

  /**
   After any deltas and for any redaction the preview has at most 1800 bytes and 18
   lines; if redaction keeps UTF-8 valid, so does the cutting.
   */
  lemma {:induction false} PreviewIsBounded(deltas: seq<ByteString>, redact: ByteString -> ByteString)
    ensures |PreviewOf(deltas, redact)| <= 1800 && LineCount(PreviewOf(deltas, redact)) <= 18
    ensures (forall d :: d in deltas ==> Valid(d)) && (forall s :: Valid(s) ==> Valid(redact(s))) ==> Valid(PreviewOf(deltas, redact))
  {
    if deltas != [] {
      var before, delta := deltas[..|deltas| - 1], deltas[|deltas| - 1];
      PreviewIsBounded(before, redact);
      RolledPreviewIsShort(PreviewOf(before, redact), delta, redact, 0);
      if (forall d :: d in deltas ==> Valid(d)) && (forall s :: Valid(s) ==> Valid(redact(s))) {
        assert Valid(delta) && Valid(PreviewOf(before, redact));
        ValidConcat(PreviewOf(before, redact), delta);
        PreviewStaysValid(redact(PreviewOf(before, redact) + delta));
      }
    }
  }

  lemma PreviewStaysValid(next: ByteString)
    requires Valid(next)
    ensures Valid(OMISSION_MARKER + PreviewTail(next))
  {
    var tail := TailLines(next, PREVIEW_LINE_LIMIT);
    TailLinesIsValid(next, PREVIEW_LINE_LIMIT);
    TrimSuffixOfValid(tail, PREVIEW_LIMIT, 0);
    MarkerIsValid();
    ValidConcat(OMISSION_MARKER, PreviewTail(next));
  }

  lemma MarkerIsValid()
    ensures Valid(OMISSION_MARKER)
  {
    assert Valid([10]);
    assert [10, 10][1..] == [10];
    assert [46, 10, 10][1..] == [10, 10];
    assert [46, 46, 10, 10][1..] == [46, 10, 10];
    assert OMISSION_MARKER[1..] == [46, 46, 10, 10];
  }

  /** Cutting after a newline cuts between runes. */
  lemma TailLinesIsValid(text: ByteString, limit: int)
    requires Valid(text)
    ensures Valid(TailLines(text, limit))
  {
    assert Valid([]);
    hide TailStart, Newlines, Valid;
    if limit > 0 && text != [] {
      var k := TailStart(text, |text| - 1, 1, limit);
      assert Newlines(text[|text|..]) == 0 by { NoNewlines(text[|text|..]); }
      TailStartCounts(text, |text| - 1, 1, limit);
      if k > 0 {
        AfterNewlineIsValid(text, k);
      } else {
        assert text[0..] == text;
      }
    }
  }

  lemma AfterNewlineIsValid(text: ByteString, k: nat)
    requires Valid(text) && 0 < k <= |text| && text[k - 1] == NEWLINE
    ensures Valid(text[k..])
  {
    BoundariesAreRuneStarts(text, k - 1);
    var rest := text[k - 1..];
    assert rest[0] == NEWLINE && Width(rest) == 1;
    assert rest[1..] == text[k..];
  }

  // ---- The fallback ------------------------------------------------------------------------

  function AppendFallback(fallback: ByteString, delta: ByteString): ByteString {
    TrimPrefix(fallback + delta, FALLBACK_LIMIT)
  }

  function FallbackOf(deltas: seq<ByteString>): ByteString {
    if deltas == [] then [] else AppendFallback(FallbackOf(deltas[..|deltas| - 1]), deltas[|deltas| - 1])
  }

  function Joined(deltas: seq<ByteString>): ByteString {
    if deltas == [] then [] else Joined(deltas[..|deltas| - 1]) + deltas[|deltas| - 1]
  }

  /** The fallback never exceeds its limit, and until the deltas do it is all of them. */
  lemma {:induction false} FallbackIsBounded(deltas: seq<ByteString>)
    ensures |FallbackOf(deltas)| <= 8192
    ensures |Joined(deltas)| <= 8192 ==> FallbackOf(deltas) == Joined(deltas)
  {
    if deltas != [] {
      var before, delta := deltas[..|deltas| - 1], deltas[|deltas| - 1];
      FallbackIsBounded(before);
      if |FallbackOf(before) + delta| > FALLBACK_LIMIT {
        FittingRunesAreValid(FallbackOf(before) + delta, FALLBACK_LIMIT);
      }
    }
  }

  /**
   Of valid deltas the fallback stays valid, never loses what it has, and once the
   deltas exceed its limit it is full, up to a rune that does not fit.
   */
  lemma {:induction false} FallbackOnlyGrows(deltas: seq<ByteString>)
    requires forall d :: d in deltas ==> Valid(d)
    ensures Valid(FallbackOf(deltas))
    ensures deltas != [] ==> FallbackOf(deltas[..|deltas| - 1]) <= FallbackOf(deltas)
    ensures |Joined(deltas)| > 8192 ==> |FallbackOf(deltas)| >= 8189
  {
    if deltas != [] {
      var before, delta := deltas[..|deltas| - 1], deltas[|deltas| - 1];
      FallbackOnlyGrows(before);
      FallbackIsBounded(before);
      var kept := FallbackOf(before);
      assert delta in deltas;
      hide Valid, TrimPrefix;
      ValidConcat(kept, delta);
      assert (kept + delta)[..|kept|] == kept;
      TrimPrefixOfValid(kept + delta, FALLBACK_LIMIT, |kept|);
    }
  }

  /**
   It need not be a prefix of the deltas: a rune that does not fit is dropped, and a
   shorter one after it may still fit.
   */
  lemma FallbackMaySkipARune(full: ByteString)
    requires |full| == 8191 && Valid(full)
    ensures FallbackOf([full, [0xC3, 0xA9], [0x78]]) == full + [0x78]
  {
    var two: ByteString, one: ByteString := [0xC3, 0xA9], [0x78];
    assert [full, two, one][..2] == [full, two] && [full, two][..1] == [full] && [full][..0] == [];
    assert Joined([full, two, one][..0]) == [];
    OneDelta(full);
    assert FallbackOf([full, two]) == AppendFallback(full, two);
    SkipsWhatDoesNotFit(full, two);
    assert FallbackOf([full, two, one]) == AppendFallback(full, one);
  }

  lemma OneDelta(full: ByteString)
    requires |full| <= 8192
    ensures FallbackOf([full]) == full
  {
    assert [full][..0] == [] && [] + full == full;
  }

  lemma SkipsWhatDoesNotFit(full: ByteString, two: ByteString)
    requires |full| == 8191 && Valid(full) && |two| == 2 && Width(two) == 2
    ensures AppendFallback(full, two) == full
  {
    assert two[2..] == [] && Valid(two);
    var r := AppendFallback(full, two);
    assert (full + two)[..8191] == full;
    ValidConcat(full, two);
    TrimPrefixOfValid(full + two, 8192, 8191);
    LoneFirstByte(full, two[0]);
    assert (full + two)[..8192] == full + [two[0]];
    assert r == (full + two)[..|r|] && 8191 <= |r| <= 8192;
  }

  lemma LoneFirstByte(s: ByteString, b: Byte)
    requires 0xC0 <= b
    ensures !Valid(s + [b])
  {
    assert (s + [b])[|s|..] == [b] && Width([b]) == 0;
    if Valid(s + [b]) {
      BoundariesAreRuneStarts(s + [b], |s|);
      assert false;
    }
  }


  // ---- The run's own fields ----------------------------------------------------------------

  /** The part of `activeRun` that deltas of the agent's message go to. */
  class StreamedText {
    const redact: ByteString -> ByteString
    const isBlank: ByteString -> bool
    const preview: bool                // the card shows a preview
    var processingDetail: ByteString
    var streamedFallback: ByteString
    var terminal: bool

    ghost predicate Valid()
      reads this
    {
      |processingDetail| <= 1800 && LineCount(processingDetail) <= 18 && |streamedFallback| <= 8192
    }

    constructor (redact: ByteString -> ByteString, isBlank: ByteString -> bool, preview: bool)
      ensures Valid() && processingDetail == [] && streamedFallback == [] && !terminal
      ensures this.redact == redact && this.isBlank == isBlank && this.preview == preview
    {
      this.redact, this.isBlank, this.preview := redact, isBlank, preview;
      processingDetail, streamedFallback, terminal := [], [], false;
    }

    /** `appendProcessingDetail`; true asks the caller to offer the new preview. */
    method AppendProcessingDetail(delta: ByteString) returns (offer: bool)
      requires Valid()
      modifies this
      ensures Valid() && terminal == old(terminal)
      ensures offer == (!isBlank(delta) && !terminal && preview)
      ensures processingDetail == if isBlank(delta) || terminal then old(processingDetail)
                                  else AppendPreview(old(processingDetail), delta, redact)
      ensures streamedFallback == if isBlank(delta) || terminal then old(streamedFallback)
                                  else AppendFallback(old(streamedFallback), delta)
    {
      if isBlank(delta) {
        return false;
      }
      if terminal {
        return false;
      }
      RolledPreviewIsShort(processingDetail, delta, redact, 0);
      if |streamedFallback + delta| > FALLBACK_LIMIT {
        FittingRunesAreValid(streamedFallback + delta, FALLBACK_LIMIT);
      }
      processingDetail := AppendPreview(processingDetail, delta, redact);
      var fallback := TrimTextPrefix(streamedFallback + delta, FALLBACK_LIMIT);
      streamedFallback := fallback;
      offer := preview;
    }
  }

  // ---- Short lists without repetition --------------------------------------------------------

  /** `appendBoundedUnique`. */
  method AppendBoundedUnique(values: seq<ByteString>, value: ByteString, max: nat) returns (r: seq<ByteString>)
    ensures r == Bounded(values, value, max)
  {
    for i := 0 to |values|
      invariant value !in values[..i]
    {
      if values[i] == value {
        return values;
      }
    }
    r := values + [value];
    if |r| > max {
      r := r[|r| - max..];
    }
  }

  function Bounded(values: seq<ByteString>, value: ByteString, max: nat): seq<ByteString> {
    if value in values then values
    else if |values| + 1 > max then (values + [value])[|values| + 1 - max..]
    else values + [value]
  }

  function Collected(items: seq<ByteString>, max: nat): seq<ByteString> {
    if items == [] then [] else Bounded(Collected(items[..|items| - 1], max), items[|items| - 1], max)
  }

  /** A new item goes to the end, and a full list loses its oldest. */
  lemma OldestIsDropped(values: seq<ByteString>, value: ByteString, max: nat)
    requires |values| <= max && max > 0
    ensures value in values ==> Bounded(values, value, max) == values
    ensures value !in values ==>
              Bounded(values, value, max) == (if |values| == max then values[1..] else values) + [value]
  {
    assert |values| == max ==> (values + [value])[1..] == values[1..] + [value];
  }

  /** However many items are collected: at most `max`, no two alike, none invented, the newest always there. */
  lemma {:induction false} CollectedIsBoundedAndUnique(items: seq<ByteString>, max: nat)
    requires max > 0
    ensures |Collected(items, max)| <= max
    ensures forall i, j :: 0 <= i < j < |Collected(items, max)| ==> Collected(items, max)[i] != Collected(items, max)[j]
    ensures forall v :: v in Collected(items, max) ==> v in items
    ensures items != [] ==> items[|items| - 1] in Collected(items, max)
  {
    if items != [] {
      var before, value := items[..|items| - 1], items[|items| - 1];
      CollectedIsBoundedAndUnique(before, max);
      var kept := Collected(before, max);
      if value !in kept {
        var all := kept + [value];
        assert all[|kept|] == value;
        var r := Collected(items, max);
        assert r == if |all| > max then all[|all| - max..] else all;
        assert r[|r| - 1] == value;
        forall v | v in r ensures v in items {
          assert v in all;
        }
      }
    }
  }
}
