/** When a message is handed on, and with what payload, whatever else arrives in between. */
module FragmentProofs {
  import opened Tables
  import opened Bytes
  import opened Fragments

  datatype Arrival = Arrival(frame: Frame, now: int)

  /** The table after these arrivals. */
  ghost function Table(start: map<Id, Buffer>, arrivals: seq<Arrival>, ttl: int): map<Id, Buffer> {
    if arrivals == [] then start
    else
      var x := arrivals[|arrivals| - 1];
      Complete(Table(start, arrivals[..|arrivals| - 1], ttl), x.frame, x.now, ttl).0
  }

  /** What the last of these arrivals hands on. */
  ghost function Output(start: map<Id, Buffer>, arrivals: seq<Arrival>, ttl: int): Option<Frame>
    requires arrivals != []
  {
    var x := arrivals[|arrivals| - 1];
    Complete(Table(start, arrivals[..|arrivals| - 1], ttl), x.frame, x.now, ttl).1
  }

  predicate About(a: Arrival, m: Id) {
    IsFragment(a.frame) && a.frame.message == m
  }

  ghost function First(arrivals: seq<Arrival>, m: Id): Option<Arrival> {
    if arrivals == [] then None
    else
      var before := First(arrivals[..|arrivals| - 1], m);
      var x := arrivals[|arrivals| - 1];
      if before.Some? then before else if About(x, m) then Some(x) else None
  }

  /** The parts of m that arrived. */
  ghost function Seen(arrivals: seq<Arrival>, m: Id): set<int> {
    if arrivals == [] then {}
    else
      var x := arrivals[|arrivals| - 1];
      Seen(arrivals[..|arrivals| - 1], m) + if About(x, m) then {x.frame.part} else {}
  }

  /** What the received counter counts: parts, and every arrival of an empty one. */
  ghost function Tally(arrivals: seq<Arrival>, m: Id): nat {
    if arrivals == [] then 0
    else
      var before := arrivals[..|arrivals| - 1];
      var x := arrivals[|arrivals| - 1];
      Tally(before, m) + if About(x, m) && (x.frame.part !in Seen(before, m) || x.frame.payload == []) then 1 else 0
  }

  /**
   One round of message m with parts `parts`: its fragments arrive within the time
   to live of the first, in any order, any number of times, between anything else;
   the clock does not run backwards and m is not in the table at the start.
   */
  ghost predicate Round(start: map<Id, Buffer>, arrivals: seq<Arrival>, m: Id, parts: seq<ByteString>, ttl: int) {
    && |parts| >= 2
    && m !in start
    && (forall i :: 0 <= i < |arrivals| && About(arrivals[i], m) ==>
          arrivals[i].frame.sum == |parts| && arrivals[i].frame.payload == parts[arrivals[i].frame.part])
    && (forall i, j :: 0 <= i <= j < |arrivals| ==> arrivals[i].now <= arrivals[j].now)
    && (forall i :: 0 <= i < |arrivals| && About(arrivals[i], m) ==>
          First(arrivals, m).Some? && arrivals[i].now < First(arrivals, m).value.now + ttl)
  }

  lemma RoundInit(start: map<Id, Buffer>, arrivals: seq<Arrival>, x: Arrival, m: Id, parts: seq<ByteString>, ttl: int)
    requires Round(start, arrivals + [x], m, parts, ttl)
    ensures Round(start, arrivals, m, parts, ttl)
    ensures First(arrivals + [x], m) == if First(arrivals, m).Some? then First(arrivals, m) else if About(x, m) then Some(x) else None
    ensures Seen(arrivals + [x], m) == Seen(arrivals, m) + if About(x, m) then {x.frame.part} else {}
    ensures Tally(arrivals + [x], m) == Tally(arrivals, m) +
                                        if About(x, m) && (x.frame.part !in Seen(arrivals, m) || x.frame.payload == []) then 1 else 0
    ensures About(x, m) ==> x.frame.sum == |parts| && x.frame.payload == parts[x.frame.part] && 0 <= x.frame.part < |parts|
    ensures About(x, m) ==> x.now < First(arrivals + [x], m).value.now + ttl
    ensures forall i :: 0 <= i < |arrivals| ==> arrivals[i].now <= x.now
  {
    var all := arrivals + [x];
    assert all[..|arrivals|] == arrivals;
    assert forall i :: 0 <= i < |arrivals| ==> all[i] == arrivals[i];
    forall i | 0 <= i < |arrivals| && About(arrivals[i], m) ensures First(arrivals, m).Some? {
      FirstIsSome(arrivals, i, m);
    }
    assert all[|arrivals|] == x;
  }

  lemma {:induction false} FirstIsSome(arrivals: seq<Arrival>, i: nat, m: Id)
    requires i < |arrivals| && About(arrivals[i], m)
    ensures First(arrivals, m).Some?
  {
    if i < |arrivals| - 1 {
      FirstIsSome(arrivals[..|arrivals| - 1], i, m);
    }
  }

  // ---- One message seen through the table --------------------------------------------------

  function Live(fragments: map<Id, Buffer>, m: Id, t: int): Option<Buffer> {
    if m in fragments && fragments[m].expiresAt > t then Some(fragments[m]) else None
  }

  /** A frame of anything else leaves m alone, at this time and later. */
  lemma OtherFramesLeaveIt(fragments: map<Id, Buffer>, x: Arrival, ttl: int, m: Id, t: int)
    requires !About(x, m) && t >= x.now
    ensures Live(Complete(fragments, x.frame, x.now, ttl).0, m, t) == Live(fragments, m, t)
  {
  }

  ghost function Filled(parts: seq<ByteString>, seen: set<int>): seq<ByteString> {
    seq(|parts|, i requires 0 <= i < |parts| => if i in seen then parts[i] else [])
  }

  /** What the table should hold for m. */
  ghost function Expected(arrivals: seq<Arrival>, m: Id, parts: seq<ByteString>, ttl: int): Option<Buffer> {
    match First(arrivals, m)
    case None => None
    case Some(f) => Some(Buffer(f.frame, Filled(parts, Seen(arrivals, m)), Tally(arrivals, m), f.now + ttl))
  }

  /** A fragment of m goes into the buffer of its round. */
  lemma OwnFrame(fragments: map<Id, Buffer>, start: map<Id, Buffer>, arrivals: seq<Arrival>, x: Arrival, m: Id,
                 parts: seq<ByteString>, ttl: int)
    requires Round(start, arrivals + [x], m, parts, ttl) && About(x, m)
    requires Live(fragments, m, x.now) == Expected(arrivals, m, parts, ttl)
    ensures var (fragments', out) := Complete(fragments, x.frame, x.now, ttl);
            var b := Expected(arrivals + [x], m, parts, ttl);
            && b.Some?
            && (b.value.received < |parts| ==> out == None && m in fragments' && fragments'[m] == b.value)
            && (b.value.received >= |parts| ==>
                  m !in fragments' && out == Some(b.value.frame.(payload := Concat(b.value.parts))))
  {
    hide Round, Seen, Tally, First;
    RoundInit(start, arrivals, x, m, parts, ttl);
    var b := Pending(Unexpired(fragments, x.now), x.frame, x.now + ttl);
    var seen := Seen(arrivals, m);
    if First(arrivals, m).None? {
      NothingSeen(arrivals, m);
      assert b.parts == Filled(parts, {});
    }
    assert b.parts == Filled(parts, seen) && b.received == Tally(arrivals, m);
    PlaceFills(b, parts, seen, x.frame.part);
  }

  lemma PlaceFills(b: Buffer, parts: seq<ByteString>, seen: set<int>, part: nat)
    requires b.parts == Filled(parts, seen) && part < |parts|
    ensures var b' := Place(b, part, parts[part]);
            && b'.parts == Filled(parts, seen + {part}) && b'.frame == b.frame && b'.expiresAt == b.expiresAt
            && b'.received == b.received + if part !in seen || parts[part] == [] then 1 else 0
  {
    assert Place(b, part, parts[part]).parts == Filled(parts, seen + {part});
  }

  lemma {:induction false} NothingSeen(arrivals: seq<Arrival>, m: Id)
    requires First(arrivals, m).None?
    ensures Seen(arrivals, m) == {} && Tally(arrivals, m) == 0
  {
    if arrivals != [] {
      NothingSeen(arrivals[..|arrivals| - 1], m);
    }
  }

  /** While nothing was handed on, the table holds for m what arrived of it. */
  lemma {:induction false} TableHoldsTheRound(start: map<Id, Buffer>, arrivals: seq<Arrival>, m: Id, parts: seq<ByteString>, ttl: int, t: int)
    requires Round(start, arrivals, m, parts, ttl) && Tally(arrivals, m) < |parts|
    requires forall i :: 0 <= i < |arrivals| ==> arrivals[i].now <= t
    requires First(arrivals, m).Some? ==> t < First(arrivals, m).value.now + ttl
    ensures Live(Table(start, arrivals, ttl), m, t) == Expected(arrivals, m, parts, ttl)
    decreases |arrivals|
  {
    if arrivals != [] {
      var before, x := arrivals[..|arrivals| - 1], arrivals[|arrivals| - 1];
      assert arrivals == before + [x];
      RoundInit(start, before, x, m, parts, ttl);
      if About(x, m) {
        TableHoldsTheRound(start, before, m, parts, ttl, x.now);
        OwnFrame(Table(start, before, ttl), start, before, x, m, parts, ttl);
      } else {
        TableHoldsTheRound(start, before, m, parts, ttl, t);
        OtherFramesLeaveIt(Table(start, before, ttl), x, ttl, m, t);
        assert Seen(arrivals, m) == Seen(before, m);
      }
    }
  }

  /** A frame that is not split passes as it is, a malformed fragment is dropped, and neither touches the table. */
  lemma OnlyFragmentsAreKept(fragments: map<Id, Buffer>, frame: Frame, now: int, ttl: int)
    ensures frame.sum <= 1 ==> Complete(fragments, frame, now, ttl) == (fragments, Some(frame))
    ensures frame.sum > 1 && (frame.message == NO_ID || frame.part < 0 || frame.part >= frame.sum) ==>
              Complete(fragments, frame, now, ttl) == (fragments, None)
  {
  }

  /**
   A fragment drops what has expired of every message and changes no other; a buffer
   of its own message that has expired, or has another number of parts, counts for
   nothing: the fragment starts a new round.
   */
  lemma StaleRoundsAreForgotten(fragments: map<Id, Buffer>, frame: Frame, now: int, ttl: int, k: Id)
    requires IsFragment(frame)
    ensures var (fragments', out) := Complete(fragments, frame, now, ttl);
            && (k != frame.message ==> Live(fragments', k, now) == Live(fragments, k, now) && (k in fragments' ==> fragments'[k].expiresAt > now))
            && (Live(fragments, frame.message, now).None? || |fragments[frame.message].parts| != frame.sum ==>
                  out == None && frame.message in fragments'
                  && var b := fragments'[frame.message];
                     b.frame == frame && b.expiresAt == now + ttl && b.received == 1 && |b.parts| == frame.sum
                     && forall i :: 0 <= i < frame.sum ==> b.parts[i] == if i == frame.part then frame.payload else [])
  {
  }

  // ---- When it is handed on ----------------------------------------------------------------

  /** No fragment of m handed m on yet. */
  ghost predicate NotYet(start: map<Id, Buffer>, arrivals: seq<Arrival>, m: Id, ttl: int) {
    forall i :: 0 <= i < |arrivals| && About(arrivals[i], m) ==> Output(start, arrivals[..i + 1], ttl) == None
  }

  lemma NotYetInit(start: map<Id, Buffer>, arrivals: seq<Arrival>, x: Arrival, m: Id, ttl: int)
    requires NotYet(start, arrivals + [x], m, ttl)
    ensures NotYet(start, arrivals, m, ttl)
    ensures About(x, m) ==> Output(start, arrivals + [x], ttl) == None
  {
    var all := arrivals + [x];
    forall i | 0 <= i < |arrivals| && About(arrivals[i], m) ensures Output(start, arrivals[..i + 1], ttl) == None {
      assert all[i] == arrivals[i] && all[..i + 1] == arrivals[..i + 1];
    }
    assert all[|arrivals|] == x && all[..|arrivals| + 1] == all;
  }

  /** The first time m is handed on is the time the counter reaches the number of parts. */
  lemma {:induction false} NotYetMeansFewer(start: map<Id, Buffer>, arrivals: seq<Arrival>, m: Id, parts: seq<ByteString>, ttl: int)
    requires Round(start, arrivals, m, parts, ttl) && NotYet(start, arrivals, m, ttl)
    ensures Tally(arrivals, m) < |parts|
    decreases |arrivals|
  {
    if arrivals != [] {
      var before, x := arrivals[..|arrivals| - 1], arrivals[|arrivals| - 1];
      assert arrivals == before + [x];
      RoundInit(start, before, x, m, parts, ttl);
      NotYetInit(start, before, x, m, ttl);
      NotYetMeansFewer(start, before, m, parts, ttl);
      if About(x, m) {
        TableHoldsTheRound(start, before, m, parts, ttl, x.now);
        OwnFrame(Table(start, before, ttl), start, before, x, m, parts, ttl);
      }
    }
  }

  /** What the first fragment that reaches the count hands on. */
  lemma HandedOnByCount(start: map<Id, Buffer>, arrivals: seq<Arrival>, x: Arrival, m: Id, parts: seq<ByteString>, ttl: int)
    requires Round(start, arrivals + [x], m, parts, ttl) && About(x, m) && NotYet(start, arrivals, m, ttl)
    ensures var out := Output(start, arrivals + [x], ttl);
            && (out.Some? <==> Tally(arrivals + [x], m) == |parts|)
            && (out.Some? ==>
                  && out.value == First(arrivals + [x], m).value.frame.(payload := Concat(Filled(parts, Seen(arrivals + [x], m))))
                  && m !in Table(start, arrivals + [x], ttl))
  {
    RoundInit(start, arrivals, x, m, parts, ttl);
    NotYetMeansFewer(start, arrivals, m, parts, ttl);
    TableHoldsTheRound(start, arrivals, m, parts, ttl, x.now);
    OwnFrame(Table(start, arrivals, ttl), start, arrivals, x, m, parts, ttl);
    assert (arrivals + [x])[..|arrivals|] == arrivals;
  }

  // ---- Counting parts ------------------------------------------------------------------------

  ghost function AllParts(n: nat): (r: set<int>)
    ensures |r| == n && forall i :: i in r <==> 0 <= i < n
  {
    if n == 0 then {} else AllParts(n - 1) + {n - 1}
  }

  predicate SamePart(a: Arrival, b: Arrival, m: Id) {
    About(a, m) && About(b, m) && a.frame.part == b.frame.part
  }

  /** No empty part arrived twice. */
  ghost predicate EmptyPartsOnce(arrivals: seq<Arrival>, m: Id) {
    forall i, j :: 0 <= i < j < |arrivals| && SamePart(arrivals[i], arrivals[j], m) ==> arrivals[j].frame.payload != []
  }

  lemma {:induction false} SeenArrived(arrivals: seq<Arrival>, m: Id, part: int)
    ensures part in Seen(arrivals, m) <==> exists i :: 0 <= i < |arrivals| && About(arrivals[i], m) && arrivals[i].frame.part == part
    decreases |arrivals|
  {
    if arrivals != [] {
      var before, x := arrivals[..|arrivals| - 1], arrivals[|arrivals| - 1];
      SeenArrived(before, m, part);
      if part in Seen(before, m) {
        var i :| 0 <= i < |before| && About(before[i], m) && before[i].frame.part == part;
        assert arrivals[i] == before[i];
      }
      forall i | 0 <= i < |arrivals| && About(arrivals[i], m) && arrivals[i].frame.part == part ensures part in Seen(arrivals, m) {
        assert i < |before| ==> before[i] == arrivals[i];
      }
    }
  }

  lemma OnceMore(arrivals: seq<Arrival>, x: Arrival, m: Id)
    ensures EmptyPartsOnce(arrivals + [x], m) <==>
              EmptyPartsOnce(arrivals, m) && !(About(x, m) && x.frame.payload == [] && x.frame.part in Seen(arrivals, m))
  {
    hide Seen;
    SeenArrived(arrivals, m, x.frame.part);
    var all := arrivals + [x];
    assert all[|arrivals|] == x && forall i :: 0 <= i < |arrivals| ==> all[i] == arrivals[i];
    if EmptyPartsOnce(all, m) {
      forall i, j | 0 <= i < j < |arrivals| && SamePart(arrivals[i], arrivals[j], m)
        ensures arrivals[j].frame.payload != []
      {
        assert all[i] == arrivals[i] && all[j] == arrivals[j];
      }
    }
  }

  lemma OnePartMore(seen: set<int>, part: int, n: nat)
    requires seen <= AllParts(n) && 0 <= part < n
    ensures seen + {part} <= AllParts(n) && |seen + {part}| == |seen| + if part in seen then 0 else 1
  {
    if part in seen {
      assert seen + {part} == seen;
    }
  }

  /** The received counter is the number of parts exactly when no empty part came twice. */
  lemma {:induction false} TallyCountsParts(start: map<Id, Buffer>, arrivals: seq<Arrival>, m: Id, parts: seq<ByteString>, ttl: int)
    requires Round(start, arrivals, m, parts, ttl)
    ensures Seen(arrivals, m) <= AllParts(|parts|)
    ensures Tally(arrivals, m) >= |Seen(arrivals, m)|
    ensures Tally(arrivals, m) == |Seen(arrivals, m)| <==> EmptyPartsOnce(arrivals, m)
    decreases |arrivals|
  {
    if arrivals != [] {
      hide Round, Seen, Tally, First, EmptyPartsOnce, IsFragment, AllParts;
      var before, x := arrivals[..|arrivals| - 1], arrivals[|arrivals| - 1];
      assert arrivals == before + [x];
      RoundInit(start, before, x, m, parts, ttl);
      TallyCountsParts(start, before, m, parts, ttl);
      OnceMore(before, x, m);
      if About(x, m) {
        OnePartMore(Seen(before, m), x.frame.part, |parts|);
      } else {
        assert Seen(arrivals, m) == Seen(before, m);
      }
    }
  }

  /**
   Whatever arrives in between, in whatever order and how often: while no empty part
   comes twice, m is first handed on exactly when its last missing part arrives, under
   the headers of its first fragment, with its parts in order as payload.
   */
  lemma HandedOnWhenComplete(start: map<Id, Buffer>, arrivals: seq<Arrival>, x: Arrival, m: Id, parts: seq<ByteString>, ttl: int)
    requires Round(start, arrivals + [x], m, parts, ttl) && About(x, m) && NotYet(start, arrivals, m, ttl)
    requires EmptyPartsOnce(arrivals + [x], m)
    ensures var out := Output(start, arrivals + [x], ttl);
            && (out.Some? <==> Seen(arrivals + [x], m) == AllParts(|parts|))
            && (out.Some? ==> out.value == First(arrivals + [x], m).value.frame.(payload := Concat(parts)))
            && (out.Some? ==> m !in Table(start, arrivals + [x], ttl))
  {
    var seen := Seen(arrivals + [x], m);
    HandedOnByCount(start, arrivals, x, m, parts, ttl);
    TallyCountsParts(start, arrivals + [x], m, parts, ttl);
    SameSizeSameSet(seen, AllParts(|parts|));
    if seen == AllParts(|parts|) {
      assert Filled(parts, seen) == parts;
    }
  }

  lemma SameSizeSameSet(a: set<int>, b: set<int>)
    requires a <= b
    ensures |a| == |b| <==> a == b
  {
    assert |b - a| == |b| - |a|;
    if |a| == |b| {
      assert b - a == {};
    }
  }

  /** A message is handed on complete exactly when no empty part of it came twice before. */
  lemma HandedOnCompleteIffEmptyPartsOnce(start: map<Id, Buffer>, arrivals: seq<Arrival>, x: Arrival, m: Id, parts: seq<ByteString>, ttl: int)
    requires Round(start, arrivals + [x], m, parts, ttl) && About(x, m) && NotYet(start, arrivals, m, ttl)
    requires Output(start, arrivals + [x], ttl).Some?
    ensures Seen(arrivals + [x], m) == AllParts(|parts|) <==> EmptyPartsOnce(arrivals + [x], m)
  {
    HandedOnByCount(start, arrivals, x, m, parts, ttl);
    TallyCountsParts(start, arrivals + [x], m, parts, ttl);
    SameSizeSameSet(Seen(arrivals + [x], m), AllParts(|parts|));
  }

  /** The family shut out is real: an empty first part sent twice hands on a message without its second part. */
  lemma EmptyPartTwiceHandsOnTooEarly(message: Id, rest: nat, ttl: int)
    requires message != NO_ID && ttl > 0
    ensures var frame := Frame(2, 0, message, rest, []);
            && Complete(map[], frame, 0, ttl).1 == None
            && Complete(Complete(map[], frame, 0, ttl).0, frame, 0, ttl).1 == Some(frame)
  {
    var frame := Frame(2, 0, message, rest, []);
    var (once, _) := Complete(map[], frame, 0, ttl);
    var b := once[message];
    assert Place(b, 0, []).parts == b.parts;
    assert b.parts == [[], []];
    assert Concat(b.parts) == Concat(b.parts[..1]) + [] && Concat(b.parts[..1]) == Concat(b.parts[..0]) + [];
  }
}
