/**
 Reassembly of fragmented WebSocket frames: fragments of many messages arrive in
 any order and more than once, and a message is handed on when its parts are in.
 */
module Fragments {
  import opened Tables
  import opened Bytes

  /** The headers `sum`, `seq` and `message_id` of a frame, whatever else it carries, and its payload. */
  datatype Frame = Frame(sum: int, part: int, message: Id, rest: nat, payload: ByteString)

  /** A part that did not arrive is nil; appending nothing to nil leaves nil, so an empty part is nil too. */
  datatype Buffer = Buffer(frame: Frame, parts: seq<ByteString>, received: int, expiresAt: int)

  function Concat(parts: seq<ByteString>): ByteString {
    if parts == [] then [] else Concat(parts[..|parts| - 1]) + parts[|parts| - 1]
  }

  function TotalLength(parts: seq<ByteString>): nat {
    if parts == [] then 0 else TotalLength(parts[..|parts| - 1]) + |parts[|parts| - 1]|
  }

  function Unexpired(fragments: map<Id, Buffer>, now: int): map<Id, Buffer> {
    map k | k in fragments && fragments[k].expiresAt > now :: fragments[k]
  }

  function EmptyBuffer(frame: Frame, expiresAt: int): Buffer
    requires frame.sum > 0
  {
    Buffer(frame, seq(frame.sum, _ => []), 0, expiresAt)
  }

  /** The buffer a fragment goes into. */
  function Pending(fragments: map<Id, Buffer>, frame: Frame, expiresAt: int): Buffer
    requires frame.sum > 0
  {
    if frame.message in fragments && |fragments[frame.message].parts| == frame.sum then fragments[frame.message]
    else EmptyBuffer(frame, expiresAt)
  }

  function Place(b: Buffer, part: nat, payload: ByteString): Buffer
    requires part < |b.parts|
  {
    if b.parts[part] == [] then b.(parts := b.parts[part := payload], received := b.received + 1) else b
  }

  predicate IsFragment(frame: Frame) {
    frame.sum > 1 && frame.message != NO_ID && 0 <= frame.part < frame.sum
  }

  /** `completeFrame` on the table of fragments. */
  function Complete(fragments: map<Id, Buffer>, frame: Frame, now: int, ttl: int): (map<Id, Buffer>, Option<Frame>) {
    if frame.sum <= 1 then (fragments, Some(frame))
    else if !IsFragment(frame) then (fragments, None)
    else
      var alive := Unexpired(fragments, now);
      var b := Place(Pending(alive, frame, now + ttl), frame.part, frame.payload);
      if b.received < frame.sum then (alive[frame.message := b], None)
      else (alive - {frame.message}, Some(b.frame.(payload := Concat(b.parts))))
  }

  lemma {:induction false} ConcatLength(parts: seq<ByteString>)
    ensures |Concat(parts)| == TotalLength(parts)
  {
    if parts != [] {
      ConcatLength(parts[..|parts| - 1]);
    }
  }

  /** The parts lie one after the other, each behind the bytes of those before it. */
  lemma {:induction false} ConcatKeepsOrder(parts: seq<ByteString>, i: nat)
    requires i < |parts|
    ensures var at := TotalLength(parts[..i]);
            at + |parts[i]| <= |Concat(parts)| && Concat(parts)[at..at + |parts[i]|] == parts[i]
  {
    ConcatLength(parts);
    ConcatLength(parts[..|parts| - 1]);
    if i < |parts| - 1 {
      var before := parts[..|parts| - 1];
      assert before[..i] == parts[..i];
      ConcatKeepsOrder(before, i);
    }
  }

  class Reassembler {
    const ttl: int
    var fragments: map<Id, Buffer>

    constructor (ttl: int)
      ensures this.ttl == ttl && fragments == map[]
    {
      this.ttl, fragments := ttl, map[];
    }

    /** Deletes what has expired, entry by entry. */
    method Expire(now: int)
      modifies this
      ensures fragments == Unexpired(old(fragments), now)
      ensures forall k :: k in fragments <==> k in old(fragments) && old(fragments)[k].expiresAt > now
    {
      var left := fragments.Keys;
      while left != {}
        invariant left <= fragments.Keys <= old(fragments).Keys
        invariant forall k :: k in old(fragments) && k !in fragments ==> old(fragments)[k].expiresAt <= now
        invariant forall k :: k in fragments ==> fragments[k] == old(fragments)[k]
        invariant forall k :: k in fragments && k !in left ==> fragments[k].expiresAt > now
        decreases left
      {
        var k :| k in left;
        left := left - {k};
        if fragments[k].expiresAt <= now {
          fragments := fragments - {k};
        }
      }
    }

    /** The payload of a complete message; the first loop only sizes the buffer. */
    method Combine(parts: seq<ByteString>) returns (combined: ByteString, length: nat)
      ensures combined == Concat(parts) && length == |combined|
    {
      length := 0;
      for i := 0 to |parts|
        invariant length == TotalLength(parts[..i])
      {
        assert parts[..i + 1][..i] == parts[..i];
        length := length + |parts[i]|;
      }
      combined := [];
      for i := 0 to |parts|
        invariant combined == Concat(parts[..i])
      {
        assert parts[..i + 1][..i] == parts[..i];
        combined := combined + parts[i];
      }
      assert parts[..|parts|] == parts;
      ConcatLength(parts);
    }

    method CompleteFrame(frame: Frame, now: int) returns (complete: Frame, ok: bool)
      modifies this
      ensures (fragments, if ok then Some(complete) else None) == Complete(old(fragments), frame, now, ttl)
    {
      complete := frame;
      if frame.sum <= 1 {
        return frame, true;
      }
      if frame.message == NO_ID || frame.part < 0 || frame.part >= frame.sum {
        return frame, false;
      }
      Expire(now);
      var pending := EmptyBuffer(frame, now + ttl);
      if frame.message in fragments && |fragments[frame.message].parts| == frame.sum {
        pending := fragments[frame.message];
      }
      if pending.parts[frame.part] == [] {
        pending := pending.(parts := pending.parts[frame.part := frame.payload], received := pending.received + 1);
      }
      if pending.received < frame.sum {
        fragments := fragments[frame.message := pending];
        return frame, false;
      }
      var combined, _ := Combine(pending.parts);
      fragments := fragments - {frame.message};
      complete := pending.frame.(payload := combined);
      ok := true;
    }
  }
}
