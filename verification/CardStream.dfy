/**
 The card sender and the service it talks to.  Every API call may succeed, fail
 transiently or fail for good; a failed call has no effect.  A stream is the fast
 path: while it is active, a change of the detail alone is one element update.
 */
module CardStream {
  import opened Tables
  import opened Cards
  import opened Sequences

  datatype Reply = Success | Transient | Permanent

  const DEFAULT_MAX_RETRIES := 2

  // ---- What the sender relies on, as values ------------------------------------------

  /** The service's cards, where streaming is enabled, the last sequence number it was sent, and the allocator's table. */
  datatype World = World(cards: map<Id, Card>, streaming: set<Id>, lastSequence: map<Id, int>, table: map<Id, int>)

  /** Nothing changed but what belongs to this message. */
  ghost predicate SameBut(w: World, w': World, message: Id) {
    && w.cards - {message} == w'.cards - {message}
    && w.streaming - {message} == w'.streaming - {message}
    && w.lastSequence - {message} == w'.lastSequence - {message}
    && w.table - {message} == w'.table - {message}
  }

  function NumberOf(numbers: map<Id, int>, message: Id): int {
    if message in numbers then numbers[message] else 0
  }

  ghost predicate WorldOk(w: World) {
    TableOk(w.table) && forall m :: m in w.lastSequence ==> w.lastSequence[m] <= NumberOf(w.table, m)
  }

  datatype Stream = Stream(
    cardId: Id,
    counter: Counter,
    lastKey: Option<Key>,
    lastDetail: string,
    active: bool,
    unavailable: bool)

  /** The numbers a stream holds are above all that were sent and within what is reserved. */
  predicate NumbersOk(c: Counter, sent: int, reserved: int) {
    c.next >= 0 && (0 < c.next <= c.end ==> sent < c.next && c.end <= reserved)
  }

  /** An active stream remembers the card that is shown, and streaming is enabled for it. */
  ghost predicate StreamOk(w: World, message: Id, s: Stream) {
    && s.counter.message == message
    && (s.cardId == NO_ID || s.cardId == message)
    && NumbersOk(s.counter, NumberOf(w.lastSequence, message), NumberOf(w.table, message))
    && (s.lastKey.Some? ==> s.lastKey.value.presentation.Some?)
    && (s.active ==>
          && s.cardId == message && message in w.streaming && message in w.cards
          && s.lastKey.Some? && w.cards[message] == CardFor(s.lastKey.value, s.lastDetail))
  }

  lemma OtherStreamsStay(w: World, w': World, message: Id, other: Id, s: Stream)
    requires SameBut(w, w', message) && other != message && StreamOk(w, other, s)
    ensures StreamOk(w', other, s)
  {
    assert other in w.cards <==> other in w'.cards - {message};
    assert other in w.streaming <==> other in w'.streaming - {message};
    assert other in w.lastSequence <==> other in w'.lastSequence - {message};
    assert other in w.table <==> other in w'.table - {message};
    if other in w.cards { assert w.cards[other] == (w'.cards - {message})[other]; }
    if other in w.lastSequence { assert w.lastSequence[other] == (w'.lastSequence - {message})[other]; }
    if other in w.table { assert w.table[other] == (w'.table - {message})[other]; }
  }

  lemma RefillNumbers(w: World, c: Counter, clock: int, stored: bool)
    requires WorldOk(w) && NumbersOk(c, NumberOf(w.lastSequence, c.message), NumberOf(w.table, c.message))
    ensures var (table', c', filled) := Refill(w.table, c, clock, stored);
            && WorldOk(w.(table := table')) && table' - {c.message} == w.table - {c.message}
            && c'.message == c.message && NumbersOk(c', NumberOf(w.lastSequence, c.message), NumberOf(table', c.message))
            && (filled ==> 0 < c'.next <= c'.end)
  {
    ReservedBlockIsNew(w.table, c.message, clock, BLOCK_SIZE);
  }

  // ---- What each operation on a message keeps ------------------------------------------------

  lemma SameButReflexive(w: World, message: Id)
    ensures SameBut(w, w, message)
  {
  }

  lemma SameButTransitive(a: World, b: World, c: World, message: Id)
    requires SameBut(a, b, message) && SameBut(b, c, message)
    ensures SameBut(a, c, message)
  {
  }

  /** What every operation on a message does for its stream and for all the others. */
  ghost predicate Keeps(w: World, w': World, message: Id, s: Stream) {
    WorldOk(w') && SameBut(w, w', message) && StreamOk(w', message, s)
  }

  /** A number taken from the stream's block is sent. */
  lemma NumberSent(w: World, message: Id, s: Stream, sequence: int)
    requires WorldOk(w) && StreamOk(w, message, s)
    requires NumberOf(w.lastSequence, message) < sequence <= NumberOf(w.table, message)
    requires s.counter.next == sequence + 1 && s.counter.end <= NumberOf(w.table, message)
    ensures var w' := w.(lastSequence := w.lastSequence[message := sequence]);
            WorldOk(w') && StreamOk(w', message, s) && SameBut(w, w', message)
  {
  }

  lemma StreamingEnabled(w: World, message: Id, s: Stream)
    requires WorldOk(w) && StreamOk(w, message, s) && s.cardId == message && message in w.cards
    requires s.lastKey.Some? && w.cards[message] == CardFor(s.lastKey.value, s.lastDetail)
    ensures var w' := w.(streaming := w.streaming + {message});
            WorldOk(w') && StreamOk(w', message, s.(active := true)) && SameBut(w, w', message)
  {
  }

  lemma StreamingDisabled(w: World, message: Id, s: Stream)
    requires WorldOk(w) && StreamOk(w, message, s)
    ensures var w' := w.(streaming := w.streaming - {message});
            WorldOk(w') && StreamOk(w', message, s.(active := false)) && SameBut(w, w', message)
  {
  }

  /** The card is replaced and the stream remembers by what. */
  lemma CardReplaced(w: World, message: Id, s: Stream, key: Key, detail: string)
    requires WorldOk(w) && StreamOk(w, message, s) && message in w.cards && key.presentation.Some?
    ensures var w' := w.(cards := w.cards[message := CardFor(key, detail)]);
            WorldOk(w') && StreamOk(w', message, s.(lastKey := Some(key), lastDetail := detail)) && SameBut(w, w', message)
  {
  }

  /** Only the detail of a streamed card is overwritten. */
  lemma DetailReplaced(w: World, message: Id, s: Stream, detail: string)
    requires WorldOk(w) && StreamOk(w, message, s) && s.active
    ensures var w' := w.(cards := w.cards[message := SetElement(w.cards[message], DETAIL_ELEMENT, detail)]);
            && WorldOk(w') && StreamOk(w', message, s.(lastDetail := detail)) && SameBut(w, w', message)
            && w'.cards[message] == CardFor(s.lastKey.value, detail)
  {
    SetDetail(s.lastKey.value, s.lastDetail, detail);
  }

  /** A detail update under a number of the stream's block. */
  lemma DetailSent(before: World, w: World, message: Id, s: Stream, sequence: int, detail: string)
    requires Keeps(before, w, message, s) && WorldOk(w) && s.active
    requires NumberOf(w.lastSequence, message) < sequence <= NumberOf(w.table, message)
    requires s.counter.next == sequence + 1 && s.counter.end <= NumberOf(w.table, message)
    ensures message in w.cards && s.lastKey.Some? && s.lastKey.value.presentation.Some?
    ensures var sent := w.(lastSequence := w.lastSequence[message := sequence]);
            var shown := sent.(cards := w.cards[message := SetElement(w.cards[message], DETAIL_ELEMENT, detail)]);
            && Keeps(before, sent, message, s) && Keeps(before, shown, message, s.(lastDetail := detail))
            && shown.cards[message] == CardFor(s.lastKey.value, detail)
  {
    NumberSent(w, message, s, sequence);
    var sent := w.(lastSequence := w.lastSequence[message := sequence]);
    DetailReplaced(sent, message, s, detail);
    var shown := sent.(cards := w.cards[message := SetElement(w.cards[message], DETAIL_ELEMENT, detail)]);
    hide SameBut, SetElement, CardFor;
    SameButTransitive(before, w, sent, message);
    SameButTransitive(before, sent, shown, message);
  }

  /** A new card may appear beside any stream, which is not active for it. */
  lemma CardAdded(w: World, message: Id, card: Card, other: Id, s: Stream)
    requires WorldOk(w) && StreamOk(w, other, s) && message !in w.cards
    ensures var w' := w.(cards := w.cards[message := card]);
            WorldOk(w') && StreamOk(w', other, s) && (other == message ==> !s.active)
  {
  }

  /** What went wrong so far, and how much of it only refused to stream. */
  datatype Trouble = Trouble(faults: nat, refusals: nat)

  predicate MoreTrouble(a: Trouble, b: Trouble) {
    0 <= b.refusals - a.refusals <= b.faults - a.faults
  }

  /** After the reply of a streaming call. */
  function After(t: Trouble, reply: Reply): Trouble {
    Trouble(t.faults + (if reply == Success then 0 else 1), t.refusals + (if reply == Permanent then 1 else 0))
  }

  predicate OnlyRefusals(a: Trouble, b: Trouble) {
    b.refusals - a.refusals == b.faults - a.faults
  }

  // ---- The service -----------------------------------------------------------------------

  /**
   A card is identified by the message that shows it.  Sent cards and patches are
   counted, and so is everything that goes wrong: a call that does not succeed, an
   answer without a message id, and a failure from elsewhere; a streaming call that
   fails for good is also counted as a refusal.
   */
  class CardService {
    var cards: map<Id, Card>
    ghost var streaming: set<Id>
    ghost var lastSequence: map<Id, int>
    ghost var sends: nat
    ghost var patches: nat
    ghost var faults: nat
    ghost var refusals: nat

    ghost function Troubles(): Trouble
      reads this
    {
      Trouble(faults, refusals)
    }

    constructor ()
      ensures cards == map[] && streaming == {} && lastSequence == map[] && sends == 0 && patches == 0 && Troubles() == Trouble(0, 0)
    {
      cards, streaming, lastSequence, sends, patches, faults, refusals := map[], {}, map[], 0, 0, 0, 0;
    }

    method SendCard(card: Card) returns (reply: Reply, message: Id)
      modifies this`cards, this`sends, this`faults
      ensures sends == old(sends) + 1
      ensures faults == old(faults) + if reply == Success && message != NO_ID then 0 else 1
      ensures if reply == Success && message != NO_ID
              then message !in old(cards) && cards == old(cards)[message := card]
              else cards == old(cards)
    {
      reply, message := *, *;
      if message in cards {
        message := NO_ID;
      }
      sends := sends + 1;
      if reply == Success && message != NO_ID {
        cards := cards[message := card];
      } else {
        faults := faults + 1;
      }
    }

    method PatchCard(message: Id, card: Card) returns (reply: Reply)
      modifies this`cards, this`patches, this`faults
      ensures patches == old(patches) + 1 && faults == old(faults) + if reply == Success then 0 else 1
      ensures if reply == Success then message in old(cards) && cards == old(cards)[message := card] else cards == old(cards)
    {
      reply := *;
      patches := patches + 1;
      if message !in cards {
        reply := Permanent;
      }
      if reply == Success {
        cards := cards[message := card];
      } else {
        faults := faults + 1;
      }
    }

    method ResolveCardID(message: Id) returns (reply: Reply, cardId: Id)
      modifies this`faults, this`refusals
      ensures reply == Success ==> cardId == message
      ensures Troubles() == After(old(Troubles()), reply)
    {
      reply := *;
      cardId := if reply == Success then message else NO_ID;
      Count(reply);
    }

    /** The service expects every operation on a card to carry a higher number than the ones before. */
    method SetCardStreaming(cardId: Id, enabled: bool, sequence: int) returns (reply: Reply)
      requires NumberOf(lastSequence, cardId) < sequence <= MAX_SEQUENCE
      modifies this`streaming, this`lastSequence, this`faults, this`refusals
      ensures lastSequence == old(lastSequence)[cardId := sequence] && Troubles() == After(old(Troubles()), reply)
      ensures streaming == if reply != Success then old(streaming) else if enabled then old(streaming) + {cardId} else old(streaming) - {cardId}
    {
      reply := *;
      lastSequence := lastSequence[cardId := sequence];
      if reply == Success {
        streaming := if enabled then streaming + {cardId} else streaming - {cardId};
      }
      Count(reply);
    }

    /** Content can be streamed only into a card with streaming enabled. */
    method SetCardElementContent(cardId: Id, elementId: string, content: string, sequence: int) returns (reply: Reply)
      requires NumberOf(lastSequence, cardId) < sequence <= MAX_SEQUENCE && cardId in streaming
      modifies this`cards, this`lastSequence, this`faults, this`refusals
      ensures lastSequence == old(lastSequence)[cardId := sequence] && Troubles() == After(old(Troubles()), reply)
      ensures if reply == Success
              then cardId in old(cards) && cards == old(cards)[cardId := SetElement(old(cards)[cardId], elementId, content)]
              else cards == old(cards)
    {
      reply := *;
      lastSequence := lastSequence[cardId := sequence];
      if cardId !in cards {
        reply := Permanent;
      }
      if reply == Success {
        cards := cards[cardId := SetElement(cards[cardId], elementId, content)];
      }
      Count(reply);
    }

    /** Counts the reply of a streaming call. */
    ghost method Count(reply: Reply)
      modifies this`faults, this`refusals
      ensures Troubles() == After(old(Troubles()), reply)
    {
      faults := faults + if reply == Success then 0 else 1;
      refusals := refusals + if reply == Permanent then 1 else 0;
    }

    /** An error that comes from elsewhere: the context, the clock or the store of sequence numbers. */
    method Failure() returns (reply: Reply)
      modifies this`faults
      ensures reply != Success && faults == old(faults) + 1
    {
      reply := *;
      faults := faults + 1;
      if reply == Success {
        reply := Permanent;
      }
    }
  }

  class TaskCardStream {
    var cardId: Id
    var nextSequence: int
    var sequenceEnd: int
    var lastKey: Option<Key>
    var lastDetail: string
    var active: bool
    var unavailable: bool

    ghost function State(message: Id): Stream
      reads this
    {
      Stream(cardId, Counter(message, nextSequence, sequenceEnd), lastKey, lastDetail, active, unavailable)
    }

    constructor ()
      ensures forall m :: State(m) == Stream(NO_ID, Counter(m, 0, 0), None, "", false, false)
    {
      cardId, nextSequence, sequenceEnd, lastKey, lastDetail, active, unavailable := NO_ID, 0, 0, None, "", false, false;
    }
  }
}
