/** `Sender`: full patches, and the streams that make detail updates cheap. */
module Sender {
  import opened Tables
  import opened Cards
  import opened Sequences
  import opened CardStream

  predicate IsTaskStreamProgress(msg: Message) {
    Streams(msg) && msg.update != NO_ID
  }

  predicate IsTaskStreamStart(msg: Message) {
    Streams(msg) && msg.update == NO_ID
  }

  function DetailOf(msg: Message): string {
    if msg.presentation.Some? then msg.presentation.value.processingDetail else ""
  }

  class Sender {
    const api: CardService
    const canStream: bool          // the API has the CardKit part
    const maxAttempts: int
    const retries: int
    var table: map<Id, int>        // the durable sequence allocator
    var streams: map<Id, TaskCardStream>

    ghost function W(): World
      reads this, api
    {
      World(api.cards, api.streaming, api.lastSequence, table)
    }

    ghost predicate Valid()
      reads this, api, streams.Values
    {
      && WorldOk(W())
      && (!canStream ==> streams == map[])
      && (forall m :: m in streams ==> StreamOk(W(), m, streams[m].State(m)))
      && (forall m, n :: m in streams && n in streams && m != n ==> streams[m] != streams[n])
    }

    constructor (api: CardService, canStream: bool, maxAttempts: int, retries: int)
      requires api.lastSequence == map[]
      ensures Valid() && this.api == api && streams == map[] && table == map[]
      ensures this.canStream == canStream
    {
      this.api, this.canStream, this.maxAttempts, this.retries := api, canStream, maxAttempts, retries;
      table, streams := map[], map[];
    }

    /** What the message asks for comes first, then the attempts of the sender, then its retries, then the default. */
    function MaxRetries(attempts: int): (n: nat)
      ensures attempts > 0 ==> n + 1 == attempts
      ensures attempts <= 0 && maxAttempts > 0 ==> n + 1 == maxAttempts
      ensures attempts <= 0 && maxAttempts <= 0 ==> n == if retries > 0 then retries else 2
    {
      if attempts > 0 then attempts - 1
      else if maxAttempts > 0 then maxAttempts - 1
      else if retries > 0 then retries
      else DEFAULT_MAX_RETRIES
    }

    // ---- Sequence numbers --------------------------------------------------------------

    /** The number and the state it leaves are those of a `Take` of the stream's counter, for some clock and store. */
    method NextTaskStreamSequence(message: Id, stream: TaskCardStream) returns (ok: bool, sequence: int, ghost clock: int, ghost stored: bool)
      requires WorldOk(W()) && StreamOk(W(), message, stream.State(message))
      modifies this`table, stream`nextSequence, stream`sequenceEnd
      ensures Keeps(old(W()), W(), message, stream.State(message)) && W() == old(W()).(table := table)
      ensures ok ==> NumberOf(api.lastSequence, message) < sequence <= NumberOf(table, message) <= MAX_SEQUENCE
      ensures ok ==> stream.nextSequence == sequence + 1 && stream.sequenceEnd <= NumberOf(table, message)
      ensures var (table', c, filled) := Refill(old(table), old(stream.State(message).counter), clock, stored);
              && ok == filled && table == table'
              && (ok ==> sequence == c.next && stream.State(message).counter == c.(next := c.next + 1))
              && (!ok ==> stream.State(message).counter == c)
    {
      ghost var before := stream.State(message).counter;
      var now, persisted := *, *;
      clock, stored := now, persisted;
      RefillNumbers(W(), before, clock, stored);
      if stream.nextSequence == 0 || stream.nextSequence > stream.sequenceEnd {
        var (table', reservation) := Reserve(table, message, now, BLOCK_SIZE);
        if !persisted || reservation.NotReserved? {
          return false, 0, clock, stored;
        }
        table := table';
        stream.nextSequence := reservation.start;
        stream.sequenceEnd := reservation.start + BLOCK_SIZE - 1;
      }
      sequence := stream.nextSequence;
      stream.nextSequence := stream.nextSequence + 1;
      ok := true;
    }

    // ---- Streaming on and off ------------------------------------------------------------

    /** The card of the message, asked for once. */
    method ResolveCard(message: Id, stream: TaskCardStream) returns (reply: Reply)
      requires WorldOk(W()) && StreamOk(W(), message, stream.State(message)) && !stream.active
      modifies api`faults, api`refusals, stream`cardId
      ensures W() == old(W()) && StreamOk(W(), message, stream.State(message))
      ensures stream.State(message) == old(stream.State(message)).(cardId := stream.cardId)
      ensures reply == Success ==> stream.cardId == message
      ensures api.Troubles() == if old(stream.cardId) == NO_ID then After(old(api.Troubles()), reply) else old(api.Troubles())
      ensures old(stream.cardId) != NO_ID ==> reply == Success
    {
      if stream.cardId != NO_ID {
        return Success;
      }
      var resolved, id := api.ResolveCardID(message);
      if resolved == Success {
        stream.cardId := id;
      }
      reply := resolved;
    }

    method EnableTaskStream(message: Id, stream: TaskCardStream) returns (reply: Reply)
      requires WorldOk(W()) && StreamOk(W(), message, stream.State(message)) && stream.lastKey.Some?
      requires !stream.active && message in api.cards && api.cards[message] == CardFor(stream.lastKey.value, stream.lastDetail)
      modifies this`table, api`streaming, api`lastSequence, api`faults, api`refusals
      modifies stream`cardId, stream`nextSequence, stream`sequenceEnd, stream`active
      ensures Keeps(old(W()), W(), message, stream.State(message))
      ensures stream.active <==> reply == Success
      ensures MoreTrouble(old(api.Troubles()), api.Troubles()) && api.faults == old(api.faults) + if reply == Success then 0 else 1
      ensures OnlyRefusals(old(api.Troubles()), api.Troubles()) ==> reply != Transient
    {
      SameButReflexive(W(), message);
      hide WorldOk, StreamOk, SameBut, CardFor;
      reply := ResolveCard(message, stream);
      if reply != Success {
        return;
      }
      var ok, sequence, _, _ := NextTaskStreamSequence(message, stream);
      if !ok {
        reply := api.Failure();
        return;
      }
      ghost var w, s := W(), stream.State(message);
      var answer := api.SetCardStreaming(stream.cardId, true, sequence);
      NumberSent(w, message, s, sequence);
      ghost var sent := w.(lastSequence := api.lastSequence);
      SameButTransitive(old(W()), w, sent, message);
      if answer != Success {
        return answer;
      }
      StreamingEnabled(sent, message, s);
      SameButTransitive(old(W()), sent, W(), message);
      stream.active := true;
      reply := Success;
    }

    method PauseTaskStream(message: Id, stream: TaskCardStream) returns (reply: Reply)
      requires WorldOk(W()) && StreamOk(W(), message, stream.State(message))
      modifies this`table, api`streaming, api`lastSequence, api`faults, api`refusals, stream`nextSequence, stream`sequenceEnd, stream`active
      ensures Keeps(old(W()), W(), message, stream.State(message))
      ensures if reply == Success then !stream.active else stream.active && old(stream.active)
      ensures reply == Success && old(stream.active) ==> message !in api.streaming
      ensures MoreTrouble(old(api.Troubles()), api.Troubles()) && api.faults == old(api.faults) + if reply == Success then 0 else 1
      ensures OnlyRefusals(old(api.Troubles()), api.Troubles()) ==> reply != Transient
    {
      if !stream.active {
        return Success;
      }
      var ok, sequence, _, _ := NextTaskStreamSequence(message, stream);
      assert stream.cardId == message;
      hide WorldOk, StreamOk, SameBut;
      if !ok {
        reply := api.Failure();
        return;
      }
      ghost var w, s := W(), stream.State(message);
      reply := api.SetCardStreaming(stream.cardId, false, sequence);
      NumberSent(w, message, s, sequence);
      ghost var sent := w.(lastSequence := api.lastSequence);
      SameButTransitive(old(W()), w, sent, message);
      if reply == Success {
        StreamingDisabled(sent, message, s);
        SameButTransitive(old(W()), sent, W(), message);
        stream.active := false;
      }
    }

    method DisableTaskStreamForFallback(message: Id, stream: TaskCardStream)
      requires WorldOk(W()) && StreamOk(W(), message, stream.State(message))
      modifies this`table, api`streaming, api`lastSequence, api`faults, api`refusals
      modifies stream`nextSequence, stream`sequenceEnd, stream`active, stream`unavailable
      ensures Keeps(old(W()), W(), message, stream.State(message)) && stream.unavailable
      ensures MoreTrouble(old(api.Troubles()), api.Troubles()) && (api.faults == old(api.faults) ==> !stream.active)
    {
      stream.unavailable := true;
      var _ := PauseTaskStream(message, stream);
    }

    // ---- Full patches ----------------------------------------------------------------------

    /**
     At most `MaxRetries` + 1 attempts; the card changes only if one succeeds, and that
     is the last one; unless the context ends, transient failures use up the attempts.
     */
    method PatchWithRetry(message: Id, card: Card, attempts: int) returns (reply: Reply, ghost canceled: bool)
      modifies api`cards, api`patches, api`faults
      ensures if reply == Success then message in old(api.cards) && api.cards == old(api.cards)[message := card]
              else api.cards == old(api.cards)
      ensures old(api.patches) <= api.patches <= old(api.patches) + MaxRetries(attempts) + 1
      ensures if reply == Success then api.patches == old(api.patches) + 1 + (api.faults - old(api.faults)) && api.faults >= old(api.faults)
              else api.faults > old(api.faults)
      ensures !canceled && reply == Transient ==> api.patches == old(api.patches) + MaxRetries(attempts) + 1
      ensures !canceled && reply != Success ==> api.patches - old(api.patches) == api.faults - old(api.faults)
    {
      var maxRetries := MaxRetries(attempts);
      var attempt := 0;
      reply, canceled := Permanent, false;
      while attempt <= maxRetries
        invariant 0 <= attempt <= maxRetries + 1
        invariant api.cards == old(api.cards) && reply != Success && !canceled
        invariant api.patches == old(api.patches) + attempt && api.faults == old(api.faults) + attempt
      {
        var expired: bool := *;
        if expired {
          canceled := true;
          reply := api.Failure();
          return;
        }
        reply := api.PatchCard(message, card);
        if reply == Success {
          return;
        }
        if reply == Permanent || attempt == maxRetries {
          return;
        }
        expired := *;
        if expired {
          canceled := true;
          reply := api.Failure();
          return;
        }
        attempt := attempt + 1;
      }
    }

    /** The card changed to the message's, or not at all. */
    ghost predicate ShownOrNot(before: map<Id, Card>, after: map<Id, Card>, msg: Message) {
      after == before || (msg.update in before && after == before[msg.update := Render(msg)])
    }

    /** The stream knows this message as the one last shown. */
    ghost predicate Remembers(msg: Message, stream: TaskCardStream)
      reads stream
    {
      stream.lastKey == Some(TaskStreamKey(msg)) && stream.lastDetail == DetailOf(msg)
    }

    method PatchTaskProgress(msg: Message, stream: TaskCardStream) returns (reply: Reply)
      requires WorldOk(W()) && StreamOk(W(), msg.update, stream.State(msg.update)) && IsTaskStreamProgress(msg)
      modifies api`cards, api`patches, api`faults, stream`lastKey, stream`lastDetail
      ensures Keeps(old(W()), W(), msg.update, stream.State(msg.update))
      ensures if reply == Success
              then && msg.update in api.cards && api.cards[msg.update] == Render(msg)
                   && Remembers(msg, stream)
                   && W() == old(W()).(cards := old(api.cards)[msg.update := Render(msg)])
              else W() == old(W()) && stream.State(msg.update) == old(stream.State(msg.update))
      ensures ShownOrNot(old(api.cards), api.cards, msg)
      ensures MoreTrouble(old(api.Troubles()), api.Troubles())
      ensures OnlyRefusals(old(api.Troubles()), api.Troubles()) ==> reply == Success
      ensures old(api.patches) <= api.patches <= old(api.patches) + MaxRetries(msg.maxAttempts) + 1
    {
      RenderIsCardFor(msg);
      hide WorldOk, StreamOk, CardFor, TaskStreamKey, Render;
      ghost var canceled;
      reply, canceled := PatchWithRetry(msg.update, Render(msg), msg.maxAttempts);
      if reply == Success {
        CardReplaced(old(W()), msg.update, stream.State(msg.update), TaskStreamKey(msg), DetailOf(msg));
        stream.lastKey := Some(TaskStreamKey(msg));
        stream.lastDetail := DetailOf(msg);
      }
    }

    // ---- The fast path ---------------------------------------------------------------------

    /** An active stream already shows this message, or differs from it in the detail alone. */
    ghost predicate Shows(msg: Message, stream: TaskCardStream)
      reads stream
    {
      stream.active && !stream.unavailable && Remembers(msg, stream)
    }

    ghost predicate DiffersInDetail(msg: Message, stream: TaskCardStream)
      reads stream
    {
      stream.active && !stream.unavailable && stream.lastKey == Some(TaskStreamKey(msg)) && stream.lastDetail != DetailOf(msg)
    }

    /** Gives the stream up and patches. */
    method FallBack(msg: Message, stream: TaskCardStream) returns (reply: Reply)
      requires WorldOk(W()) && StreamOk(W(), msg.update, stream.State(msg.update)) && IsTaskStreamProgress(msg)
      modifies this`table, api, stream
      ensures Keeps(old(W()), W(), msg.update, stream.State(msg.update))
      ensures ShownOrNot(old(api.cards), api.cards, msg) && stream.unavailable
      ensures reply == Success ==> msg.update in api.cards && api.cards[msg.update] == Render(msg) && Remembers(msg, stream)
      ensures MoreTrouble(old(api.Troubles()), api.Troubles())
      ensures OnlyRefusals(old(api.Troubles()), api.Troubles()) ==> reply == Success
      ensures old(api.patches) <= api.patches <= old(api.patches) + MaxRetries(msg.maxAttempts) + 1
    {
      hide WorldOk, SameBut, TaskStreamKey, Render;
      DisableTaskStreamForFallback(msg.update, stream);
      ghost var paused := W();
      reply := PatchTaskProgress(msg, stream);
      SameButTransitive(old(W()), paused, W(), msg.update);
    }

    /** One detail update through the element; `refused` when the service will not take it. */
    method WriteDetail(msg: Message, stream: TaskCardStream) returns (reply: Reply, refused: bool)
      requires WorldOk(W()) && StreamOk(W(), msg.update, stream.State(msg.update)) && IsTaskStreamProgress(msg)
      requires DiffersInDetail(msg, stream)
      modifies this`table, api`cards, api`lastSequence, api`faults, api`refusals
      modifies stream`nextSequence, stream`sequenceEnd, stream`lastDetail
      ensures Keeps(old(W()), W(), msg.update, stream.State(msg.update))
      ensures if reply == Success
              then msg.update in old(api.cards) && api.cards == old(api.cards)[msg.update := Render(msg)] && Shows(msg, stream)
              else api.cards == old(api.cards)
      ensures MoreTrouble(old(api.Troubles()), api.Troubles()) && (reply == Success <==> api.faults == old(api.faults))
      ensures if refused then reply == Permanent else OnlyRefusals(old(api.Troubles()), api.Troubles()) ==> reply == Success
    {
      assert stream.cardId == msg.update && msg.update in api.streaming;
      RenderIsCardFor(msg);
      hide WorldOk, StreamOk, SameBut, CardFor, TaskStreamKey, Render, SetElement;
      var ok, sequence, _, _ := NextTaskStreamSequence(msg.update, stream);
      refused := false;
      if !ok {
        reply := api.Failure();
        return;
      }
      DetailSent(old(W()), W(), msg.update, stream.State(msg.update), sequence, DetailOf(msg));
      reply := api.SetCardElementContent(stream.cardId, DETAIL_ELEMENT, DetailOf(msg), sequence);
      refused := reply == Permanent;
      if reply == Success {
        stream.lastDetail := DetailOf(msg);
      }
    }

    /** One detail update through the element, or by patch once the stream is given up. */
    method UpdateDetail(msg: Message, stream: TaskCardStream) returns (reply: Reply)
      requires WorldOk(W()) && StreamOk(W(), msg.update, stream.State(msg.update)) && IsTaskStreamProgress(msg)
      requires DiffersInDetail(msg, stream)
      modifies this`table, api, stream
      ensures Keeps(old(W()), W(), msg.update, stream.State(msg.update))
      ensures ShownOrNot(old(api.cards), api.cards, msg)
      ensures reply == Success ==> msg.update in api.cards && api.cards[msg.update] == Render(msg)
      ensures !stream.unavailable ==> api.patches == old(api.patches)
      ensures MoreTrouble(old(api.Troubles()), api.Troubles())
      ensures OnlyRefusals(old(api.Troubles()), api.Troubles()) ==> reply == Success
      ensures reply == Success ==> stream.unavailable || Shows(msg, stream)
      ensures api.faults == old(api.faults) ==> Shows(msg, stream)
      ensures old(api.patches) <= api.patches <= old(api.patches) + MaxRetries(msg.maxAttempts) + 1
    {
      hide WorldOk, StreamOk, SameBut, TaskStreamKey, Render;
      var refused;
      reply, refused := WriteDetail(msg, stream);
      if refused {
        ghost var written := W();
        reply := FallBack(msg, stream);
        SameButTransitive(old(W()), written, W(), msg.update);
      }
    }

    /** Patches and switches streaming on again; a stream that cannot be switched on is given up. */
    method PatchAndEnable(msg: Message, stream: TaskCardStream) returns (reply: Reply)
      requires WorldOk(W()) && StreamOk(W(), msg.update, stream.State(msg.update)) && IsTaskStreamProgress(msg)
      requires !stream.active
      modifies this`table, api, stream
      ensures Keeps(old(W()), W(), msg.update, stream.State(msg.update))
      ensures ShownOrNot(old(api.cards), api.cards, msg)
      ensures reply == Success ==> msg.update in api.cards && api.cards[msg.update] == Render(msg)
      ensures MoreTrouble(old(api.Troubles()), api.Troubles())
      ensures OnlyRefusals(old(api.Troubles()), api.Troubles()) ==> reply == Success
      ensures reply == Success ==> stream.unavailable || Shows(msg, stream)
      ensures api.faults == old(api.faults) && !old(stream.unavailable) ==> Shows(msg, stream)
      ensures old(api.patches) <= api.patches <= old(api.patches) + MaxRetries(msg.maxAttempts) + 1
    {
      hide WorldOk, SameBut, CardFor, TaskStreamKey, Render;
      reply := PatchTaskProgress(msg, stream);
      if reply != Success {
        return;
      }
      RenderIsCardFor(msg);
      ghost var patched := W();
      var enabled := EnableTaskStream(msg.update, stream);
      SameButTransitive(old(W()), patched, W(), msg.update);
      if enabled == Transient {
        return Transient;
      }
      if enabled == Permanent {
        stream.unavailable := true;
      }
    }

    /** `streamTaskProgress` on the message's stream. */
    method StreamTaskProgress(msg: Message, stream: TaskCardStream) returns (reply: Reply)
      requires WorldOk(W()) && StreamOk(W(), msg.update, stream.State(msg.update)) && IsTaskStreamProgress(msg)
      modifies this`table, api, stream
      ensures Keeps(old(W()), W(), msg.update, stream.State(msg.update))
      ensures ShownOrNot(old(api.cards), api.cards, msg)
      ensures reply == Success ==> msg.update in api.cards && api.cards[msg.update] == Render(msg)
      ensures old(Shows(msg, stream)) ==> reply == Success && W() == old(W()) && api.patches == old(api.patches)
      ensures old(DiffersInDetail(msg, stream)) && !stream.unavailable ==> api.patches == old(api.patches)
      ensures MoreTrouble(old(api.Troubles()), api.Troubles())
      ensures OnlyRefusals(old(api.Troubles()), api.Troubles()) ==> reply == Success
      ensures reply == Success ==> stream.unavailable || Shows(msg, stream)
      ensures api.faults == old(api.faults) && !old(stream.unavailable) ==> Shows(msg, stream)
      ensures old(stream.unavailable) ==> stream.unavailable
      ensures old(api.patches) <= api.patches <= old(api.patches) + MaxRetries(msg.maxAttempts) + 1
    {
      hide WorldOk, SameBut, CardFor, TaskStreamKey, Render;
      if stream.unavailable {
        reply := PatchTaskProgress(msg, stream);
        return;
      }
      if !stream.active {
        reply := PatchAndEnable(msg, stream);
        return;
      }
      if stream.lastKey != Some(TaskStreamKey(msg)) {
        var paused := PauseTaskStream(msg.update, stream);
        ghost var between := W();
        if paused == Transient {
          return Transient;
        }
        if paused == Permanent {
          reply := FallBack(msg, stream);
          SameButTransitive(old(W()), between, W(), msg.update);
          return;
        }
        reply := PatchAndEnable(msg, stream);
        SameButTransitive(old(W()), between, W(), msg.update);
        return;
      }
      if stream.lastDetail == DetailOf(msg) {
        RenderIsCardFor(msg);
        SameButReflexive(W(), msg.update);
        return Success;
      }
      reply := UpdateDetail(msg, stream);
    }

    /** After a card was sent: its stream remembers it and is switched on if that works. */
    method StartTaskStream(msg: Message, message: Id, stream: TaskCardStream)
      requires WorldOk(W()) && StreamOk(W(), message, stream.State(message)) && Streams(msg) && !stream.active
      requires message in api.cards && api.cards[message] == Render(msg)
      modifies this`table, api`streaming, api`lastSequence, api`faults, api`refusals, stream
      ensures Keeps(old(W()), W(), message, stream.State(message))
      ensures Remembers(msg, stream)
      ensures MoreTrouble(old(api.Troubles()), api.Troubles()) && (stream.active <==> api.faults == old(api.faults))
      ensures api.faults == old(api.faults) ==> stream.unavailable == old(stream.unavailable)
    {
      RenderIsCardFor(msg);
      hide WorldOk, SameBut, CardFor, TaskStreamKey, Render;
      stream.lastKey := Some(TaskStreamKey(msg));
      stream.lastDetail := DetailOf(msg);
      var reply := EnableTaskStream(message, stream);
      if reply == Permanent {
        stream.unavailable := true;
      }
    }

    // ---- The table of streams ----------------------------------------------------------------

    method TaskStream(message: Id) returns (stream: TaskCardStream)
      requires Valid() && canStream
      modifies this`streams
      ensures Valid() && W() == old(W()) && message in streams && streams[message] == stream
      ensures if message in old(streams) then streams == old(streams)
              else streams == old(streams)[message := stream] && fresh(stream) && !stream.active
    {
      if message in streams {
        return streams[message];
      }
      stream := new TaskCardStream();
      ghost var w := W();
      assert StreamOk(w, message, stream.State(message));
      hide StreamOk, WorldOk;
      streams := streams[message := stream];
    }

    /** A card without a stream may change. */
    twostate lemma NoStreamChanged(message: Id)
      requires old(Valid()) && streams == old(streams) && message !in streams
      requires WorldOk(W()) && SameBut(old(W()), W(), message)
      requires forall m :: m in streams ==> streams[m].State(m) == old(streams[m].State(m))
      ensures Valid()
    {
      hide StreamOk, WorldOk, SameBut;
      forall m | m in streams ensures StreamOk(W(), m, streams[m].State(m)) {
        OtherStreamsStay(old(W()), W(), message, m, old(streams[m].State(m)));
      }
    }

    /** What an operation on one stream keeps is kept for all of them. */
    twostate lemma OneStreamChanged(message: Id)
      requires old(Valid()) && streams == old(streams) && message in streams
      requires Keeps(old(W()), W(), message, streams[message].State(message))
      requires forall m :: m in streams && m != message ==> streams[m].State(m) == old(streams[m].State(m))
      ensures Valid()
    {
      hide StreamOk, WorldOk, SameBut;
      forall m | m in streams && m != message ensures StreamOk(W(), m, streams[m].State(m)) {
        OtherStreamsStay(old(W()), W(), message, m, old(streams[m].State(m)));
      }
    }

    method CloseTaskStream(message: Id)
      requires Valid()
      modifies this`streams, this`table, api`streaming, api`lastSequence, api`faults, api`refusals, streams.Values
      ensures Valid() && streams == old(streams) - {message} && SameBut(old(W()), W(), message)
      ensures MoreTrouble(old(api.Troubles()), api.Troubles())
      ensures (api.faults == old(api.faults) && canStream && message in old(streams) && old(streams[message].active) ==>
                 message !in api.streaming)
    {
      if message !in streams {
        SameButReflexive(W(), message);
        assert streams == streams - {message};
        return;
      }
      var stream := streams[message];
      SameButReflexive(W(), message);
      hide StreamOk, WorldOk, SameBut;
      if canStream {
        var _ := PauseTaskStream(message, stream);
      }
      OneStreamChanged(message);
      streams := streams - {message};
    }

    // ---- Send ------------------------------------------------------------------------------

    /** A running card of a task. */
    method SendProgress(msg: Message) returns (reply: Reply)
      requires Valid() && IsTaskStreamProgress(msg) && canStream
      modifies this`streams, this`table, api, streams.Values
      ensures Valid() && fresh(streams.Values - old(streams.Values))
      ensures ShownOrNot(old(api.cards), api.cards, msg)
      ensures reply == Success ==> msg.update in api.cards && api.cards[msg.update] == Render(msg)
      ensures (msg.update in old(streams) && old(Shows(msg, streams[msg.update])) ==>
                 reply == Success && W() == old(W()) && api.patches == old(api.patches))
      ensures msg.update in streams
      ensures (msg.update in old(streams) && old(DiffersInDetail(msg, streams[msg.update])) && !streams[msg.update].unavailable ==>
                 api.patches == old(api.patches))
      ensures MoreTrouble(old(api.Troubles()), api.Troubles())
      ensures OnlyRefusals(old(api.Troubles()), api.Troubles()) ==> reply == Success
      ensures reply == Success ==> streams[msg.update].unavailable || Shows(msg, streams[msg.update])
    {
      var stream := TaskStream(msg.update);
      label before:
      hide StreamOk, WorldOk, SameBut, Render, TaskStreamKey, Streams, ShownOrNot;
      reply := StreamTaskProgress(msg, stream);
      OneStreamChanged@before(msg.update);
    }

    /** Any other update of a card closes its stream and patches. */
    method SendUpdate(msg: Message) returns (reply: Reply)
      requires Valid() && msg.update != NO_ID && !(IsTaskStreamProgress(msg) && canStream)
      modifies this`streams, this`table, api, streams.Values
      ensures Valid() && streams.Values <= old(streams.Values)
      ensures ShownOrNot(old(api.cards), api.cards, msg)
      ensures reply == Success ==> msg.update in api.cards && api.cards[msg.update] == Render(msg)
      ensures MoreTrouble(old(api.Troubles()), api.Troubles())
      ensures OnlyRefusals(old(api.Troubles()), api.Troubles()) ==> reply == Success
      ensures (api.faults == old(api.faults) && canStream && msg.update in old(streams) && old(streams[msg.update].active) ==>
                 msg.update !in api.streaming)
      ensures api.patches <= old(api.patches) + MaxRetries(msg.maxAttempts) + 1
    {
      if !IsTaskStreamProgress(msg) {
        CloseTaskStream(msg.update);
      }
      label closed:
      hide StreamOk, Render;
      ghost var canceled;
      reply, canceled := PatchWithRetry(msg.update, Render(msg), msg.maxAttempts);
      NoStreamChanged@closed(msg.update);
    }

    /** Remembers a card just sent, if it is one to stream into. */
    method StartIfStreamed(msg: Message, message: Id)
      requires Valid() && msg.update == NO_ID && message in api.cards && api.cards[message] == Render(msg)
      requires message in streams ==> !streams[message].active
      modifies this`streams, this`table, api`streaming, api`lastSequence, api`faults, api`refusals, streams.Values
      ensures Valid() && fresh(streams.Values - old(streams.Values)) && MoreTrouble(old(api.Troubles()), api.Troubles())
      ensures IsTaskStreamStart(msg) && canStream ==> message in streams && Remembers(msg, streams[message])
      ensures api.faults == old(api.faults) && IsTaskStreamStart(msg) && canStream ==> streams[message].active
    {
      if IsTaskStreamStart(msg) && canStream {
        var stream := TaskStream(message);
        label before:
        hide StreamOk, WorldOk, SameBut, Render, TaskStreamKey;
        StartTaskStream(msg, message, stream);
        OneStreamChanged@before(message);
      }
    }

    /**
     A new card, with retries; the service may answer without a message id.  Unless the
     context ends, transient failures use up the attempts.
     */
    method SendWithRetry(card: Card, attempts: int) returns (reply: Reply, message: Id, ghost canceled: bool)
      modifies api`cards, api`sends, api`faults
      ensures if reply == Success && message != NO_ID
              then message !in old(api.cards) && api.cards == old(api.cards)[message := card]
              else api.cards == old(api.cards)
      ensures old(api.sends) <= api.sends <= old(api.sends) + MaxRetries(attempts) + 1
      ensures if reply == Success && message != NO_ID then api.faults >= old(api.faults) else api.faults > old(api.faults)
      ensures !canceled && reply == Transient ==> api.sends == old(api.sends) + MaxRetries(attempts) + 1
      ensures !canceled ==> (api.sends - old(api.sends) ==
                               api.faults - old(api.faults) + if reply == Success && message != NO_ID then 1 else 0)
    {
      var maxRetries := MaxRetries(attempts);
      var attempt := 0;
      reply, message, canceled := Permanent, NO_ID, false;
      while attempt <= maxRetries
        invariant 0 <= attempt <= maxRetries + 1
        invariant reply != Success && !canceled && api.cards == old(api.cards)
        invariant api.sends == old(api.sends) + attempt && api.faults == old(api.faults) + attempt
      {
        var expired: bool := *;
        if expired {
          canceled := true;
          reply := api.Failure();
          return;
        }
        reply, message := api.SendCard(card);
        if reply != Transient || attempt == maxRetries {
          return;
        }
        expired := *;
        if expired {
          canceled := true;
          reply := api.Failure();
          return;
        }
        attempt := attempt + 1;
      }
    }

    /** A new card beside the streams; an answer without a message id is an error. */
    method PlaceCard(msg: Message) returns (reply: Reply, message: Id)
      requires Valid()
      modifies api`cards, api`sends, api`faults
      ensures Valid() && (message in streams && reply == Success ==> !streams[message].active)
      ensures if reply == Success then message !in old(api.cards) && api.cards == old(api.cards)[message := Render(msg)]
              else api.cards == old(api.cards)
      ensures api.sends <= old(api.sends) + MaxRetries(msg.maxAttempts) + 1
      ensures MoreTrouble(old(api.Troubles()), api.Troubles())
      ensures OnlyRefusals(old(api.Troubles()), api.Troubles()) ==> reply == Success
    {
      hide StreamOk, Render;
      ghost var w := W();
      ghost var canceled;
      reply, message, canceled := SendWithRetry(Render(msg), msg.maxAttempts);
      if reply == Success && message == NO_ID {
        reply := Permanent;
      }
      if reply == Success {
        forall m | m in streams ensures StreamOk(W(), m, streams[m].State(m)) && (m == message ==> !streams[m].active) {
          CardAdded(w, message, Render(msg), m, streams[m].State(m));
        }
      }
    }

    method SendNew(msg: Message) returns (reply: Reply, message: Id)
      requires Valid() && msg.update == NO_ID
      modifies this`streams, this`table, api`cards, api`streaming, api`lastSequence, api`sends, api`faults, api`refusals, streams.Values
      ensures Valid() && fresh(streams.Values - old(streams.Values))
      ensures if reply == Success then message !in old(api.cards) && api.cards == old(api.cards)[message := Render(msg)]
              else api.cards == old(api.cards)
      ensures api.sends <= old(api.sends) + MaxRetries(msg.maxAttempts) + 1
      ensures MoreTrouble(old(api.Troubles()), api.Troubles())
      ensures OnlyRefusals(old(api.Troubles()), api.Troubles()) ==> reply == Success
      ensures reply == Success && IsTaskStreamStart(msg) && canStream ==> message in streams && Remembers(msg, streams[message])
      ensures api.faults == old(api.faults) && IsTaskStreamStart(msg) && canStream ==> streams[message].active
    {
      reply, message := PlaceCard(msg);
      if reply == Success {
        StartIfStreamed(msg, message);
      }
    }

    /**
     `Send`.  Whatever was sent before and whatever failed: success leaves the card
     that a full patch would leave, failure leaves that card or the old one, no other
     card changes, and a running card that is already shown costs no call at all.
     */
    method Send(msg: Message) returns (reply: Reply, message: Id)
      requires Valid()
      modifies this`streams, this`table, api, streams.Values
      ensures Valid() && fresh(streams.Values - old(streams.Values))
      ensures reply == Success ==> message in api.cards && api.cards[message] == Render(msg)
      ensures msg.update != NO_ID ==> message == msg.update && ShownOrNot(old(api.cards), api.cards, msg)
      ensures (msg.update == NO_ID ==>
                 if reply == Success then message !in old(api.cards) && api.cards == old(api.cards)[message := Render(msg)]
                 else api.cards == old(api.cards))
      ensures (canStream && IsTaskStreamProgress(msg) && msg.update in old(streams) && old(Shows(msg, streams[msg.update])) ==>
                 reply == Success && W() == old(W()) && api.patches == old(api.patches))
      ensures (canStream && IsTaskStreamProgress(msg) && msg.update in old(streams) && old(DiffersInDetail(msg, streams[msg.update])) ==>
                 msg.update in streams && (!streams[msg.update].unavailable ==> api.patches == old(api.patches)))
      ensures MoreTrouble(old(api.Troubles()), api.Troubles())
      ensures OnlyRefusals(old(api.Troubles()), api.Troubles()) ==> reply == Success
      ensures (reply == Success && canStream && IsTaskStreamProgress(msg) ==>
                 msg.update in streams && (streams[msg.update].unavailable || Shows(msg, streams[msg.update])))
      ensures (reply == Success && canStream && IsTaskStreamStart(msg) ==>
                 message in streams && Remembers(msg, streams[message]) && (api.faults == old(api.faults) ==> streams[message].active))
    {
      hide Valid, Render, ShownOrNot, Shows, DiffersInDetail, Remembers;
      message := msg.update;
      if msg.update == NO_ID {
        reply, message := SendNew(msg);
      } else if IsTaskStreamProgress(msg) && canStream {
        reply := SendProgress(msg);
      } else {
        reply := SendUpdate(msg);
      }
    }
  }
}
