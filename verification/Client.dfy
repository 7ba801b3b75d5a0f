/**
 The client's own table: the pending map of response channels, updated in place.
 Each method is one mutex region of the client and the channel sends that follow
 it, and is proved to do what the steps of `Rpc` do.
 */
module Client {
  import opened Tables
  import opened Rpc

  /** A channel with room for one message; the model keeps all that was ever sent. */
  class Channel {
    var sent: seq<Msg>

    constructor ()
      ensures sent == []
    {
      sent := [];
    }

    /** With the buffer full a send would block for ever: the caller must know that there is room. */
    method Send(msg: Msg)
      requires sent == []
      modifies this
      ensures sent == old(sent) + [msg]
    {
      sent := sent + [msg];
    }
  }

  class Client {
    var next: nat
    var pending: map<nat, Channel>
    var done: bool
    ghost var channels: map<nat, Channel>

    ghost predicate Valid()
      reads this, channels.Values
    {
      && (forall id :: id in pending ==> id in channels && channels[id] == pending[id] && pending[id].sent == [])
      && (forall id :: id in channels ==> 1 <= id <= next)
      && (forall i, j :: i in channels && j in channels && i != j ==> channels[i] != channels[j])
    }

    /** The state of `Rpc` this table is part of. */
    ghost function State(mutex: Option<nat>, shutdown: Shutdown, reader: Reader): Shared
      reads this, channels.Values
    {
      Shared(next, pending.Keys, done, mutex, shutdown, reader, map id | id in channels :: channels[id].sent)
    }

    constructor ()
      ensures Valid() && State(None, NotCalled, Reading) == START.shared
    {
      next, pending, done, channels := 0, map[], false, map[];
    }

    /** `Call` up to the write: `Begin`, `Lock` and `Insert` in a row, or the refusal after `close(done)`. */
    method Register(ghost t: nat) returns (id: nat, ok: bool)
      requires Valid()
      modifies this
      ensures Valid() && id == next == old(next) + 1 && done == old(done) && ok == !done
      ensures forall c :: c in old(channels) ==> c in channels && channels[c] == old(channels)[c]
      ensures var begun := CallerStep(old(State(None, NotCalled, Reading)), t, Begin, Fine);
              var locked := CallerStep(begun.0, t, begun.1, Fine);
              var inserted := CallerStep(locked.0, t, locked.1, Fine);
              && (ok ==> inserted.1 == Write(id) && SameTable(inserted.0, State(None, NotCalled, Reading)))
              && (!ok ==> locked.1 == Returned(id, Closed) && SameTable(locked.0, State(None, NotCalled, Reading)))
    {
      next := next + 1;
      id := next;
      var channel := new Channel();
      if done {
        return id, false;
      }
      pending := pending[id := channel];
      channels := channels[id := channel];
      ok := true;
    }

    /** `deliverResponse`: the call waiting under this key gets the message, once; anything else is dropped. */
    method DeliverResponse(msg: Msg)
      requires Valid() && msg.Response?
      modifies this`pending, channels.Values
      ensures Valid() && pending == old(pending) - {msg.key}
      ensures forall id :: id in channels ==>
                channels[id].sent == if id == msg.key && id in old(pending) then [msg] else old(channels[id].sent)
    {
      if msg.key in pending {
        var channel := pending[msg.key];
        pending := pending - {msg.key};
        channel.Send(msg);
      } else {
        assert pending == pending - {msg.key};
      }
    }

    method RemovePending(id: nat)
      requires Valid()
      modifies this`pending
      ensures Valid() && pending == old(pending) - {id}
    {
      pending := pending - {id};
    }

    /** `failPending`: the table is swapped for an empty one, then every call in it is failed. */
    method FailPending()
      requires Valid()
      modifies this`pending, channels.Values
      ensures Valid() && pending == map[]
      ensures forall id :: id in channels ==>
                channels[id].sent == if id in old(pending) then [Failure] else old(channels[id].sent)
    {
      var swept := pending;
      pending := map[];
      var left := swept.Keys;
      while left != {}
        invariant left <= swept.Keys && pending == map[]
        invariant forall id :: id in channels ==>
                    channels[id].sent == if id in swept && id !in left then [Failure] else old(channels[id].sent)
        decreases left
      {
        var id :| id in left;
        swept[id].Send(Failure);
        left := left - {id};
      }
    }
  }

  /** The same table, ids and channels, whatever the shutdown and the reader are about. */
  ghost predicate SameTable(a: Shared, b: Shared) {
    a.next == b.next && a.pending == b.pending && a.done == b.done && a.mutex == b.mutex && forall id: nat :: Sent(a, id) == Sent(b, id)
  }

  // ---- The methods and the steps of `Rpc` -----------------------------------------------------------------

  /** The read loop's two steps on a response have the effect `Client.DeliverResponse` promises. */
  lemma DeliveryIsTakeAndSend(s: Shared, msg: Msg, input: Input, id: nat)
    requires s.mutex.None? && s.reader == Taking(msg) && msg.Response?
    requires msg.key in s.pending ==> Sent(s, msg.key) == []
    ensures var took := ReaderStep(s, input);
            var s' := if took.reader.Sending? then ReaderStep(took, input) else took;
            && s'.reader == Reading && s'.pending == s.pending - {msg.key} && s'.done == s.done && s'.next == s.next
            && Sent(s', id) == if id == msg.key && id in s.pending then [msg] else Sent(s, id)
  {
    if msg.key !in s.pending {
      assert s.pending - {msg.key} == s.pending;
    }
  }

  /** The sweep of `Rpc`, in the order the map hands out its keys. */
  ghost function Sweep(s: Shared, order: seq<nat>): Shared
    decreases |order|
  {
    if order == [] then s else Sweep(ShutdownStep(s, order[0]), order[1..])
  }

  /** Any order does what `FailPending` does: every call of the table gets the failure, no other channel anything. */
  lemma {:induction false} SweepFailsAll(s: Shared, order: seq<nat>)
    requires s.shutdown.Sweeping? && (forall id :: id in order <==> id in s.shutdown.left)
    requires forall i, j :: 0 <= i < j < |order| ==> order[i] != order[j]
    requires forall id :: id in s.shutdown.left ==> Sent(s, id) == []
    ensures var s' := Sweep(s, order);
            && s'.shutdown == Sweeping({}) && s'.pending == s.pending && s'.done == s.done && s'.next == s.next
            && forall id: nat :: Sent(s', id) == if id in s.shutdown.left then [Failure] else Sent(s, id)
    decreases |order|
  {
    if order == [] {
      assert s.shutdown.left == {};
    } else {
      var s1 := ShutdownStep(s, order[0]);
      assert order[0] in order;
      forall id | id in order[1..] ensures id in s1.shutdown.left {
        var i :| 0 <= i < |order[1..]| && order[1..][i] == id;
        assert order[i + 1] == id;
      }
      forall id | id in s1.shutdown.left ensures id in order[1..] {
        var i :| 0 <= i < |order| && order[i] == id;
        assert order[1..][i - 1] == id;
      }
      SweepFailsAll(s1, order[1..]);
    }
  }
}
