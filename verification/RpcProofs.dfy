/** What the JSON-RPC client keeps in every reachable state, and what its calls can rely on. */
module RpcProofs {
  import opened Tables
  import opened Rpc

  predicate IsSending(s: Shared, id: nat) {
    s.reader.Sending? && s.reader.msg.Response? && s.reader.msg.key == id
  }

  predicate IsSwept(s: Shared, id: nat) {
    s.shutdown.Sweeping? && id in s.shutdown.left
  }

  predicate HasSwept(s: Shared) {
    s.shutdown.Sweeping? || s.shutdown.Finished?
  }

  /** A message for this call is on its way or still possible. */
  predicate InFlight(s: Shared, id: nat) {
    id in s.pending || IsSending(s, id) || IsSwept(s, id) || Sent(s, id) != []
  }

  /** The channel of a call is in one place: the table, the reader's hands, the sweep, or it is filled. */
  ghost predicate OnePlace(s: Shared, id: nat) {
    && (id in s.pending ==> !IsSending(s, id) && !IsSwept(s, id) && Sent(s, id) == [])
    && (IsSending(s, id) ==> !IsSwept(s, id) && Sent(s, id) == [])
    && (IsSwept(s, id) ==> Sent(s, id) == [])
    && |Sent(s, id)| <= 1
    && (Sent(s, id) != [] ==> if Sent(s, id)[0].Failure? then HasSwept(s) else Sent(s, id)[0].key == id)
    && (InFlight(s, id) ==> id <= s.next)
  }

  ghost predicate SharedOk(s: Shared) {
    && (s.done <==> !s.shutdown.NotCalled? && !s.shutdown.Called?)
    && (HasSwept(s) ==> s.pending == {})
    && (s.reader.Sending? ==> s.reader.msg.Response?)
    && (s.reader.AwaitingShutdown? ==> !s.shutdown.NotCalled?)
    && (s.reader.Stopped? ==> s.done)
    && (forall id: nat :: OnePlace(s, id))
  }

  predicate HasId(pc: Pc) {
    pc.Lock? || pc.Insert? || pc.Write? || pc.AwaitShutdown? || pc.Wait? || pc.Remove? || pc.Returned?
  }

  predicate SameId(a: Pc, b: Pc) {
    HasId(a) && HasId(b) && a.id == b.id
  }

  ghost predicate ResultOk(s: Shared, id: nat, result: Result) {
    match result
    case Answer(msg) => Sent(s, id) == [msg]
    case Closed => s.done
    case _ => true
  }

  ghost predicate ThreadOk(s: Shared, t: nat, pc: Pc) {
    && (HasId(pc) ==> 1 <= pc.id <= s.next)
    && (pc.Lock? || pc.Insert? ==> !InFlight(s, pc.id))
    && (pc.Insert? <==> s.mutex == Some(t))
    && (pc.Insert? ==> !HasSwept(s))
    && (pc.Write? || pc.Wait? ==> InFlight(s, pc.id))
    && (pc.Remove? || pc.Returned? ==> ResultOk(s, pc.id, pc.result))
    && (pc.Returned? && pc.id in s.pending ==> pc.result.Closed?)
    && (pc.AwaitShutdown? || pc.AwaitClose? ==> !s.shutdown.NotCalled?)
    && (pc.CloseReturned? ==> s.shutdown.Finished? && s.reader.Stopped?)
  }

  ghost predicate Inv(s: Sys) {
    && SharedOk(s.shared)
    && (forall t :: t in s.threads ==> ThreadOk(s.shared, t, s.threads[t]))
    && (s.shared.mutex.Some? ==> s.shared.mutex.value in s.threads)
    && (forall t, u :: t in s.threads && u in s.threads && t != u ==> !SameId(s.threads[t], s.threads[u]))
  }

  // ---- Every step keeps it ---------------------------------------------------------------

  lemma CallerKeepsShared(s: Shared, t: nat, pc: Pc, choice: Choice)
    requires SharedOk(s) && ThreadOk(s, t, pc)
    ensures var (s', pc') := CallerStep(s, t, pc, choice);
            SharedOk(s') && ThreadOk(s', t, pc')
  {
    var (s', pc') := CallerStep(s, t, pc, choice);
    assert HasId(pc) ==> OnePlace(s, pc.id);
    assert OnePlace(s, s.next + 1);
    forall id: nat ensures OnePlace(s', id) {
      assert OnePlace(s, id);
    }
  }

  lemma OthersKeep(s: Shared, t: nat, pc: Pc, choice: Choice, u: nat, other: Pc)
    requires ThreadOk(s, t, pc) && ThreadOk(s, u, other) && t != u && !SameId(pc, other)
    ensures var (s', pc') := CallerStep(s, t, pc, choice);
            ThreadOk(s', u, other) && !SameId(pc', other)
  {
  }

  lemma ReaderKeepsShared(s: Shared, input: Input)
    requires SharedOk(s)
    ensures SharedOk(ReaderStep(s, input))
  {
    var s' := ReaderStep(s, input);
    forall id: nat ensures OnePlace(s', id) {
      assert OnePlace(s, id);
    }
  }

  lemma ReaderKeepsThreads(s: Shared, input: Input, t: nat, pc: Pc)
    requires SharedOk(s) && ThreadOk(s, t, pc)
    ensures ThreadOk(ReaderStep(s, input), t, pc)
  {
  }

  lemma ShutdownKeepsShared(s: Shared, id: nat)
    requires SharedOk(s)
    ensures SharedOk(ShutdownStep(s, id))
  {
    var s' := ShutdownStep(s, id);
    forall i: nat ensures OnePlace(s', i) {
      assert OnePlace(s, i);
    }
  }

  lemma ShutdownKeepsThreads(s: Shared, id: nat, t: nat, pc: Pc)
    requires SharedOk(s) && ThreadOk(s, t, pc)
    ensures ThreadOk(ShutdownStep(s, id), t, pc)
  {
  }

  lemma StepKeepsInv(s: Sys, a: Action)
    requires Inv(s) && Enabled(s, a)
    ensures Inv(Step(s, a))
  {
    hide SharedOk, ThreadOk, CallerStep, ReaderStep, ShutdownStep;
    match a
    case StartCall(t) => NewThread(s.shared, t, Begin, s);
    case StartClose(t) => NewThread(s.shared, t, Closing, s);
    case Caller(t, choice) =>
      CallerKeepsShared(s.shared, t, s.threads[t], choice);
      MutexStaysWithThreads(s.shared, t, s.threads[t], choice);
      forall u | u in s.threads && u != t
        ensures ThreadOk(Step(s, a).shared, u, s.threads[u]) && !SameId(Step(s, a).threads[t], s.threads[u])
      {
        OthersKeep(s.shared, t, s.threads[t], choice, u, s.threads[u]);
      }
    case Read(input) =>
      ReaderKeepsShared(s.shared, input);
      MutexIsNotTaken(s.shared, input, 0);
      forall t | t in s.threads ensures ThreadOk(ReaderStep(s.shared, input), t, s.threads[t]) {
        ReaderKeepsThreads(s.shared, input, t, s.threads[t]);
      }
    case Shut(id) =>
      ShutdownKeepsShared(s.shared, id);
      MutexIsNotTaken(s.shared, EndOfInput, id);
      forall t | t in s.threads ensures ThreadOk(ShutdownStep(s.shared, id), t, s.threads[t]) {
        ShutdownKeepsThreads(s.shared, id, t, s.threads[t]);
      }
  }

  lemma NewThread(s: Shared, t: nat, pc: Pc, sys: Sys)
    requires Inv(sys) && s == sys.shared && t !in sys.threads && (pc.Begin? || pc.Closing?)
    ensures ThreadOk(s, t, pc) && forall u :: u in sys.threads ==> !SameId(pc, sys.threads[u])
  {
  }

  lemma MutexStaysWithThreads(s: Shared, t: nat, pc: Pc, choice: Choice)
    ensures var m := CallerStep(s, t, pc, choice).0.mutex;
            m == s.mutex || m == None || m == Some(t)
  {
  }

  lemma MutexIsNotTaken(s: Shared, input: Input, id: nat)
    ensures ReaderStep(s, input).mutex == s.mutex && ShutdownStep(s, id).mutex == s.mutex
  {
  }

  lemma {:induction false} ReachableInv(states: seq<Sys>, actions: seq<Action>, i: nat)
    requires IsRun(states, actions) && i < |states|
    ensures Inv(states[i])
  {
    if i > 0 {
      hide Inv, Step;
      ReachableInv(states, actions, i - 1);
      StepKeepsInv(states[i - 1], actions[i - 1]);
    }
  }

  // ---- What calls can rely on ------------------------------------------------------------

  /** s is a state of a run of the client. */
  ghost predicate At(states: seq<Sys>, actions: seq<Action>, i: nat, s: Sys) {
    IsRun(states, actions) && i < |states| && states[i] == s
  }

  /** The server sent this response, and the read loop read it before step i. */
  ghost predicate WasRead(actions: seq<Action>, i: nat, msg: Msg) {
    msg.Response? && exists j: nat :: j < i && j < |actions| && actions[j] == Read(Message(msg.key, msg.payload))
  }

  /** Whatever the client holds of a response was read. */
  ghost predicate OnlyRead(s: Shared, actions: seq<Action>, i: nat) {
    && (s.reader.Taking? || s.reader.Sending? ==> WasRead(actions, i, s.reader.msg))
    && forall id: nat, k: nat :: k < |Sent(s, id)| && Sent(s, id)[k].Response? ==> WasRead(actions, i, Sent(s, id)[k])
  }

  lemma ReadStays(s: Shared, actions: seq<Action>, i: nat)
    requires OnlyRead(s, actions, i)
    ensures OnlyRead(s, actions, i + 1)
  {
  }

  /** A step that reads nothing new and sends only what the reader holds, or a failure. */
  lemma SendingAddsNothing(s: Shared, s': Shared, actions: seq<Action>, i: nat)
    requires OnlyRead(s, actions, i)
    requires s'.reader.Taking? || s'.reader.Sending? ==>
               ((s.reader.Taking? || s.reader.Sending?) && s'.reader.msg == s.reader.msg) || WasRead(actions, i + 1, s'.reader.msg)
    requires forall id: nat :: Sent(s', id) == Sent(s, id) || Sent(s', id) == Sent(s, id) + [Failure]
                               || (s.reader.Sending? && Sent(s', id) == Sent(s, id) + [s.reader.msg])
    ensures OnlyRead(s', actions, i + 1)
  {
    ReadStays(s, actions, i);
    hide WasRead, Sent;
    forall id: nat, k: nat | k < |Sent(s', id)| && Sent(s', id)[k].Response? ensures WasRead(actions, i + 1, Sent(s', id)[k]) {
      if k < |Sent(s, id)| {
        assert Sent(s', id)[k] == Sent(s, id)[k];
      }
    }
  }

  lemma ReaderOnlyReads(s: Shared, actions: seq<Action>, i: nat)
    requires i < |actions| && actions[i].Read? && OnlyRead(s, actions, i)
    ensures OnlyRead(ReaderStep(s, actions[i].input), actions, i + 1)
  {
    var input := actions[i].input;
    if s.reader.Reading? && input.Message? {
      assert WasRead(actions, i + 1, Response(input.key, input.payload));
    }
    hide WasRead, OnlyRead;
    SendingAddsNothing(s, ReaderStep(s, input), actions, i);
  }

  lemma ShutdownReadsNothing(s: Shared, id: nat, actions: seq<Action>, i: nat)
    requires OnlyRead(s, actions, i)
    ensures OnlyRead(ShutdownStep(s, id), actions, i + 1)
  {
    hide WasRead, OnlyRead;
    SendingAddsNothing(s, ShutdownStep(s, id), actions, i);
  }

  lemma CallerReadsNothing(s: Shared, t: nat, pc: Pc, choice: Choice, actions: seq<Action>, i: nat)
    requires OnlyRead(s, actions, i)
    ensures OnlyRead(CallerStep(s, t, pc, choice).0, actions, i + 1)
  {
    hide WasRead, OnlyRead;
    SendingAddsNothing(s, CallerStep(s, t, pc, choice).0, actions, i);
  }

  lemma {:induction false} NothingIsMadeUp(states: seq<Sys>, actions: seq<Action>, i: nat)
    requires IsRun(states, actions) && i < |states|
    ensures OnlyRead(states[i].shared, actions, i)
  {
    if i > 0 {
      NothingIsMadeUp(states, actions, i - 1);
      hide OnlyRead, CallerStep, ReaderStep, ShutdownStep;
      var s := states[i - 1];
      match actions[i - 1]
      case Caller(t, choice) => CallerReadsNothing(s.shared, t, s.threads[t], choice, actions, i - 1);
      case Read(input) => ReaderOnlyReads(s.shared, actions, i - 1);
      case Shut(id) => ShutdownReadsNothing(s.shared, id, actions, i - 1);
      case _ => ReadStays(s.shared, actions, i - 1);
    }
  }

  /**
   A call returns what was sent into its own channel and nothing else: a response
   bears the call's id and was read from the server with this payload, a failure of
   the shutdown is returned as a failure; the errors of the shutdown are seen only
   after `done` is closed, no two calls share an id, and a call leaves its entry
   behind only for the sweep of a shutdown.
   */
  lemma CallsGetTheirOwnAnswer(states: seq<Sys>, actions: seq<Action>, i: nat, s: Sys, t: nat, u: nat)
    requires At(states, actions, i, s) && t in s.threads && s.threads[t].Returned?
    ensures var (id, result) := (s.threads[t].id, s.threads[t].result);
            && (result.Answer? ==> Sent(s.shared, id) == [result.msg] && id !in s.shared.pending)
            && (result.Answer? && result.msg.Response? ==> result.msg.key == id && WasRead(actions, i, result.msg))
            && (result.Closed? || result == Answer(Failure) ==> s.shared.done)
            && (id in s.shared.pending ==> result.Closed?)
            && (u in s.threads && u != t && s.threads[u].Returned? ==> s.threads[u].id != id)
  {
    ReachableInv(states, actions, i);
    NothingIsMadeUp(states, actions, i);
    hide IsRun, WasRead;
    var id := s.threads[t].id;
    assert ThreadOk(s.shared, t, s.threads[t]) && OnePlace(s.shared, id);
    assert u in s.threads && u != t ==> !SameId(s.threads[t], s.threads[u]);
    assert |Sent(s.shared, id)| > 0 && Sent(s.shared, id)[0].Response? ==> WasRead(actions, i, Sent(s.shared, id)[0]);
  }

  /**
   The answer of the server reaches the call that waits for it: the read loop takes
   the message, finds the channel, sends into it without blocking and goes on, and
   the call returns this message.
   */
  lemma AnswerReachesItsCall(states: seq<Sys>, actions: seq<Action>, i: nat, s: Sys, t: nat, payload: nat, input: Input)
    requires At(states, actions, i, s) && t in s.threads && s.threads[t].Wait? && s.threads[t].id in s.shared.pending
    requires s.shared.reader.Reading? && s.shared.mutex.None?
    ensures var id := s.threads[t].id;
            var read := Step(s, Read(Message(id, payload)));
            var took := Step(read, Read(input));
            var sent := Step(took, Read(input));
            && sent.shared.reader.Reading? && id !in took.shared.pending
            && Step(sent, Caller(t, ByAnswer)).threads[t] == Returned(id, Answer(Response(id, payload)))
  {
    ReachableInv(states, actions, i);
    assert OnePlace(s.shared, s.threads[t].id);
  }

  /**
   How a call ends that cannot be written: one that cannot be encoded is forgotten;
   after `done` it ends as closed; a failed write calls the shutdown, waits for its
   end, and ends as not written.
   */
  lemma WriteEnds(states: seq<Sys>, actions: seq<Action>, i: nat, s: Sys, t: nat, choice: Choice)
    requires At(states, actions, i, s) && t in s.threads && s.threads[t].Write? && s.shared.mutex.None?
    ensures var written := Step(s, Caller(t, choice));
            var left := Step(written, Caller(t, choice));
            var forgotten := s.shared.pending - {s.threads[t].id};
            if choice.EncodeFails? then left.threads[t] == Returned(s.threads[t].id, NotWritten) && left.shared.pending == forgotten
            else if s.shared.done then left.threads[t] == Returned(s.threads[t].id, Closed) && left.shared.pending == forgotten
            else if choice.WriteFails? then
              && !written.shared.shutdown.NotCalled? && (s.shared.shutdown.Finished? || left == written)
            else written.threads[t].Wait? && written.shared == s.shared
    ensures s.shared.shutdown.Finished? ==>
              var left := Step(s.(threads := s.threads[t := AwaitShutdown(s.threads[t].id)]), Caller(t, choice));
              left.threads[t] == Remove(s.threads[t].id, NotWritten)
  {
    ReachableInv(states, actions, i);
    hide OnePlace;
  }

  /** How a wait ends: with the message in the channel, with the context after forgetting the call, or with `done`. */
  lemma WaitEnds(states: seq<Sys>, actions: seq<Action>, i: nat, s: Sys, t: nat, msg: Msg)
    requires At(states, actions, i, s) && t in s.threads && s.threads[t].Wait?
    ensures msg in Sent(s.shared, s.threads[t].id) ==>
              Step(s, Caller(t, ByAnswer)).threads[t] == Returned(s.threads[t].id, Answer(msg))
    ensures s.shared.done ==> Step(s, Caller(t, ByDone)).threads[t] == Returned(s.threads[t].id, Closed)
    ensures s.shared.mutex.None? ==>
              var left := Step(Step(s, Caller(t, ByContext)), Caller(t, ByContext));
              left.threads[t] == Returned(s.threads[t].id, Abandoned) && left.shared.pending == s.shared.pending - {s.threads[t].id}
  {
    ReachableInv(states, actions, i);
    assert OnePlace(s.shared, s.threads[t].id);
  }

  /**
   At most one message ever goes into a response channel, so neither the read loop
   nor the shutdown ever blocks on one.
   */
  lemma ChannelsNeverBlock(states: seq<Sys>, actions: seq<Action>, i: nat, s: Sys, id: nat)
    requires At(states, actions, i, s)
    ensures |Sent(s.shared, id)| <= 1
    ensures IsSending(s.shared, id) || IsSwept(s.shared, id) ==> HasRoom(s.shared, id)
  {
    ReachableInv(states, actions, i);
    assert OnePlace(s.shared, id);
  }

  /**
   No call waits for nothing: its channel is in the table, in the reader's hands,
   in the sweep, or filled; after the shutdown only the reader can still owe it.
   */
  lemma NobodyWaitsForNothing(states: seq<Sys>, actions: seq<Action>, i: nat, s: Sys, t: nat)
    requires At(states, actions, i, s) && t in s.threads && s.threads[t].Wait?
    ensures InFlight(s.shared, s.threads[t].id)
    ensures s.shared.shutdown.Finished? ==> Sent(s.shared, s.threads[t].id) != [] || IsSending(s.shared, s.threads[t].id)
  {
    ReachableInv(states, actions, i);
    assert ThreadOk(s.shared, t, s.threads[t]);
  }

  lemma StepKeepsSwept(s: Sys, a: Action)
    requires Inv(s) && Enabled(s, a) && HasSwept(s.shared)
    ensures HasSwept(Step(s, a).shared)
  {
    hide OnePlace;
  }

  /** Once the pending calls were failed, the table is empty forever. */
  lemma {:induction false} TableStaysEmpty(states: seq<Sys>, actions: seq<Action>, i: nat, j: nat)
    requires IsRun(states, actions) && i <= j < |states| && HasSwept(states[i].shared)
    ensures HasSwept(states[j].shared) && states[j].shared.pending == {}
  {
    hide OnePlace, Step;
    ReachableInv(states, actions, j);
    if i < j {
      TableStaysEmpty(states, actions, i, j - 1);
      ReachableInv(states, actions, j - 1);
      StepKeepsSwept(states[j - 1], actions[j - 1]);
    }
  }

  // ---- The shutdown --------------------------------------------------------------------------

  predicate IsUnderWay(s: Shared) {
    !s.shutdown.NotCalled? && !s.shutdown.Finished?
  }

  /** The steps the shutdown has left before its sweep; and after it took the table, the channels left in it. */
  function Ahead(s: Shared): (int, int) {
    match s.shutdown
    case NotCalled => (5, 0)
    case Called => (4, 0)
    case DoneClosed => (3, 0)
    case HandlesClosed => (2, if s.mutex.Some? then 1 else 0)
    case Sweeping(left) => (1, |left|)
    case Finished => (0, 0)
  }

  predicate Nearer(a: (int, int), b: (int, int)) {
    a.0 < b.0 || (a.0 == b.0 && a.1 < b.1)
  }

  /**
   The shutdown never blocks: while it is under way, a step of its own, or of the one
   call that holds the table's mutex, brings it nearer to its end.
   */
  lemma ShutdownAdvances(states: seq<Sys>, actions: seq<Action>, i: nat, s: Sys) returns (a: Action)
    requires At(states, actions, i, s) && IsUnderWay(s.shared)
    ensures Enabled(s, a) && Nearer(Ahead(Step(s, a).shared), Ahead(s.shared))
  {
    ReachableInv(states, actions, i);
    hide OnePlace, IsRun;
    a := Shut(0);
    match s.shared.shutdown
    case HandlesClosed =>
      if s.shared.mutex.Some? {
        var t := s.shared.mutex.value;
        assert ThreadOk(s.shared, t, s.threads[t]);
        a := Caller(t, Fine);
      }
    case Sweeping(left) =>
      if left != {} {
        var id: nat :| id in left;
        SweptHasRoom(s.shared, id);
        a := Shut(id);
      }
    case _ =>
  }

  lemma SweptHasRoom(s: Shared, id: nat)
    requires SharedOk(s) && IsSwept(s, id)
    ensures HasRoom(s, id)
  {
    assert OnePlace(s, id);
  }

  /**
   Whoever waits for the shutdown waits for one that was called; the read loop ends
   only once `done` is closed, and `Close` returns only after both.
   */
  lemma ShutdownIsAwaitedOnceCalled(states: seq<Sys>, actions: seq<Action>, i: nat, s: Sys, t: nat)
    requires At(states, actions, i, s) && t in s.threads
    ensures s.shared.shutdown.NotCalled? ==>
              !s.threads[t].AwaitShutdown? && !s.threads[t].AwaitClose? && !s.shared.reader.AwaitingShutdown? && !s.shared.done
    ensures s.shared.reader.Stopped? ==> s.shared.done
    ensures s.threads[t].CloseReturned? ==> s.shared.shutdown.Finished? && s.shared.reader.Stopped? && s.shared.pending == {}
  {
    ReachableInv(states, actions, i);
    hide OnePlace;
    assert ThreadOk(s.shared, t, s.threads[t]);
  }
}
