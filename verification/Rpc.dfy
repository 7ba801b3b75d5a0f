/**
 The JSON-RPC client: concurrent calls register in a pending table, the read loop
 answers them, and one shutdown races with both.  `close(done)` does not take the
 table's mutex, so the mutex is a variable here and not just an atomic step.
 */
module Rpc {
  import opened Tables

  /** A message in a response channel; key 0 stands for an id the client cannot read. */
  datatype Msg = Response(key: nat, payload: nat) | Failure

  /** How `Call` returns. */
  datatype Result = Answer(msg: Msg) | Closed | Abandoned | NotWritten

  datatype Pc =
    | Begin
    | Lock(id: nat)
    | Insert(id: nat)
    | Write(id: nat)
    | AwaitShutdown(id: nat)
    | Wait(id: nat)
    | Remove(id: nat, result: Result)
    | Returned(id: nat, result: Result)
    | Closing
    | AwaitClose
    | CloseReturned

  datatype Reader = Reading | Taking(msg: Msg) | Sending(msg: Msg) | AwaitingShutdown | Stopped

  /** The one run of `shutdown`; whoever calls it waits for it to finish. */
  datatype Shutdown = NotCalled | Called | DoneClosed | HandlesClosed | Sweeping(left: set<nat>) | Finished

  /** The table holds the channel of a call under its id; `sent` is all that ever went into each channel. */
  datatype Shared = Shared(
    next: nat,
    pending: set<nat>,
    done: bool,
    mutex: Option<nat>,
    shutdown: Shutdown,
    reader: Reader,
    sent: map<nat, seq<Msg>>)

  datatype Sys = Sys(shared: Shared, threads: map<nat, Pc>)

  function Sent(s: Shared, id: nat): seq<Msg> {
    if id in s.sent then s.sent[id] else []
  }

  /** A channel has room for one message. */
  predicate HasRoom(s: Shared, id: nat) {
    Sent(s, id) == []
  }

  function Put(s: Shared, id: nat, msg: Msg): Shared {
    s.(sent := s.sent[id := Sent(s, id) + [msg]])
  }

  function CallShutdown(s: Shared): Shared {
    if s.shutdown.NotCalled? then s.(shutdown := Called) else s
  }

  // ---- Callers -----------------------------------------------------------------------------

  /** What a caller finds when it looks: a write that works or not, and why its wait ends. */
  datatype Choice = Fine | WriteFails | EncodeFails | ByAnswer | ByContext | ByDone

  function WaitStep(s: Shared, id: nat, choice: Choice): Pc {
    match choice
    case ByAnswer => if Sent(s, id) != [] then Returned(id, Answer(Sent(s, id)[0])) else Wait(id)
    case ByContext => Remove(id, Abandoned)
    case ByDone => if s.done then Returned(id, Closed) else Wait(id)
    case _ => Wait(id)
  }

  function WriteStep(s: Shared, id: nat, choice: Choice): (Shared, Pc) {
    if choice.EncodeFails? then (s, Remove(id, NotWritten))
    else if s.done then (s, Remove(id, Closed))
    else if choice.WriteFails? then (CallShutdown(s), AwaitShutdown(id))
    else (s, Wait(id))
  }

  function CallerStep(s: Shared, t: nat, pc: Pc, choice: Choice): (Shared, Pc) {
    match pc
    case Begin => (s.(next := s.next + 1), Lock(s.next + 1))
    case Lock(id) =>
      if s.mutex.Some? then (s, pc)
      else if s.done then (s, Returned(id, Closed))
      else (s.(mutex := Some(t)), Insert(id))
    case Insert(id) => (s.(pending := s.pending + {id}, mutex := None), Write(id))
    case Write(id) => WriteStep(s, id, choice)
    case AwaitShutdown(id) => (s, if s.shutdown.Finished? then Remove(id, NotWritten) else pc)
    case Wait(id) => (s, WaitStep(s, id, choice))
    case Remove(id, result) =>
      if s.mutex.Some? then (s, pc) else (s.(pending := s.pending - {id}), Returned(id, result))
    case Closing => (CallShutdown(s), AwaitClose)
    case AwaitClose => (s, if s.shutdown.Finished? && s.reader.Stopped? then CloseReturned else pc)
    case _ => (s, pc)
  }

  // ---- The read loop -------------------------------------------------------------------------

  /** What the server sends next; a request or event is dropped once `done` is closed, and the loop ends. */
  datatype Input = Message(key: nat, payload: nat) | Unpublished | EndOfInput

  function ReaderStep(s: Shared, input: Input): Shared {
    match s.reader
    case Reading =>
      (match input
       case Message(key, payload) => s.(reader := Taking(Response(key, payload)))
       case Unpublished => if s.done then s.(reader := Stopped) else s
       case EndOfInput => CallShutdown(s).(reader := AwaitingShutdown))
    case Taking(msg) =>
      if s.mutex.Some? then s
      else if msg.Response? && msg.key in s.pending then s.(pending := s.pending - {msg.key}, reader := Sending(msg))
      else s.(reader := Reading)
    case Sending(msg) =>
      if msg.Response? && HasRoom(s, msg.key) then Put(s, msg.key, msg).(reader := Reading) else s
    case AwaitingShutdown => if s.shutdown.Finished? then s.(reader := Stopped) else s
    case Stopped => s
  }

  // ---- Shutdown ------------------------------------------------------------------------------

  function ShutdownStep(s: Shared, id: nat): Shared {
    match s.shutdown
    case NotCalled => s
    case Called => s.(done := true, shutdown := DoneClosed)
    case DoneClosed => s.(shutdown := HandlesClosed)
    case HandlesClosed => if s.mutex.Some? then s else s.(pending := {}, shutdown := Sweeping(s.pending))
    case Sweeping(left) =>
      if left == {} then s.(shutdown := Finished)
      else if id in left && HasRoom(s, id) then Put(s, id, Failure).(shutdown := Sweeping(left - {id}))
      else s
    case Finished => s
  }

  // ---- The system ----------------------------------------------------------------------------

  datatype Action =
    | StartCall(t: nat)
    | StartClose(t: nat)
    | Caller(t: nat, choice: Choice)
    | Read(input: Input)
    | Shut(id: nat)

  predicate Enabled(s: Sys, a: Action) {
    match a
    case StartCall(t) => t !in s.threads
    case StartClose(t) => t !in s.threads
    case Caller(t, _) => t in s.threads
    case _ => true
  }

  function Step(s: Sys, a: Action): Sys
    requires Enabled(s, a)
  {
    match a
    case StartCall(t) => s.(threads := s.threads[t := Begin])
    case StartClose(t) => s.(threads := s.threads[t := Closing])
    case Caller(t, choice) =>
      var (shared', pc') := CallerStep(s.shared, t, s.threads[t], choice);
      Sys(shared', s.threads[t := pc'])
    case Read(input) => s.(shared := ReaderStep(s.shared, input))
    case Shut(id) => s.(shared := ShutdownStep(s.shared, id))
  }

  const START := Sys(Shared(0, {}, false, None, NotCalled, Reading, map[]), map[])

  ghost predicate IsRun(states: seq<Sys>, actions: seq<Action>) {
    && |states| == |actions| + 1
    && states[0] == START
    && forall i :: 0 <= i < |actions| ==> Enabled(states[i], actions[i]) && states[i + 1] == Step(states[i], actions[i])
  }
}
