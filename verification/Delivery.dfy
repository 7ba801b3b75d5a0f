/**
 Card delivery of one run: any number of goroutines offer progress, flush it,
 finish the run and deliver its result card, interleaved at every mutex region,
 channel operation and API call.
 */
module Delivery {
  import opened Tables
  import opened Progress

  /** `NewController` replaces anything that is not positive by a default. */
  datatype Config = Config(interval: int, retryDelay: int, attempts: int, hasCard: bool) {
    ghost predicate Valid() {
      interval > 0 && retryDelay > 0 && attempts > 0
    }
  }

  /** The calls of `sendTerminal`: the first, the retries numbered from 1, the fallback. */
  datatype Call = First | Again(attempt: int) | Fallback

  datatype Pc =
    // `sendProgress` and `flushProgress`
    | Offering(presentation: Presentation, force: bool)
    | Starting
    | Stopping
    | Loop
    | ReadClock
    | Deciding(now: int)
    | Asleep
    | WantCard(taken: Presentation)
    | CheckTerminal(taken: Presentation)
    | Notify(taken: Presentation)
    | Notifying(taken: Presentation)
    | Retrying(taken: Presentation)
    | RetryingAt(taken: Presentation, until: int)
    // `finish`
    | Finishing
    | Cancelling
    | Persisting
    | WantResult(call: Call)
    | SendResult(call: Call)
    | SendingResult(call: Call)
    | StartRetries
    | Pausing(attempt: int)
    | Done

  /** How an API or store call ends. */
  datatype Reply = Success | Transient | Permanent

  /** What a run of the goroutines leaves in the log of its card. */
  datatype Event =
    | Offered(presentation: Presentation, force: bool)
    | Took(presentation: Presentation, at: int, forced: bool)
    | Retried(presentation: Presentation, until: int)
    | ProgressCall(presentation: Presentation)
    | ProgressEnd(reply: Reply, at: int)
    | Committed
    | TerminalCall(creates: bool)
    | TerminalEnd(reply: Reply)

  /** What the goroutines share; `token` (who is the worker), `winner` and `log` are history. */
  datatype Shared = Shared(
    q: Queue,
    card: Option<nat>,      // who holds `cardMu`
    canceled: bool,
    closed: bool,
    clock: int,
    token: Option<nat>,
    winner: Option<nat>,
    log: seq<Event>)

  datatype Sys = Sys(shared: Shared, threads: map<nat, Pc>)

  /** A wait ends because something is ready. */
  datatype Ready = ByCancel | ByWake | ByTimer

  function Logged(s: Shared, e: Event): Shared {
    s.(log := s.log + [e])
  }

  /** Only the fallback, or any call of a run without a card, creates a card. */
  predicate Creates(config: Config, call: Call) {
    call.Fallback? || !config.hasCard
  }

  // ---- `sendProgress` and `flushProgress` ------------------------------------------------

  function OfferStep(s: Shared, t: nat, p: Presentation, force: bool): (Shared, Pc) {
    var (q, start) := Offer(s.q, p, force);
    var s' := if s.q.terminal then s else Logged(s.(q := q), Offered(p, force));
    if start then (s'.(token := Some(t)), Starting) else (s', Done)
  }

  function DecideStep(s: Shared, config: Config, now: int): (Shared, Pc) {
    var (q, verdict) := Next(s.q, now, config.interval);
    match verdict
    case Exit => (s.(q := q, token := None), Done)
    case Wait(_) => (s.(q := q), Asleep)
    case Take(p) => (Logged(s.(q := q), Took(p, now, s.q.force)), WantCard(p))
  }

  function AsleepStep(s: Shared, ready: Ready): (Shared, Pc) {
    match ready
    case ByCancel => (s, if s.canceled then Stopping else Asleep)
    case ByWake => if s.q.wake then (s.(q := s.q.(wake := false)), Loop) else (s, Asleep)
    case ByTimer => (s, Loop)
  }

  function RetryStep(s: Shared, p: Presentation, until: int): (Shared, Pc) {
    (if s.q.terminal then s else Logged(s.(q := Retry(s.q, p, until)), Retried(p, until)), Loop)
  }

  /** `flushProgress` while it holds no presentation. */
  function WorkerStep(s: Shared, config: Config, pc: Pc, ready: Ready): (Shared, Pc) {
    match pc
    case Starting => (s, if s.closed then Stopping else Loop)
    case Stopping => (s.(q := s.q.(worker := false), token := None), Done)
    case Loop => (s, if s.canceled then Stopping else ReadClock)
    case ReadClock => (s, Deciding(s.clock))
    case Deciding(now) => DecideStep(s, config, now)
    case Asleep => AsleepStep(s, ready)
    case _ => (s, pc)
  }

  /** `flushProgress` with the presentation it took. */
  function CarryStep(s: Shared, config: Config, t: nat, pc: Pc, reply: Reply): (Shared, Pc) {
    match pc
    case WantCard(p) => if s.card.None? then (s.(card := Some(t)), CheckTerminal(p)) else (s, pc)
    case CheckTerminal(p) => if s.q.terminal then (s.(card := None), Loop) else (s, Notify(p))
    case Notify(p) => (Logged(s, ProgressCall(p)), Notifying(p))
    case Notifying(p) => (Logged(s.(card := None), ProgressEnd(reply, s.clock)), if reply.Transient? then Retrying(p) else Loop)
    case Retrying(p) => (s, RetryingAt(p, s.clock + config.retryDelay))
    case RetryingAt(p, until) => RetryStep(s, p, until)
    case _ => (s, pc)
  }

  predicate HasTaken(pc: Pc) {
    || pc.WantCard? || pc.CheckTerminal? || pc.Notify? || pc.Notifying? || pc.Retrying? || pc.RetryingAt?
  }

  // ---- `finish` --------------------------------------------------------------------------

  function FinishStep(s: Shared, t: nat): (Shared, Pc) {
    if s.q.terminal then (s, Done)
    else (s.(q := s.q.(terminal := true), winner := Some(t)), Cancelling)
  }

  /** Where a terminal call leads once its outcome is known. */
  function AfterCall(config: Config, call: Call, reply: Reply): Pc {
    if reply.Success? then Done
    else
      match call
      case First => if !config.hasCard then Done else if reply.Transient? then StartRetries else WantResult(Fallback)
      case Again(n) =>
        if reply.Transient? && n + 1 <= config.attempts then Pausing(n + 1) else WantResult(Fallback)
      case Fallback => Done
  }

  function FinisherStep(s: Shared, config: Config, t: nat, pc: Pc, reply: Reply, ready: Ready): (Shared, Pc) {
    match pc
    case Finishing => FinishStep(s, t)
    case Cancelling => (s.(canceled := true), Persisting)
    case Persisting => if reply.Success? then (Logged(s, Committed), WantResult(First)) else (s, Done)
    case WantResult(call) => if s.card.None? then (s.(card := Some(t)), SendResult(call)) else (s, pc)
    case SendResult(call) => (Logged(s, TerminalCall(Creates(config, call))), SendingResult(call))
    case SendingResult(call) => (Logged(s.(card := None), TerminalEnd(reply)), AfterCall(config, call, reply))
    case StartRetries => (s, if s.closed then Done else Pausing(1))
    case Pausing(n) =>
      if !ready.ByCancel? then (s, WantResult(Again(n))) else (s, if s.closed then Done else pc)
    case _ => (s, pc)
  }

  // ---- The system --------------------------------------------------------------------------

  /** Past the `markTerminal` that only one finisher passes. */
  predicate IsDelivering(pc: Pc) {
    || pc.Cancelling? || pc.Persisting? || pc.WantResult? || pc.SendResult? || pc.SendingResult?
    || pc.StartRetries? || pc.Pausing?
  }

  function ThreadStep(s: Shared, config: Config, t: nat, pc: Pc, reply: Reply, ready: Ready): (Shared, Pc) {
    if pc.Offering? then OfferStep(s, t, pc.presentation, pc.force)
    else if HasTaken(pc) then CarryStep(s, config, t, pc, reply)
    else if pc.Finishing? || IsDelivering(pc) then FinisherStep(s, config, t, pc, reply, ready)
    else WorkerStep(s, config, pc, ready)
  }

  datatype Action =
    | SendProgress(t: nat, presentation: Presentation, force: bool)
    | CallFinish(t: nat)
    | Work(t: nat, reply: Reply, ready: Ready)
    | Tick(elapsed: nat)
    | Cancel
    | Close

  predicate Enabled(s: Sys, a: Action) {
    match a
    case SendProgress(t, _, _) => t !in s.threads
    case CallFinish(t) => t !in s.threads
    case Work(t, _, _) => t in s.threads
    case _ => true
  }

  /** What an action from outside the goroutines does. */
  function Environment(s: Shared, a: Action): Shared {
    match a
    case Tick(elapsed) => s.(clock := s.clock + elapsed)
    case Cancel => s.(canceled := true)
    case Close => s.(closed := true, canceled := true)
    case _ => s
  }

  function Step(s: Sys, config: Config, a: Action): Sys
    requires Enabled(s, a)
  {
    match a
    case SendProgress(t, p, force) => s.(threads := s.threads[t := Offering(p, force)])
    case CallFinish(t) => s.(threads := s.threads[t := Finishing])
    case Work(t, reply, ready) =>
      var (shared', pc') := ThreadStep(s.shared, config, t, s.threads[t], reply, ready);
      Sys(shared', s.threads[t := pc'])
    case _ => s.(shared := Environment(s.shared, a))
  }

  function Start(clock: int): Sys {
    Sys(Shared(NEW_QUEUE, None, false, false, clock, None, None, []), map[])
  }

  ghost predicate IsRun(config: Config, states: seq<Sys>, actions: seq<Action>) {
    && config.Valid()
    && |states| == |actions| + 1
    && states[0] == Start(states[0].shared.clock)
    && forall i :: 0 <= i < |actions| ==> Enabled(states[i], actions[i]) && states[i + 1] == Step(states[i], config, actions[i])
  }
}
