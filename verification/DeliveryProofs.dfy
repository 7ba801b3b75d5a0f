/** What card delivery keeps in every reachable state, and what its whole trace looks like. */
module DeliveryProofs {
  import opened Tables
  import opened Progress
  import opened Delivery

  // ---- Reading the log -----------------------------------------------------------------

  /** How far the update taken last has come. */
  datatype Stage =
    | AtRest
    | Taken(presentation: Presentation)
    | Calling(presentation: Presentation)
    | Unsent(presentation: Presentation, since: int)

  /** What the log says so far. */
  datatype Digest = Digest(
    offered: nat,                          // the key offered last
    took: Option<(Presentation, int)>,     // the last take and its time
    waiting: Option<Presentation>,         // offered or put back, and not taken since
    forced: bool,                          // an offer since the last take was forced and did not coalesce
    retry: Option<int>,                    // the last retry time
    stage: Stage,
    committed: bool,                       // the terminal state is stored
    calls: nat,                            // calls for the result card,
    creations: nat,                        // those of them that create a card,
    ended: Option<Reply>)                  // and how the last of them ended, if it did

  const NOTHING := Digest(NO_KEY, None, None, false, None, AtRest, false, 0, 0, None)

  function TookKey(d: Digest): nat {
    if d.took.None? then NO_KEY else d.took.value.0.key
  }

  /** The key an offer has to differ from to be accepted. */
  function CurrentKey(d: Digest): nat {
    if d.waiting.Some? then d.waiting.value.key else TookKey(d)
  }

  function Note(d: Digest, e: Event): Digest {
    match e
    case Offered(p, force) =>
      if p.key == CurrentKey(d) then d.(offered := p.key)
      else d.(offered := p.key, waiting := Some(p), forced := d.forced || force)
    case Took(p, at, _) => d.(took := Some((p, at)), waiting := None, forced := false, stage := Taken(p))
    case Retried(p, until) =>
      d.(retry := Some(until), waiting := if d.waiting.Some? then d.waiting else Some(p), stage := AtRest)
    case ProgressCall(p) => d.(stage := Calling(p))
    case ProgressEnd(reply, at) =>
      d.(stage := if reply.Transient? && d.stage.Calling? then Unsent(d.stage.presentation, at) else AtRest)
    case Committed => d.(committed := true)
    case TerminalCall(creates) => d.(calls := d.calls + 1, creations := d.creations + if creates then 1 else 0, ended := None)
    case TerminalEnd(reply) => d.(ended := Some(reply))
  }

  ghost function Read(log: seq<Event>): Digest {
    if log == [] then NOTHING else Note(Read(log[..|log| - 1]), log[|log| - 1])
  }

  lemma ReadAppended(log: seq<Event>, e: Event)
    ensures Read(log + [e]) == Note(Read(log), e)
  {
    assert (log + [e])[..|log|] == log;
  }

  /** What event e may follow a log that says d. */
  ghost predicate Follows(config: Config, d: Digest, e: Event) {
    match e
    case Offered(_, _) => true
    case Took(p, at, forced) =>
      && d.waiting == Some(p) && forced == d.forced && d.stage.AtRest?
      && (d.took.Some? ==> at >= d.took.value.1 + if forced then 0 else config.interval)
      && (d.retry.Some? && !forced ==> at >= d.retry.value)
    case Retried(p, until) => d.stage.Unsent? && d.stage.presentation == p && until >= d.stage.since + config.retryDelay
    case ProgressCall(p) => d.stage == Taken(p) && d.calls == 0
    case ProgressEnd(_, _) => d.stage.Calling?
    case Committed => !d.committed && d.calls == 0
    case TerminalCall(creates) =>
      && d.committed && d.calls < config.attempts + 2 && d.creations == 0
      && (if d.calls == 0 then creates == !config.hasCard
          else && config.hasCard && d.ended.Some? && !d.ended.value.Success?
               && (creates <==> d.ended.value.Permanent? || d.calls == config.attempts + 1))
    case TerminalEnd(_) => d.calls > 0 && d.ended.None?
  }

  ghost predicate Orderly(config: Config, log: seq<Event>) {
    forall i :: 0 <= i < |log| ==> Follows(config, Read(log[..i]), log[i])
  }

  lemma AppendKeepsOrderly(config: Config, log: seq<Event>, e: Event)
    requires Orderly(config, log) && Follows(config, Read(log), e)
    ensures Orderly(config, log + [e])
  {
    hide Follows, Read;
    forall i | 0 <= i < |log + [e]| ensures Follows(config, Read((log + [e])[..i]), (log + [e])[i]) {
      assert (log + [e])[..i] == log[..i];
      if i == |log| { assert log[..i] == log; }
    }
  }

  /** The log grows by an event that may follow. */
  lemma LogGrows(config: Config, log: seq<Event>, e: Event)
    requires Orderly(config, log) && Follows(config, Read(log), e)
    ensures Orderly(config, log + [e]) && Read(log + [e]) == Note(Read(log), e)
  {
    ReadAppended(log, e);
    AppendKeepsOrderly(config, log, e);
  }

  // ---- The invariant -------------------------------------------------------------------

  predicate IsWorker(pc: Pc) {
    || pc.Starting? || pc.Stopping? || pc.Loop? || pc.ReadClock? || pc.Deciding? || pc.Asleep? || HasTaken(pc)
  }

  predicate HoldsCard(pc: Pc) {
    || pc.CheckTerminal? || pc.Notify? || pc.Notifying? || pc.SendResult? || pc.SendingResult?
  }

  /** How far the delivery of the result card has come, by the place of the winner. */
  ghost predicate CallsOk(config: Config, pc: Pc, d: Digest, closed: bool) {
    match pc
    case Cancelling => !d.committed && d.calls == 0 && d.creations == 0
    case Persisting => !d.committed && d.calls == 0 && d.creations == 0
    case WantResult(c) => BeforeCall(config, c, d)
    case SendResult(c) => BeforeCall(config, c, d)
    case SendingResult(c) => DuringCall(config, c, d)
    case StartRetries => d.committed && config.hasCard && d.calls == 1 && d.creations == 0 && d.ended == Some(Transient)
    case Pausing(n) =>
      d.committed && config.hasCard && 1 <= n <= config.attempts && d.calls == n && d.creations == 0 && d.ended == Some(Transient)
    case Done => Delivered(d, closed)
    case _ => true
  }

  /** The end of a delivery: nothing was stored; or the last call succeeded, created a card, or the controller closed. */
  ghost predicate Delivered(d: Digest, closed: bool) {
    && (d.committed ==> d.calls > 0 && d.ended.Some? && (d.ended.value.Success? || d.creations == 1 || closed))
    && (!d.committed ==> d.calls == 0 && d.creations == 0)
    && d.creations <= 1
  }

  ghost predicate BeforeCall(config: Config, call: Call, d: Digest) {
    && d.committed && d.creations == 0
    && match call
       case First => d.calls == 0
       case Again(n) => config.hasCard && 1 <= n <= config.attempts && d.calls == n && d.ended == Some(Transient)
       case Fallback =>
         && config.hasCard && 1 <= d.calls <= config.attempts + 1
         && (d.ended == Some(Permanent) || (d.ended == Some(Transient) && d.calls == config.attempts + 1))
  }

  ghost predicate DuringCall(config: Config, call: Call, d: Digest) {
    && d.committed && d.ended.None? && d.creations == (if Creates(config, call) then 1 else 0)
    && match call
       case First => d.calls == 1
       case Again(n) => config.hasCard && 1 <= n <= config.attempts && d.calls == n + 1
       case Fallback => config.hasCard && 2 <= d.calls <= config.attempts + 2
  }

  /** What holds of the shared state, whatever the goroutines are doing. */
  ghost predicate SharedOk(config: Config, s: Shared, d: Digest) {
    && d == Read(s.log) && Orderly(config, s.log)
    && WorkerOk(s, d) && QueueOk(s, d) && TimesOk(s, d) && ResultOk(config, s, d)
  }

  /** The flag stands for one goroutine, and a dirty queue has it unless nobody will flush the queue again. */
  ghost predicate WorkerOk(s: Shared, d: Digest) {
    && (s.q.worker <==> s.token.Some?)
    && (s.q.dirty && !s.q.terminal && !s.canceled && !s.closed ==> s.q.worker)
    && (s.token.None? ==> d.stage.AtRest? || s.q.terminal)
  }

  /** The queue holds what the log says is waiting. */
  ghost predicate QueueOk(s: Shared, d: Digest) {
    && (s.q.dirty <==> d.waiting.Some?)
    && (s.q.dirty ==> d.waiting == Some(s.q.pending) && s.q.pendingKey == s.q.pending.key)
    && s.q.lastKey == TookKey(d) && Newest(s.q) == d.offered && s.q.force == d.forced
  }

  /** The times the queue keeps are times of the log, and the clock has passed them. */
  ghost predicate TimesOk(s: Shared, d: Digest) {
    && (s.q.lastProgress.Some? <==> d.took.Some?)
    && (s.q.lastProgress.Some? ==> s.q.lastProgress.value == d.took.value.1)
    && (s.q.retryAfter.Some? ==> d.retry == s.q.retryAfter)
    && Passed(s, d, s.clock)
  }

  /** An unforced take at this time is late enough for the clock not to run backwards. */
  ghost predicate Passed(s: Shared, d: Digest, now: int) {
    && now <= s.clock
    && (s.q.lastProgress.Some? ==> s.q.lastProgress.value <= now)
    && (s.q.retryAfter.None? && d.retry.Some? ==> d.retry.value <= now)
  }

  ghost predicate ResultOk(config: Config, s: Shared, d: Digest) {
    && (s.q.terminal <==> s.winner.Some?)
    && (s.winner.None? ==> !d.committed && d.calls == 0 && d.creations == 0)
    && d.calls <= config.attempts + 2
  }

  /** Where the worker is tells how far the last update has come. */
  ghost predicate StageOk(config: Config, s: Shared, d: Digest, pc: Pc) {
    if pc.WantCard? || pc.CheckTerminal? || pc.Notify? then d.stage == Taken(pc.taken)
    else if pc.Notifying? then d.stage == Calling(pc.taken)
    else if pc.Retrying? then d.stage.Unsent? && d.stage.presentation == pc.taken && d.stage.since <= s.clock
    else if pc.RetryingAt? then d.stage.Unsent? && d.stage.presentation == pc.taken && pc.until >= d.stage.since + config.retryDelay
    else d.stage.AtRest? || s.q.terminal
  }

  /** What holds of goroutine t: the worker, the holder of the card lock and the winner are who they should be. */
  ghost predicate ThreadOk(config: Config, s: Shared, d: Digest, t: nat, pc: Pc) {
    && (IsWorker(pc) <==> s.token == Some(t))
    && (HoldsCard(pc) <==> s.card == Some(t))
    && (IsDelivering(pc) ==> s.winner == Some(t))
    && (s.winner == Some(t) ==> (IsDelivering(pc) || pc.Done?) && CallsOk(config, pc, d, s.closed) && (pc.Cancelling? || s.canceled))
    && (pc.Stopping? ==> s.canceled || s.closed)
    && (pc.Asleep? && s.q.force ==> s.q.wake)
    && (pc.Deciding? ==> Passed(s, d, pc.now))
    && (pc.Notify? ==> d.calls == 0)
    && (IsWorker(pc) ==> StageOk(config, s, d, pc))
    && (HasTaken(pc) ==> d.took.Some? && d.took.value.0 == pc.taken)
  }

  ghost predicate Inv(config: Config, s: Sys) {
    var d := Read(s.shared.log);
    && SharedOk(config, s.shared, d)
    && (forall t :: t in s.threads ==> ThreadOk(config, s.shared, d, t, s.threads[t]))
    && (s.shared.token.Some? ==> s.shared.token.value in s.threads)
    && (s.shared.card.Some? ==> s.shared.card.value in s.threads)
    && (s.shared.winner.Some? ==> s.shared.winner.value in s.threads)
  }

  /** The goroutine's step is kept: the shared state, and what holds of the goroutine. */
  ghost predicate Keeps(config: Config, s: Shared, d: Digest, t: nat, pc: Pc) {
    SharedOk(config, s, d) && ThreadOk(config, s, d, t, pc)
  }

  // ---- Every step keeps it ---------------------------------------------------------------

  /** What an offer does to the queue and to what the log says of it. */
  lemma OfferedQueue(s: Shared, d: Digest, t: nat, p: Presentation, force: bool)
    requires WorkerOk(s, d) && QueueOk(s, d) && TimesOk(s, d) && !s.q.terminal
    ensures var ((s', _), d') := (OfferStep(s, t, p, force), Note(d, Offered(p, force)));
            && QueueOk(s', d') && TimesOk(s', d')
            && (WorkerOk(s', d') || (s.token.None? && s'.q.worker && s'.token == Some(t)))
  {
    OfferWaitsOrNot(s.q, p, force);
    hide Offer;
  }

  lemma OfferWaitsOrNot(q: Queue, p: Presentation, force: bool)
    requires !q.terminal
    ensures Coalesces(q, p) ==> Offer(q, p, force) == (q, false)
    ensures !Coalesces(q, p) ==>
              Offer(q, p, force).0 == q.(pending := p, pendingKey := p.key, dirty := true, force := q.force || force, wake := true, worker := true)
              && Offer(q, p, force).1 == !q.worker
  {
  }

  lemma OfferKeeps(config: Config, s: Shared, d: Digest, t: nat, p: Presentation, force: bool)
    requires config.Valid() && Keeps(config, s, d, t, Offering(p, force))
    ensures var (s', pc') := OfferStep(s, t, p, force);
            Keeps(config, s', if s.q.terminal then d else Note(d, Offered(p, force)), t, pc')
  {
    hide Orderly, CallsOk, Read, QueueOk, TimesOk, Coalesces;
    if !s.q.terminal {
      LogGrows(config, s.log, Offered(p, force));
      OfferedQueue(s, d, t, p, force);
      OfferWaitsOrNot(s.q, p, force);
      hide Offer;
    }
  }

  lemma DecideKeeps(config: Config, s: Shared, d: Digest, t: nat, now: int)
    requires config.Valid() && Keeps(config, s, d, t, Deciding(now))
    ensures var (s', pc') := DecideStep(s, config, now);
            Keeps(config, s', if pc'.WantCard? then Note(d, Took(pc'.taken, now, s.q.force)) else d, t, pc')
  {
    hide Orderly, CallsOk, Read;
    var (q, verdict) := Next(s.q, now, config.interval);
    if verdict.Take? {
      LogGrows(config, s.log, Took(verdict.presentation, now, s.q.force));
    }
  }

  lemma WorkerKeeps(config: Config, s: Shared, d: Digest, t: nat, pc: Pc, ready: Ready)
    requires config.Valid() && Keeps(config, s, d, t, pc)
    requires !pc.Offering? && !pc.Deciding? && !HasTaken(pc) && !IsDelivering(pc) && !pc.Finishing?
    ensures var (s', pc') := WorkerStep(s, config, pc, ready); Keeps(config, s', d, t, pc')
  {
    hide Orderly, CallsOk, DecideStep, Read;
  }

  /** The event a carried update adds, if any. */
  function CarryEvent(s: Shared, pc: Pc, reply: Reply): Option<Event> {
    match pc
    case Notify(p) => Some(ProgressCall(p))
    case Notifying(p) => Some(ProgressEnd(reply, s.clock))
    case RetryingAt(p, until) => if s.q.terminal then None else Some(Retried(p, until))
    case _ => None
  }

  lemma CarryKeeps(config: Config, s: Shared, d: Digest, t: nat, pc: Pc, reply: Reply)
    requires config.Valid() && Keeps(config, s, d, t, pc) && HasTaken(pc)
    ensures var (s', pc') := CarryStep(s, config, t, pc, reply);
            var e := CarryEvent(s, pc, reply);
            Keeps(config, s', if e.Some? then Note(d, e.value) else d, t, pc')
  {
    hide Keeps, CarryStep, CarryEvent, Note;
    if pc.RetryingAt? {
      RetryKeeps(config, s, d, t, pc, reply);
    } else {
      SendKeeps(config, s, d, t, pc, reply);
    }
  }

  lemma RetryKeeps(config: Config, s: Shared, d: Digest, t: nat, pc: Pc, reply: Reply)
    requires config.Valid() && Keeps(config, s, d, t, pc) && pc.RetryingAt?
    ensures var (s', pc') := CarryStep(s, config, t, pc, reply);
            var e := CarryEvent(s, pc, reply);
            Keeps(config, s', if e.Some? then Note(d, e.value) else d, t, pc')
  {
    hide Orderly, CallsOk, Read;
    if !s.q.terminal {
      LogGrows(config, s.log, Retried(pc.taken, pc.until));
    }
  }

  lemma SendKeeps(config: Config, s: Shared, d: Digest, t: nat, pc: Pc, reply: Reply)
    requires config.Valid() && Keeps(config, s, d, t, pc) && HasTaken(pc) && !pc.RetryingAt?
    ensures var (s', pc') := CarryStep(s, config, t, pc, reply);
            var e := CarryEvent(s, pc, reply);
            Keeps(config, s', if e.Some? then Note(d, e.value) else d, t, pc')
  {
    hide Orderly, CallsOk, Read, Retry;
    var e := CarryEvent(s, pc, reply);
    if e.Some? {
      LogGrows(config, s.log, e.value);
    }
  }

  function ResultEvent(config: Config, pc: Pc, reply: Reply): Option<Event> {
    match pc
    case Persisting => if reply.Success? then Some(Committed) else None
    case SendResult(c) => Some(TerminalCall(Creates(config, c)))
    case SendingResult(_) => Some(TerminalEnd(reply))
    case _ => None
  }

  lemma FinishKeeps(config: Config, s: Shared, d: Digest, t: nat)
    requires config.Valid() && Keeps(config, s, d, t, Finishing)
    ensures var (s', pc') := FinishStep(s, t); Keeps(config, s', d, t, pc')
  {
    hide Orderly, Read;
  }

  /** What follows a call for the result card. */
  lemma AfterCallOk(config: Config, call: Call, reply: Reply, d: Digest, closed: bool)
    requires config.Valid() && DuringCall(config, call, d)
    ensures CallsOk(config, AfterCall(config, call, reply), Note(d, TerminalEnd(reply)), closed)
    ensures AfterCall(config, call, reply).Done? || IsDelivering(AfterCall(config, call, reply))
    ensures !HoldsCard(AfterCall(config, call, reply)) && !IsWorker(AfterCall(config, call, reply))
    ensures !AfterCall(config, call, reply).Cancelling?
  {
  }

  /** The result card plays no part in what holds of the queue. */
  lemma ResultLeavesQueue(s: Shared, s': Shared, d: Digest, d': Digest)
    requires WorkerOk(s, d) && QueueOk(s, d) && TimesOk(s, d)
    requires s'.q == s.q && s'.token == s.token && s'.clock == s.clock && (s.canceled ==> s'.canceled) && s'.closed == s.closed
    requires d' == d.(committed := d'.committed, calls := d'.calls, creations := d'.creations, ended := d'.ended)
    ensures WorkerOk(s', d') && QueueOk(s', d') && TimesOk(s', d')
  {
  }

  lemma DeliveringShape(config: Config, s: Shared, d: Digest, t: nat, pc: Pc, reply: Reply, ready: Ready)
    requires IsDelivering(pc)
    ensures var ((s', pc'), e) := (FinisherStep(s, config, t, pc, reply, ready), ResultEvent(config, pc, reply));
            && s'.q == s.q && s'.token == s.token && s'.clock == s.clock && s'.closed == s.closed && s'.winner == s.winner
            && s'.canceled == (s.canceled || pc.Cancelling?)
            && s'.log == (if e.Some? then s.log + [e.value] else s.log)
            && (e.Some? ==> Note(d, e.value) == d.(committed := Note(d, e.value).committed, calls := Note(d, e.value).calls,
                                                   creations := Note(d, e.value).creations, ended := Note(d, e.value).ended))
  {
    hide AfterCall;
  }

  lemma DeliveringCalls(config: Config, s: Shared, d: Digest, t: nat, pc: Pc, reply: Reply, ready: Ready)
    requires config.Valid() && IsDelivering(pc) && CallsOk(config, pc, d, s.closed) && (HoldsCard(pc) <==> s.card == Some(t))
    requires d.calls <= config.attempts + 2
    ensures var ((s', pc'), e) := (FinisherStep(s, config, t, pc, reply, ready), ResultEvent(config, pc, reply));
            var d' := if e.Some? then Note(d, e.value) else d;
            && (e.Some? ==> Follows(config, d, e.value))
            && CallsOk(config, pc', d', s.closed) && (IsDelivering(pc') || pc'.Done?) && (HoldsCard(pc') <==> s'.card == Some(t))
            && d'.calls <= config.attempts + 2
            && !IsWorker(pc') && !pc'.Cancelling?
  {
    hide AfterCall;
    if pc.SendingResult? {
      AfterCallOk(config, pc.call, reply, d, s.closed);
    }
  }

  lemma DeliveringKeeps(config: Config, s: Shared, d: Digest, t: nat, pc: Pc, reply: Reply, ready: Ready)
    requires config.Valid() && Keeps(config, s, d, t, pc) && IsDelivering(pc)
    ensures var (s', pc') := FinisherStep(s, config, t, pc, reply, ready);
            var e := ResultEvent(config, pc, reply);
            Keeps(config, s', if e.Some? then Note(d, e.value) else d, t, pc')
  {
    hide Orderly, Read, FinisherStep, WorkerOk, QueueOk, TimesOk, CallsOk, ResultEvent, Note, Follows;
    var e := ResultEvent(config, pc, reply);
    DeliveringShape(config, s, d, t, pc, reply, ready);
    DeliveringCalls(config, s, d, t, pc, reply, ready);
    if e.Some? {
      LogGrows(config, s.log, e.value);
    }
    ResultLeavesQueue(s, FinisherStep(s, config, t, pc, reply, ready).0, d, if e.Some? then Note(d, e.value) else d);
  }

  // ---- The other goroutines ------------------------------------------------------------------

  /** What a goroutine other than u may do to the shared state and to what the log says. */
  ghost predicate Bargain(s: Shared, d: Digest, s': Shared, d': Digest, u: nat) {
    && (s.token == Some(u) <==> s'.token == Some(u))
    && (s.card == Some(u) <==> s'.card == Some(u))
    && (s.winner == Some(u) <==> s'.winner == Some(u))
    && (s.canceled ==> s'.canceled) && (s.closed ==> s'.closed) && (s.q.terminal ==> s'.q.terminal)
    && (s.token == Some(u) ==>
          && (!s.q.force || s.q.wake ==> !s'.q.force || s'.q.wake)
          && d'.took == d.took && d'.stage == d.stage && d'.retry == d.retry
          && s'.q.lastProgress == s.q.lastProgress && s'.q.retryAfter == s.q.retryAfter && s'.clock == s.clock)
    && (s.card == Some(u) ==> d'.calls == d.calls)
    && (s.winner == Some(u) ==>
          d'.committed == d.committed && d'.calls == d.calls && d'.creations == d.creations && d'.ended == d.ended && s'.closed == s.closed)
  }

  lemma BargainKeeps(config: Config, s: Shared, d: Digest, s': Shared, d': Digest, u: nat, pc: Pc)
    requires ThreadOk(config, s, d, u, pc) && Bargain(s, d, s', d', u)
    ensures ThreadOk(config, s', d', u, pc)
  {
    if s.winner == Some(u) {
      CallsDependOnResult(config, pc, d, d', s.closed);
    }
    hide CallsOk;
  }

  lemma CallsDependOnResult(config: Config, pc: Pc, d: Digest, d': Digest, closed: bool)
    requires d'.committed == d.committed && d'.calls == d.calls && d'.creations == d.creations && d'.ended == d.ended
    ensures CallsOk(config, pc, d, closed) == CallsOk(config, pc, d', closed)
  {
  }

  /** What the goroutine that steps brings with it. */
  ghost predicate Actor(s: Shared, t: nat, pc: Pc) {
    && (IsWorker(pc) <==> s.token == Some(t)) && (HoldsCard(pc) <==> s.card == Some(t)) && (IsDelivering(pc) ==> s.winner == Some(t))
    && (s.q.worker <==> s.token.Some?) && (s.q.terminal <==> s.winner.Some?)
  }

  lemma ActorFrom(config: Config, s: Shared, d: Digest, t: nat, pc: Pc)
    requires Keeps(config, s, d, t, pc)
    ensures Actor(s, t, pc)
  {
    hide Orderly, Read, CallsOk;
  }

  lemma OfferBargain(s: Shared, d: Digest, t: nat, p: Presentation, force: bool, u: nat)
    requires Actor(s, t, Offering(p, force)) && u != t
    ensures Bargain(s, d, OfferStep(s, t, p, force).0, if s.q.terminal then d else Note(d, Offered(p, force)), u)
  {
    if !s.q.terminal {
      OfferWaitsOrNot(s.q, p, force);
      hide Offer, Coalesces;
    }
  }

  lemma DecideBargain(config: Config, s: Shared, d: Digest, t: nat, now: int, u: nat)
    requires Actor(s, t, Deciding(now)) && u != t
    ensures var (s', pc') := DecideStep(s, config, now);
            Bargain(s, d, s', if pc'.WantCard? then Note(d, Took(pc'.taken, now, s.q.force)) else d, u)
  {
  }

  lemma WorkerBargain(config: Config, s: Shared, d: Digest, t: nat, pc: Pc, ready: Ready, u: nat)
    requires Actor(s, t, pc) && u != t && !pc.Deciding?
    ensures Bargain(s, d, WorkerStep(s, config, pc, ready).0, d, u)
  {
    hide DecideStep;
  }

  lemma CarryBargain(config: Config, s: Shared, d: Digest, t: nat, pc: Pc, reply: Reply, u: nat)
    requires Actor(s, t, pc) && HasTaken(pc) && u != t
    ensures var e := CarryEvent(s, pc, reply);
            Bargain(s, d, CarryStep(s, config, t, pc, reply).0, if e.Some? then Note(d, e.value) else d, u)
  {
  }

  lemma FinisherBargain(config: Config, s: Shared, d: Digest, t: nat, pc: Pc, reply: Reply, ready: Ready, u: nat)
    requires Actor(s, t, pc) && (IsDelivering(pc) || pc.Finishing?) && u != t
    ensures var e := ResultEvent(config, pc, reply);
            Bargain(s, d, FinisherStep(s, config, t, pc, reply, ready).0, if e.Some? then Note(d, e.value) else d, u)
  {
    hide AfterCall;
  }

  /** What the log says after a step of goroutine t. */
  ghost function NextDigest(config: Config, s: Shared, d: Digest, t: nat, pc: Pc, reply: Reply, ready: Ready): Digest {
    if pc.Offering? then if s.q.terminal then d else Note(d, Offered(pc.presentation, pc.force))
    else if pc.Deciding? then
      var pc' := DecideStep(s, config, pc.now).1;
      if pc'.WantCard? then Note(d, Took(pc'.taken, pc.now, s.q.force)) else d
    else
      var e := if HasTaken(pc) then CarryEvent(s, pc, reply) else if IsDelivering(pc) then ResultEvent(config, pc, reply) else None;
      if e.Some? then Note(d, e.value) else d
  }

  lemma OwnStepOk(config: Config, s: Shared, d: Digest, t: nat, pc: Pc, reply: Reply, ready: Ready)
    requires config.Valid() && Keeps(config, s, d, t, pc)
    ensures var (s', pc') := ThreadStep(s, config, t, pc, reply, ready);
            Keeps(config, s', NextDigest(config, s, d, t, pc, reply, ready), t, pc')
  {
    hide Keeps, OfferStep, CarryStep, FinisherStep, DecideStep, Note, CarryEvent;
    if pc.Offering? {
      OfferKeeps(config, s, d, t, pc.presentation, pc.force);
    } else if HasTaken(pc) {
      CarryKeeps(config, s, d, t, pc, reply);
    } else if pc.Finishing? {
      FinishKeeps(config, s, d, t);
      FinishIsFinisher(config, s, t, reply, ready);
    } else if IsDelivering(pc) {
      DeliveringKeeps(config, s, d, t, pc, reply, ready);
    } else if pc.Deciding? {
      DecideKeeps(config, s, d, t, pc.now);
    } else {
      WorkerKeeps(config, s, d, t, pc, ready);
    }
  }

  lemma FinishIsFinisher(config: Config, s: Shared, t: nat, reply: Reply, ready: Ready)
    ensures FinisherStep(s, config, t, Finishing, reply, ready) == FinishStep(s, t)
  {
  }

  lemma StepBargain(config: Config, s: Shared, d: Digest, t: nat, pc: Pc, reply: Reply, ready: Ready, u: nat)
    requires Actor(s, t, pc) && u != t
    ensures Bargain(s, d, ThreadStep(s, config, t, pc, reply, ready).0, NextDigest(config, s, d, t, pc, reply, ready), u)
  {
    hide Actor, Bargain, OfferStep, CarryStep, FinisherStep, DecideStep, Note, CarryEvent;
    if pc.Offering? {
      OfferBargain(s, d, t, pc.presentation, pc.force, u);
    } else if HasTaken(pc) {
      CarryBargain(config, s, d, t, pc, reply, u);
    } else if pc.Finishing? || IsDelivering(pc) {
      FinisherBargain(config, s, d, t, pc, reply, ready, u);
    } else if pc.Deciding? {
      DecideBargain(config, s, d, t, pc.now, u);
    } else {
      WorkerBargain(config, s, d, t, pc, ready, u);
    }
  }

  lemma SameRead(config: Config, s: Shared, d: Digest)
    requires SharedOk(config, s, d)
    ensures d == Read(s.log)
  {
  }

  lemma ThreadStepKeeps(config: Config, s: Sys, t: nat, reply: Reply, ready: Ready)
    requires config.Valid() && Inv(config, s) && t in s.threads
    ensures Inv(config, Step(s, config, Work(t, reply, ready)))
  {
    hide SharedOk, ThreadOk, ThreadStep, Read, NextDigest, Bargain, Actor;
    var pc := s.threads[t];
    var d := Read(s.shared.log);
    var (shared', pc') := ThreadStep(s.shared, config, t, pc, reply, ready);
    var d' := NextDigest(config, s.shared, d, t, pc, reply, ready);
    OwnStepOk(config, s.shared, d, t, pc, reply, ready);
    ActorFrom(config, s.shared, d, t, pc);
    SameRead(config, shared', d');
    forall u | u in s.threads && u != t ensures ThreadOk(config, shared', d', u, s.threads[u]) {
      StepBargain(config, s.shared, d, t, pc, reply, ready, u);
      BargainKeeps(config, s.shared, d, shared', d', u, s.threads[u]);
    }
    PointersAreToThreads(s.shared, config, t, pc, reply, ready);
  }

  lemma PointersAreToThreads(s: Shared, config: Config, t: nat, pc: Pc, reply: Reply, ready: Ready)
    ensures var s' := ThreadStep(s, config, t, pc, reply, ready).0;
            && (s'.token == s.token || s'.token == None || s'.token == Some(t))
            && (s'.card == s.card || s'.card == None || s'.card == Some(t))
            && (s'.winner == s.winner || s'.winner == Some(t))
  {
    hide Next, Offer, Retry, AfterCall, Creates;
  }

  lemma EnvironmentKeeps(config: Config, s: Shared, d: Digest, a: Action, t: nat, pc: Pc)
    requires SharedOk(config, s, d) && ThreadOk(config, s, d, t, pc)
    ensures ThreadOk(config, Environment(s, a), d, t, pc)
  {
    if s.winner == Some(t) {
      ClosingKeepsCalls(config, pc, d, s.closed);
    }
    hide Orderly, CallsOk, Read;
  }

  lemma ClosingKeepsCalls(config: Config, pc: Pc, d: Digest, closed: bool)
    requires CallsOk(config, pc, d, closed)
    ensures CallsOk(config, pc, d, true)
  {
  }

  lemma EnvironmentKeepsShared(config: Config, s: Shared, d: Digest, a: Action)
    requires SharedOk(config, s, d)
    ensures SharedOk(config, Environment(s, a), d)
  {
    hide Orderly, Read;
  }

  lemma NewThreadOk(config: Config, s: Sys, t: nat, pc: Pc)
    requires Inv(config, s) && t !in s.threads && (pc.Offering? || pc.Finishing?)
    ensures Inv(config, s.(threads := s.threads[t := pc]))
  {
    hide SharedOk, Read, CallsOk;
  }

  lemma StepKeepsInv(config: Config, s: Sys, a: Action)
    requires config.Valid() && Inv(config, s) && Enabled(s, a)
    ensures Inv(config, Step(s, config, a))
  {
    hide Inv;
    match a
    case Work(t, reply, ready) =>
      hide Step;
      ThreadStepKeeps(config, s, t, reply, ready);
    case SendProgress(t, p, force) => NewThreadOk(config, s, t, Offering(p, force));
    case CallFinish(t) => NewThreadOk(config, s, t, Finishing);
    case Tick(_) => EnvironmentKeepsInv(config, s, a);
    case Cancel => EnvironmentKeepsInv(config, s, a);
    case Close => EnvironmentKeepsInv(config, s, a);
  }

  lemma EnvironmentKeepsInv(config: Config, s: Sys, a: Action)
    requires Inv(config, s)
    ensures Inv(config, s.(shared := Environment(s.shared, a)))
  {
    var d := Read(s.shared.log);
    EnvironmentKeepsShared(config, s.shared, d, a);
    SameRead(config, Environment(s.shared, a), d);
    hide SharedOk, ThreadOk, Read;
    forall t | t in s.threads ensures ThreadOk(config, Environment(s.shared, a), d, t, s.threads[t]) {
      EnvironmentKeeps(config, s.shared, d, a, t, s.threads[t]);
    }
  }

  lemma {:induction false} ReachableInv(config: Config, states: seq<Sys>, actions: seq<Action>, i: nat)
    requires IsRun(config, states, actions) && i < |states|
    ensures Inv(config, states[i])
  {
    hide Inv, Step;
    if i == 0 {
      StartInv(config, states[0].shared.clock);
    } else {
      ReachableInv(config, states, actions, i - 1);
      StepKeepsInv(config, states[i - 1], actions[i - 1]);
    }
  }

  lemma StartInv(config: Config, clock: int)
    requires config.Valid()
    ensures Inv(config, Start(clock))
  {
  }
}
