/** The promises of the progress coalescer and of card delivery, for every run of the goroutines of one run. */
module DeliveryTheorems {
  import opened Tables
  import opened Progress
  import opened Delivery
  import opened DeliveryProofs

  /** s is a state of a run of the system. */
  ghost predicate At(config: Config, states: seq<Sys>, actions: seq<Action>, i: nat, s: Sys) {
    IsRun(config, states, actions) && i < |states| && states[i] == s
  }

  ghost predicate Working(s: Sys, t: nat) {
    t in s.threads && IsWorker(s.threads[t])
  }

  /** Nobody will flush the queue of this run again. */
  predicate IsClosing(s: Shared) {
    s.q.terminal || s.canceled || s.closed
  }

  predicate NoTake(log: seq<Event>, from: nat, to: nat) {
    forall m :: from <= m < to && m < |log| ==> !log[m].Took?
  }

  predicate NoOffer(log: seq<Event>, from: nat, to: nat) {
    forall m :: from <= m < to && m < |log| ==> !log[m].Offered?
  }

  // ---- What the digest means in the log ------------------------------------------------------

  lemma {:induction false} LastOffer(log: seq<Event>, j: nat)
    requires j < |log| && log[j].Offered? && NoOffer(log, j + 1, |log|)
    ensures Read(log).offered == log[j].presentation.key
  {
    if j < |log| - 1 {
      LastOffer(log[..|log| - 1], j);
    }
  }

  /** The take of this index is the last one. */
  predicate IsLastTake(log: seq<Event>, i: nat) {
    i < |log| && log[i].Took? && NoTake(log, i + 1, |log|)
  }

  lemma {:induction false} LastTake(log: seq<Event>, i: nat)
    requires IsLastTake(log, i)
    ensures Read(log).took == Some((log[i].presentation, log[i].at))
  {
    if i < |log| - 1 {
      LastTake(log[..|log| - 1], i);
    }
  }

  lemma {:induction false} FindLastTake(log: seq<Event>) returns (i: nat)
    requires Read(log).took.Some?
    ensures IsLastTake(log, i)
  {
    if log[|log| - 1].Took? {
      i := |log| - 1;
    } else {
      i := FindLastTake(log[..|log| - 1]);
    }
  }

  lemma InitIsOrderly(config: Config, log: seq<Event>)
    requires Orderly(config, log) && log != []
    ensures Orderly(config, log[..|log| - 1]) && Follows(config, Read(log[..|log| - 1]), log[|log| - 1])
    ensures Read(log) == Note(Read(log[..|log| - 1]), log[|log| - 1])
  {
    hide Follows, Note;
    var rest := log[..|log| - 1];
    forall i | 0 <= i < |rest| ensures Follows(config, Read(rest[..i]), rest[i]) {
      assert rest[..i] == log[..i];
    }
  }

  /** A progress call for what was taken at i. */
  ghost predicate WasSent(log: seq<Event>, i: nat, m: nat) {
    i < m < |log| && log[i].Took? && log[m] == ProgressCall(log[i].presentation)
  }

  /** That call ended, and if the failure was transient the presentation was put back. */
  ghost predicate WasAnswered(log: seq<Event>, i: nat, m: nat, e: nat) {
    && WasSent(log, i, m) && m < e < |log| && log[e].ProgressEnd?
    && (log[e].reply.Transient? ==> exists j: nat :: WasPutBack(log, i, e, j))
  }

  ghost predicate FailedToSend(log: seq<Event>, i: nat, m: nat, e: nat) {
    WasSent(log, i, m) && m < e < |log| && log[e].ProgressEnd? && log[e].reply.Transient?
  }

  predicate WasPutBack(log: seq<Event>, i: nat, e: nat, j: nat) {
    e < j < |log| && i < |log| && log[i].Took? && log[j].Retried? && log[j].presentation == log[i].presentation
  }

  /** How far the update taken at i has come, in the log. */
  ghost predicate StageInLog(log: seq<Event>, i: nat)
    requires i < |log| && log[i].Took?
  {
    match Read(log).stage
    case Taken(p) => p == log[i].presentation
    case Calling(p) => p == log[i].presentation && exists m: nat :: WasSent(log, i, m)
    case Unsent(p, _) => p == log[i].presentation && exists m: nat, e: nat :: FailedToSend(log, i, m, e)
    case AtRest => exists m: nat, e: nat :: WasAnswered(log, i, m, e)
  }

  lemma SentStays(log: seq<Event>, e: Event, i: nat)
    requires i < |log| && log[i].Took?
    ensures forall m: nat :: WasSent(log, i, m) ==> WasSent(log + [e], i, m)
    ensures forall m: nat, n: nat :: FailedToSend(log, i, m, n) ==> FailedToSend(log + [e], i, m, n)
    ensures forall m: nat, n: nat :: WasAnswered(log, i, m, n) ==> WasAnswered(log + [e], i, m, n)
  {
    var log' := log + [e];
    assert forall k :: 0 <= k < |log| ==> log'[k] == log[k];
    forall m: nat, n: nat | WasAnswered(log, i, m, n) ensures WasAnswered(log', i, m, n) {
      if log[n].reply.Transient? {
        var j: nat :| WasPutBack(log, i, n, j);
        assert WasPutBack(log', i, n, j);
      }
    }
  }

  lemma StageMoves(config: Config, log: seq<Event>, e: Event, i: nat)
    requires i < |log| && log[i].Took? && StageInLog(log, i) && Follows(config, Read(log), e) && !e.Took?
    ensures StageInLog(log + [e], i)
  {
    var log' := log + [e];
    ReadAppended(log, e);
    SentStays(log, e, i);
    hide Read;
    assert log'[i] == log[i] && log'[|log|] == e;
    match e
    case ProgressCall(p) => assert WasSent(log', i, |log|);
    case ProgressEnd(reply, _) =>
      var m: nat :| WasSent(log, i, m);
      hide WasSent;
      if reply.Transient? {
        assert FailedToSend(log', i, m, |log|);
      } else {
        assert WasAnswered(log', i, m, |log|);
      }
    case Retried(p, until) =>
      var m: nat, n: nat :| FailedToSend(log, i, m, n);
      assert FailedToSend(log', i, m, n);
      hide WasSent;
      assert WasPutBack(log', i, n, |log|);
      assert WasAnswered(log', i, m, n);
    case _ => StageRests(log, log', i);
  }

  lemma StageRests(log: seq<Event>, log': seq<Event>, i: nat)
    requires i < |log| <= |log'| && log[i].Took? && log'[i] == log[i] && StageInLog(log, i) && Read(log').stage == Read(log).stage
    requires forall m: nat :: WasSent(log, i, m) ==> WasSent(log', i, m)
    requires forall m: nat, n: nat :: FailedToSend(log, i, m, n) ==> FailedToSend(log', i, m, n)
    requires forall m: nat, n: nat :: WasAnswered(log, i, m, n) ==> WasAnswered(log', i, m, n)
    ensures StageInLog(log', i)
  {
    hide Read, WasSent, FailedToSend, WasAnswered;
  }

  lemma {:induction false} StageIsInLog(config: Config, log: seq<Event>, i: nat)
    requires Orderly(config, log) && IsLastTake(log, i)
    ensures StageInLog(log, i)
  {
    var rest := log[..|log| - 1];
    assert log == rest + [log[|log| - 1]];
    if i < |log| - 1 {
      InitIsOrderly(config, log);
      assert IsLastTake(rest, i);
      StageIsInLog(config, rest, i);
      StageMoves(config, rest, log[|log| - 1], i);
    } else {
      ReadAppended(rest, log[|log| - 1]);
    }
  }

  /** While nothing is offered, only the presentation taken last can be waiting; once it was put back it is. */
  ghost predicate PutBack(log: seq<Event>, d: Digest, i: nat)
    requires i < |log| && log[i].Took?
  {
    && (d.waiting.Some? && NoOffer(log, i + 1, |log|) ==> d.waiting == Some(log[i].presentation))
    && (d.waiting.Some? || forall j :: i < j < |log| ==> !log[j].Retried?)
  }

  lemma PutBackMoves(config: Config, log: seq<Event>, d: Digest, e: Event, i: nat)
    requires i < |log| && log[i].Took? && PutBack(log, d, i) && Follows(config, d, e) && !e.Took?
    requires d.stage.Unsent? ==> d.stage.presentation == log[i].presentation
    ensures PutBack(log + [e], Note(d, e), i)
  {
    var log' := log + [e];
    assert log'[|log|] == e && forall k :: 0 <= k < |log| ==> log'[k] == log[k];
    if NoOffer(log', i + 1, |log'|) {
      assert forall k :: i + 1 <= k < |log| ==> !log'[k].Offered?;
      assert NoOffer(log, i + 1, |log|);
    }
  }

  lemma {:induction false} PutBackWaits(config: Config, log: seq<Event>, i: nat)
    requires Orderly(config, log) && IsLastTake(log, i)
    ensures PutBack(log, Read(log), i)
  {
    hide Orderly, Read, Follows, PutBack;
    if i < |log| - 1 {
      var rest, e := log[..|log| - 1], log[|log| - 1];
      assert log == rest + [e] && IsLastTake(rest, i);
      InitIsOrderly(config, log);
      PutBackWaits(config, rest, i);
      StageIsTheTakes(config, rest, i);
      PutBackMoves(config, rest, Read(rest), e, i);
    } else {
      LastTakeTakesAll(config, log);
    }
  }

  lemma StageIsTheTakes(config: Config, log: seq<Event>, i: nat)
    requires Orderly(config, log) && IsLastTake(log, i)
    ensures Read(log).stage.Unsent? ==> Read(log).stage.presentation == log[i].presentation
  {
    hide Orderly, Read;
    StageIsInLog(config, log, i);
  }

  lemma LastTakeTakesAll(config: Config, log: seq<Event>)
    requires Orderly(config, log) && log != [] && log[|log| - 1].Took?
    ensures PutBack(log, Read(log), |log| - 1)
  {
    InitIsOrderly(config, log);
    hide Read, Orderly;
  }

  // ---- The coalescer ---------------------------------------------------------------------

  lemma LogIsOrderly(config: Config, states: seq<Sys>, actions: seq<Action>, i: nat, s: Sys)
    requires At(config, states, actions, i, s)
    ensures Orderly(config, s.shared.log) && SharedOk(config, s.shared, Read(s.shared.log))
  {
    hide Read, CallsOk;
    ReachableInv(config, states, actions, i);
  }

  lemma PrefixIsOrderly(config: Config, log: seq<Event>, k: nat)
    requires Orderly(config, log) && k < |log|
    ensures Orderly(config, log[..k]) && Follows(config, Read(log[..k]), log[k])
  {
    hide Read, Follows;
    forall i | 0 <= i < k ensures Follows(config, Read(log[..k][..i]), log[..k][i]) {
      assert log[..k][..i] == log[..i];
    }
  }

  /**
   At most one goroutine is the flush worker; a presentation waits for it unless
   the run is over, canceled or the controller closed.
   */
  lemma OneWorkerFlushes(config: Config, states: seq<Sys>, actions: seq<Action>, i: nat, s: Sys, t: nat, u: nat)
    requires At(config, states, actions, i, s)
    ensures Working(s, t) && Working(s, u) ==> t == u
    ensures s.shared.q.worker <==> exists w :: Working(s, w)
    ensures s.shared.q.dirty && !IsClosing(s.shared) ==> exists w :: Working(s, w)
  {
    hide Orderly, CallsOk, Read;
    ReachableInv(config, states, actions, i);
    forall w | w in s.threads ensures ThreadOk(config, s.shared, Read(s.shared.log), w, s.threads[w]) { }
    if s.shared.token.Some? {
      assert Working(s, s.shared.token.value);
    }
  }

  /**
   A sleeping worker is never stuck: its timer wakes it, a cancellation stops it, and
   in front of a forced presentation a wake-up is waiting for it.
   */
  lemma NoWakeUpIsLost(config: Config, states: seq<Sys>, actions: seq<Action>, i: nat, s: Sys, t: nat)
    requires At(config, states, actions, i, s) && t in s.threads && s.threads[t].Asleep?
    ensures s.shared.q.force ==> s.shared.q.wake
    ensures s.shared.q.wake ==> Step(s, config, Work(t, Success, ByWake)).threads[t].Loop?
    ensures Step(s, config, Work(t, Success, ByTimer)).threads[t].Loop?
    ensures s.shared.canceled ==> Step(s, config, Work(t, Success, ByCancel)).threads[t].Stopping?
  {
    hide Orderly, CallsOk, SharedOk, Read;
    ReachableInv(config, states, actions, i);
    assert ThreadOk(config, s.shared, Read(s.shared.log), t, s.threads[t]);
  }

  /** A canceled worker stops as soon as it is done with what it took, and gives its place up; so does one of a finished run. */
  lemma CanceledWorkerStops(config: Config, states: seq<Sys>, actions: seq<Action>, i: nat, s: Sys, t: nat, reply: Reply, ready: Ready)
    requires At(config, states, actions, i, s) && t in s.threads
    ensures var s' := Step(s, config, Work(t, reply, ready));
            && (s.threads[t].Loop? && s.shared.canceled ==> s'.threads[t].Stopping?)
            && (s.threads[t].Stopping? || (s.threads[t].Deciding? && s.shared.q.terminal) ==> s'.threads[t].Done? && !s'.shared.q.worker)
  {
  }

  /**
   The latest wins: a take takes what was offered last by then, whatever was put back
   for a retry, and so does what is waiting now.
   */
  lemma LatestWins(config: Config, states: seq<Sys>, actions: seq<Action>, i: nat, s: Sys, j: nat, k: nat)
    requires At(config, states, actions, i, s)
    requires j < |s.shared.log| && s.shared.log[j].Offered?
    ensures NoOffer(s.shared.log, j + 1, |s.shared.log|) && s.shared.q.dirty ==> s.shared.q.pending.key == s.shared.log[j].presentation.key
    ensures j < k < |s.shared.log| && s.shared.log[k].Took? && NoOffer(s.shared.log, j + 1, k) ==>
              s.shared.log[k].presentation.key == s.shared.log[j].presentation.key
  {
    var log := s.shared.log;
    LogIsOrderly(config, states, actions, i, s);
    hide Orderly, Read;
    if NoOffer(log, j + 1, |log|) {
      LastOffer(log, j);
    }
    if j < k < |log| && log[k].Took? && NoOffer(log, j + 1, k) {
      PrefixIsOrderly(config, log, k);
      LastOffer(log[..k], j);
      WaitingIsOffered(config, log[..k]);
    }
  }

  /** What waits has the key that was offered last, and so does what was taken last if nothing waits. */
  lemma {:induction false} WaitingIsOffered(config: Config, log: seq<Event>)
    requires Orderly(config, log)
    ensures CurrentKey(Read(log)) == Read(log).offered
    ensures !Read(log).stage.AtRest? ==> Read(log).took.Some? && Read(log).took.value.0 == Read(log).stage.presentation
  {
    if log != [] {
      InitIsOrderly(config, log);
      WaitingIsOffered(config, log[..|log| - 1]);
      hide Orderly, Read;
      NoteKeepsCurrent(config, Read(log[..|log| - 1]), log[|log| - 1]);
    }
  }

  lemma NoteKeepsCurrent(config: Config, d: Digest, e: Event)
    requires Follows(config, d, e) && CurrentKey(d) == d.offered
    requires !d.stage.AtRest? ==> d.took.Some? && d.took.value.0 == d.stage.presentation
    ensures var d' := Note(d, e);
            && CurrentKey(d') == d'.offered
            && (!d'.stage.AtRest? ==> d'.took.Some? && d'.took.value.0 == d'.stage.presentation)
  {
  }

  /**
   What failed is put back: after a transient failure was put back, a presentation
   waits until the next take, on a run that is still live there is a worker for it,
   and that take, if nothing was offered since, takes the presentation that failed.
   */
  lemma FailedUpdatesAreTakenAgain(config: Config, states: seq<Sys>, actions: seq<Action>, i: nat, s: Sys, m: nat, j: nat, k: nat)
    requires At(config, states, actions, i, s)
    requires m < j < |s.shared.log| && s.shared.log[m].Took? && s.shared.log[j].Retried?
    ensures NoTake(s.shared.log, m + 1, |s.shared.log|) ==>
              && s.shared.q.dirty && (!IsClosing(s.shared) ==> s.shared.q.worker)
              && (NoOffer(s.shared.log, m + 1, |s.shared.log|) ==> s.shared.q.pending == s.shared.log[m].presentation)
    ensures j < k < |s.shared.log| && s.shared.log[k].Took? && NoTake(s.shared.log, m + 1, k) && NoOffer(s.shared.log, m + 1, k) ==>
              s.shared.log[k].presentation == s.shared.log[m].presentation
  {
    var log := s.shared.log;
    LogIsOrderly(config, states, actions, i, s);
    hide Orderly, Read, IsRun;
    if NoTake(log, m + 1, |log|) {
      PutBackWaits(config, log, m);
    }
    hide SharedOk;
    if j < k < |log| && log[k].Took? && NoTake(log, m + 1, k) && NoOffer(log, m + 1, k) {
      TakenAgain(config, log, m, j, k);
    }
  }

  lemma TakenAgain(config: Config, log: seq<Event>, m: nat, j: nat, k: nat)
    requires Orderly(config, log) && m < j < k < |log| && log[m].Took? && log[j].Retried? && log[k].Took?
    requires NoTake(log, m + 1, k) && NoOffer(log, m + 1, k)
    ensures log[k].presentation == log[m].presentation
  {
    hide Orderly, Read;
    PrefixIsOrderly(config, log, k);
    assert log[..k][j] == log[j] && log[..k][m] == log[m];
    PutBackWaits(config, log[..k], m);
  }

  /**
   Every take is seen through: before the next take its presentation was sent, the
   call ended, and if it failed transiently the presentation was put back.
   */
  lemma EveryTakeIsSeenThrough(config: Config, states: seq<Sys>, actions: seq<Action>, i: nat, s: Sys, m: nat, k: nat) returns (n: nat, e: nat)
    requires At(config, states, actions, i, s)
    requires m < k < |s.shared.log| && s.shared.log[m].Took? && s.shared.log[k].Took? && NoTake(s.shared.log, m + 1, k)
    ensures e < k && WasAnswered(s.shared.log[..k], m, n, e)
  {
    LogIsOrderly(config, states, actions, i, s);
    hide Orderly, Read;
    var log := s.shared.log;
    PrefixIsOrderly(config, log, k);
    assert IsLastTake(log[..k], m);
    StageIsInLog(config, log[..k], m);
    n, e :| WasAnswered(log[..k], m, n, e);
  }

  /**
   Nothing offered is forgotten: once no goroutine is the worker of a run that is
   still open, what was offered last was taken last, it was sent, and the call for it
   did not fail transiently.
   */
  lemma NothingIsForgotten(config: Config, states: seq<Sys>, actions: seq<Action>, i: nat, s: Sys, j: nat) returns (m: nat, n: nat, e: nat)
    requires At(config, states, actions, i, s) && !IsClosing(s.shared)
    requires forall t :: !Working(s, t)
    requires j < |s.shared.log| && s.shared.log[j].Offered? && NoOffer(s.shared.log, j + 1, |s.shared.log|)
    ensures IsLastTake(s.shared.log, m) && s.shared.log[m].presentation.key == s.shared.log[j].presentation.key
    ensures WasAnswered(s.shared.log, m, n, e) && !s.shared.log[e].reply.Transient?
  {
    var log := s.shared.log;
    OneWorkerFlushes(config, states, actions, i, s, 0, 0);
    LogIsOrderly(config, states, actions, i, s);
    hide Orderly, Read, IsRun;
    LastOffer(log, j);
    m := FindLastTake(log);
    LastTake(log, m);
    StageIsInLog(config, log, m);
    n, e :| WasAnswered(log, m, n, e);
    if log[e].reply.Transient? {
      var b: nat :| WasPutBack(log, m, e, b);
      PutBackWaits(config, log, m);
    }
  }

  // ---- The order of cards ------------------------------------------------------------------

  lemma {:induction false} CountsCall(log: seq<Event>, i: nat)
    requires i < |log| && log[i].TerminalCall?
    ensures Read(log).calls > 0 && (log[i].creates ==> Read(log).creations > 0)
  {
    if i < |log| - 1 {
      CountsCall(log[..|log| - 1], i);
    }
  }

  /**
   After the first call for the result card no progress call follows; there are
   at most `terminalRetryAttempts` + 2 such calls, and one that creates a card is
   the last.
   */
  lemma ResultComesLast(config: Config, states: seq<Sys>, actions: seq<Action>, i: nat, s: Sys, j: nat, k: nat)
    requires At(config, states, actions, i, s)
    requires j < k < |s.shared.log| && s.shared.log[j].TerminalCall?
    ensures !s.shared.log[k].ProgressCall?
    ensures s.shared.log[j].creates ==> !s.shared.log[k].TerminalCall?
    ensures Read(s.shared.log).calls <= config.attempts + 2
  {
    LogIsOrderly(config, states, actions, i, s);
    hide Orderly, Read;
    PrefixIsOrderly(config, s.shared.log, k);
    CountsCall(s.shared.log[..k], j);
  }

  /** The outcome of the terminal call before position k. */
  predicate EndedBefore(log: seq<Event>, k: nat, e: nat) {
    e < k <= |log| && log[e].TerminalEnd? && forall m :: e < m < k ==> !log[m].TerminalCall? && !log[m].TerminalEnd?
  }

  lemma {:induction false} FindEnd(log: seq<Event>) returns (e: nat)
    requires Read(log).ended.Some?
    ensures EndedBefore(log, |log|, e) && log[e].reply == Read(log).ended.value
  {
    if log[|log| - 1].TerminalEnd? {
      e := |log| - 1;
    } else {
      e := FindEnd(log[..|log| - 1]);
    }
  }

  /**
   The result is delivered as its calls end: the terminal state is stored before the
   first call; that one patches the card, if there is one; a further call follows only
   a failure, patches again after a transient one while attempts are left, and creates
   a card after a permanent one or when they are used up.
   */
  lemma CallsFollowTheirOutcomes(config: Config, states: seq<Sys>, actions: seq<Action>, i: nat, s: Sys, k: nat)
    requires At(config, states, actions, i, s) && k < |s.shared.log| && s.shared.log[k].TerminalCall?
    ensures var (log, d) := (s.shared.log, Read(s.shared.log[..k]));
            && d.committed
            && (d.calls == 0 ==> log[k].creates == !config.hasCard)
            && (d.calls > 0 ==>
                  exists e: nat :: EndedBefore(log[..k], k, e) && !log[e].reply.Success? && config.hasCard
                              && (log[k].creates <==> log[e].reply.Permanent? || d.calls == config.attempts + 1))
  {
    LogIsOrderly(config, states, actions, i, s);
    hide Orderly, Read;
    var log := s.shared.log;
    PrefixIsOrderly(config, log, k);
    if Read(log[..k]).calls > 0 {
      var e := FindEnd(log[..k]);
      assert log[e] == log[..k][e];
    }
  }

  /**
   The result is pursued: when the goroutine that ended the run is done, the terminal
   state was never stored, or the last call for the result card succeeded, or a new
   card was tried, or the controller closed; the run's context is canceled.
   */
  lemma ResultIsPursued(config: Config, states: seq<Sys>, actions: seq<Action>, i: nat, s: Sys, t: nat)
    requires At(config, states, actions, i, s) && s.shared.winner == Some(t) && t in s.threads && s.threads[t].Done?
    ensures var d := Read(s.shared.log);
            s.shared.canceled
            && (!d.committed || (d.calls > 0 && (d.ended == Some(Success) || d.creations == 1 || s.shared.closed)))
  {
    hide Orderly, Read, SharedOk;
    ReachableInv(config, states, actions, i);
    assert ThreadOk(config, s.shared, Read(s.shared.log), t, s.threads[t]);
  }

  /** A progress call sends what was taken last. */
  lemma ProgressSendsTheLastTaken(config: Config, states: seq<Sys>, actions: seq<Action>, i: nat, s: Sys, k: nat)
    requires At(config, states, actions, i, s) && k < |s.shared.log| && s.shared.log[k].ProgressCall?
    ensures var took := Read(s.shared.log[..k]).took; took.Some? && took.value.0 == s.shared.log[k].presentation
  {
    LogIsOrderly(config, states, actions, i, s);
    hide Orderly, Read;
    PrefixIsOrderly(config, s.shared.log, k);
    WaitingIsOffered(config, s.shared.log[..k]);
  }

  // ---- The rate ----------------------------------------------------------------------------

  ghost function TakesIn(log: seq<Event>, from: int, to: int): nat {
    if log == [] then 0
    else
      var e := log[|log| - 1];
      TakesIn(log[..|log| - 1], from, to) + if e.Took? && from <= e.at <= to then 1 else 0
  }

  ghost function ForcedIn(log: seq<Event>, from: int, to: int): nat {
    if log == [] then 0
    else
      var e := log[|log| - 1];
      ForcedIn(log[..|log| - 1], from, to) + if e.Took? && e.forced && from <= e.at <= to then 1 else 0
  }

  /** n unforced takes since `from` need this much time. */
  ghost predicate Spread(config: Config, d: Digest, n: int, from: int, to: int) {
    n >= 1 ==>
      && d.took.Some? && from + config.interval * (n - 1) <= d.took.value.1
      && from + config.interval * (n - 1) <= to
  }

  lemma TakeSpreads(config: Config, d: Digest, e: Event, n: int, from: int, to: int)
    requires config.Valid() && Follows(config, d, e) && Spread(config, d, n, from, to)
    ensures Spread(config, Note(d, e), if e.Took? && !e.forced && from <= e.at <= to then n + 1 else n, from, to)
  {
    assert config.interval * n == config.interval * (n - 1) + config.interval;
  }

  lemma {:induction false} UnforcedAreSpread(config: Config, log: seq<Event>, from: int, to: int)
    requires config.Valid() && Orderly(config, log)
    ensures Spread(config, Read(log), TakesIn(log, from, to) - ForcedIn(log, from, to), from, to)
  {
    if log != [] {
      var rest := log[..|log| - 1];
      InitIsOrderly(config, log);
      UnforcedAreSpread(config, rest, from, to);
      hide Orderly, Read, Spread;
      TakeSpreads(config, Read(rest), log[|log| - 1], TakesIn(rest, from, to) - ForcedIn(rest, from, to), from, to);
    }
  }

  lemma SpreadBoundsCount(n: int, interval: int, length: int)
    requires interval > 0 && n >= 1 && interval * (n - 1) <= length
    ensures n <= length / interval + 1
  {
    var q := length / interval;
    assert length < interval * (q + 1);
    assert n - 1 >= q + 1 ==> interval * (n - 1) >= interval * (q + 1);
  }

  /**
   In any window of time the takes number at most its length divided by the
   interval, plus one, plus the forced takes in it.
   */
  lemma RateIsBounded(config: Config, states: seq<Sys>, actions: seq<Action>, i: nat, s: Sys, from: int, length: nat)
    requires At(config, states, actions, i, s) && config.interval > 0
    ensures (TakesIn(s.shared.log, from, from + length)
             <= length / config.interval + 1 + ForcedIn(s.shared.log, from, from + length))
  {
    var log := s.shared.log;
    LogIsOrderly(config, states, actions, i, s);
    hide Orderly, Read;
    UnforcedAreSpread(config, log, from, from + length);
    var n := TakesIn(log, from, from + length) - ForcedIn(log, from, from + length);
    if n >= 1 {
      SpreadBoundsCount(n, config.interval, length);
    } else {
      assert length / config.interval >= 0;
    }
  }

  lemma {:induction false} ForcedByOffer(log: seq<Event>) returns (j: nat)
    requires Read(log).forced
    ensures j < |log| && log[j].Offered? && log[j].force && NoTake(log, j + 1, |log|)
  {
    var e := log[|log| - 1];
    if e.Offered? && e.force {
      j := |log| - 1;
    } else {
      j := ForcedByOffer(log[..|log| - 1]);
    }
  }

  /** A take is forced only by a forced offer since the take before. */
  lemma ForcedTakesWereOffered(config: Config, states: seq<Sys>, actions: seq<Action>, i: nat, s: Sys, k: nat) returns (j: nat)
    requires At(config, states, actions, i, s) && k < |s.shared.log| && s.shared.log[k].Took? && s.shared.log[k].forced
    ensures j < k && s.shared.log[j].Offered? && s.shared.log[j].force && NoTake(s.shared.log, j + 1, k)
  {
    var log := s.shared.log;
    LogIsOrderly(config, states, actions, i, s);
    hide Orderly, Read, SharedOk, IsRun;
    PrefixIsOrderly(config, log, k);
    j := ForcedByOffer(log[..k]);
    assert log[..k][j] == log[j] && forall m :: 0 <= m < k ==> log[..k][m] == log[m];
  }

  lemma {:induction false} RetryStands(log: seq<Event>, j: nat)
    requires j < |log| && log[j].Retried?
    requires forall m :: j < m < |log| ==> !log[m].Retried?
    ensures Read(log).retry == Some(log[j].until)
  {
    if j < |log| - 1 {
      RetryStands(log[..|log| - 1], j);
    }
  }

  /** After a failed update no unforced take happens before the retry time. */
  lemma RetryTimeIsKept(config: Config, states: seq<Sys>, actions: seq<Action>, i: nat, s: Sys, j: nat, k: nat)
    requires At(config, states, actions, i, s)
    requires j < k < |s.shared.log| && s.shared.log[j].Retried? && s.shared.log[k].Took? && !s.shared.log[k].forced
    requires forall m :: j < m < k ==> !s.shared.log[m].Retried?
    ensures s.shared.log[k].at >= s.shared.log[j].until
  {
    LogIsOrderly(config, states, actions, i, s);
    hide Orderly, Read;
    RetryStands(s.shared.log[..k], j);
    PrefixIsOrderly(config, s.shared.log, k);
  }

  /** A failure at this time is still to be put back, or stands as a retry time that is late enough. */
  ghost predicate Waits(config: Config, d: Digest, since: int) {
    if d.stage.Unsent? then d.stage.since == since
    else d.stage.AtRest? && d.retry.Some? && d.retry.value >= since + config.retryDelay
  }

  lemma WaitGoesOn(config: Config, d: Digest, e: Event, since: int)
    requires Follows(config, d, e) && !e.Took? && Waits(config, d, since)
    ensures Waits(config, Note(d, e), since)
  {
  }

  lemma WaitBegins(config: Config, d: Digest, e: Event)
    requires Follows(config, d, e) && e.ProgressEnd? && e.reply.Transient?
    ensures Waits(config, Note(d, e), e.at)
  {
  }

  lemma {:induction false} FailureStands(config: Config, log: seq<Event>, e: nat)
    requires Orderly(config, log) && e < |log| && log[e].ProgressEnd? && log[e].reply.Transient? && NoTake(log, e + 1, |log|)
    ensures Waits(config, Read(log), log[e].at)
  {
    hide Orderly, Read, Follows, Waits, Note;
    var rest, last := log[..|log| - 1], log[|log| - 1];
    InitIsOrderly(config, log);
    if e < |log| - 1 {
      FailureStands(config, rest, e);
      WaitGoesOn(config, Read(rest), last, log[e].at);
    } else {
      WaitBegins(config, Read(rest), last);
    }
  }

  /** After a transient failure no unforced take happens until the retry delay is over. */
  lemma FailedUpdatesWait(config: Config, states: seq<Sys>, actions: seq<Action>, i: nat, s: Sys, e: nat, k: nat)
    requires At(config, states, actions, i, s)
    requires e < k < |s.shared.log| && s.shared.log[e].ProgressEnd? && s.shared.log[e].reply.Transient?
    requires s.shared.log[k].Took? && !s.shared.log[k].forced && NoTake(s.shared.log, e + 1, k)
    ensures s.shared.log[k].at >= s.shared.log[e].at + config.retryDelay
  {
    var log := s.shared.log;
    LogIsOrderly(config, states, actions, i, s);
    hide Orderly, Read, SharedOk, IsRun;
    PrefixIsOrderly(config, log, k);
    assert log[..k][e] == log[e];
    FailureStands(config, log[..k], e);
  }
}
