/**
 The progress coalescer of one run: a one-place, latest-wins queue in front of a
 single flush worker, limited by an interval, a force flag and a retry-after time.
 First as functions on the queue's fields, then as the object the controller keeps.
 */
module Progress {
  import opened Tables

  /** The JSON text of a presentation; never empty. */
  type Key = k: nat | 0 < k witness 1

  const NO_KEY: nat := 0

  /** Two presentations may share a JSON text: invalid UTF-8 is replaced in it. */
  datatype Presentation = Presentation(key: Key, rest: nat)

  const NO_PRESENTATION := Presentation(1, 0)

  datatype Queue = Queue(
    pending: Presentation,
    pendingKey: nat,
    lastKey: nat,
    dirty: bool,
    force: bool,
    worker: bool,
    wake: bool,             // the one-slot wake channel is full
    terminal: bool,
    lastProgress: Option<int>,
    retryAfter: Option<int>)

  const NEW_QUEUE := Queue(NO_PRESENTATION, NO_KEY, NO_KEY, false, false, false, false, false, None, None)

  /** The queue already holds this presentation, or it is the last one attempted. */
  predicate Coalesces(q: Queue, p: Presentation) {
    p.key == if q.dirty then q.pendingKey else q.lastKey
  }

  /** `queueProgress`: true asks the caller to start the worker. */
  function Offer(q: Queue, p: Presentation, force: bool): (Queue, bool) {
    if q.terminal || Coalesces(q, p) then (q, false)
    else
      (q.(pending := p, pendingKey := p.key, dirty := true, force := q.force || force, wake := true, worker := true),
       !q.worker)
  }

  datatype Verdict = Exit | Wait(duration: int) | Take(presentation: Presentation)

  /** How long an unforced take still has to wait; not positive means no longer. */
  function RetryWait(q: Queue, now: int): int {
    if q.force || q.retryAfter.None? then 0 else q.retryAfter.value - now
  }

  function IntervalWait(q: Queue, now: int, interval: int): int {
    if q.force || q.lastProgress.None? then 0 else interval - (now - q.lastProgress.value)
  }

  /** `nextProgress`. */
  function Next(q: Queue, now: int, interval: int): (Queue, Verdict) {
    if q.terminal || !q.dirty then (q.(worker := false), Exit)
    else if RetryWait(q, now) > 0 then (q, Wait(RetryWait(q, now)))
    else
      var q' := if q.force then q else q.(retryAfter := None);
      if IntervalWait(q, now, interval) > 0 then (q', Wait(IntervalWait(q, now, interval)))
      else (q'.(lastKey := q.pendingKey, dirty := false, force := false, lastProgress := Some(now)), Take(q.pending))
  }

  /** `retryProgress`. */
  function Retry(q: Queue, p: Presentation, retryAfter: int): Queue {
    if q.terminal then q
    else if q.dirty then q.(retryAfter := Some(retryAfter))
    else q.(pending := p, pendingKey := p.key, dirty := true, retryAfter := Some(retryAfter))
  }

  /** What the queue stands for: the key of the presentation it was offered last. */
  function Newest(q: Queue): nat {
    if q.dirty then q.pendingKey else q.lastKey
  }

  /**
   An accepted or coalesced offer becomes the newest presentation; taking it and
   putting it back leave the newest one what it is, so a retry never overwrites
   a newer presentation.
   */
  lemma NewestIsTheLastOffered(q: Queue, p: Presentation, force: bool, now: int, interval: int, until: int)
    ensures !q.terminal ==> Newest(Offer(q, p, force).0) == p.key
    ensures q.terminal ==> Offer(q, p, force) == (q, false)
    ensures Newest(Next(q, now, interval).0) == Newest(q)
    ensures p.key == q.lastKey ==> Newest(Retry(q, p, until)) == Newest(q)
    ensures Next(q, now, interval).1.Take? ==> q.dirty && Next(q, now, interval).1.presentation == q.pending
  {
  }

  /**
   An accepted forced offer is taken at the worker's next look, whatever the times.
   A coalesced one changes nothing: forcing a presentation that already waits does
   not hurry it.
   */
  lemma ForcedOfferIsTakenAtOnce(q: Queue, p: Presentation, now: int, interval: int)
    requires !q.terminal
    ensures !Coalesces(q, p) ==> Next(Offer(q, p, true).0, now, interval).1 == Take(p)
    ensures Coalesces(q, p) ==> Offer(q, p, true) == (q, false)
  {
  }

  /** A pending presentation is taken exactly when it is forced or both its waits are over, and a wait is as long as it must be. */
  lemma TakenExactlyWhenDue(q: Queue, now: int, interval: int)
    requires !q.terminal && q.dirty
    ensures (Next(q, now, interval).1.Take? <==>
               q.force
               || ((q.retryAfter.Some? ==> now >= q.retryAfter.value)
                   && (q.lastProgress.Some? ==> now >= q.lastProgress.value + interval)))
    ensures Next(q, now, interval).1.Wait? ==>
              var due := now + Next(q, now, interval).1.duration;
              due > now && (q.retryAfter == Some(due) || (q.lastProgress.Some? && due == q.lastProgress.value + interval))
  {
  }

  /**
   A presentation that failed goes back: on a live queue something waits after a
   retry, the failed presentation if nothing newer waited and the newer one otherwise,
   not before the retry time; a terminal queue stays as it is.
   */
  lemma RetryPutsBack(q: Queue, p: Presentation, until: int, now: int, interval: int)
    ensures q.terminal ==> Retry(q, p, until) == q
    ensures !q.terminal ==>
              var q' := Retry(q, p, until);
              && q'.dirty && q'.retryAfter == Some(until) && q'.pending == (if q.dirty then q.pending else p)
              && q'.pendingKey == (if q.dirty then q.pendingKey else p.key)
              && q'.lastKey == q.lastKey && q'.force == q.force && q'.worker == q.worker && q'.wake == q.wake
              && q'.lastProgress == q.lastProgress && !q'.terminal
              && (!q.force && now < until ==> Next(q', now, interval).1 == Wait(until - now))
  {
  }

  /** An offer that is not coalesced waits, wakes the worker, and asks for one if there is none. */
  lemma OfferWaits(q: Queue, p: Presentation, force: bool)
    requires !q.terminal && !Coalesces(q, p)
    ensures var (q', start) := Offer(q, p, force);
            && q'.dirty && q'.pending == p && q'.pendingKey == p.key && q'.force == (q.force || force)
            && q'.wake && q'.worker && start == !q.worker
            && q'.lastKey == q.lastKey && q'.lastProgress == q.lastProgress && q'.retryAfter == q.retryAfter && !q'.terminal
  {
  }

  /** A take empties the queue and records what was taken and when. */
  lemma TakeRecords(q: Queue, now: int, interval: int)
    requires Next(q, now, interval).1.Take?
    ensures var (q', verdict) := Next(q, now, interval);
            && verdict.presentation == q.pending && q'.lastKey == q.pendingKey && !q'.dirty && !q'.force
            && q'.lastProgress == Some(now) && q'.worker == q.worker && q'.wake == q.wake
            && (!q.force ==> q'.retryAfter == None) && (q.force ==> q'.retryAfter == q.retryAfter)
  {
  }

  class ProgressQueue {
    var pending: Presentation
    var pendingKey: nat
    var lastKey: nat
    var dirty: bool
    var force: bool
    var worker: bool
    var wake: bool
    var terminal: bool
    var lastProgress: Option<int>
    var retryAfter: Option<int>

    ghost function State(): Queue
      reads this
    {
      Queue(pending, pendingKey, lastKey, dirty, force, worker, wake, terminal, lastProgress, retryAfter)
    }

    constructor ()
      ensures State() == NEW_QUEUE
    {
      pending, pendingKey, lastKey := NO_PRESENTATION, NO_KEY, NO_KEY;
      dirty, force, worker, wake, terminal := false, false, false, false, false;
      lastProgress, retryAfter := None, None;
    }

    method QueueProgress(presentation: Presentation, forced: bool) returns (start: bool)
      modifies this
      ensures (State(), start) == Offer(old(State()), presentation, forced)
    {
      if terminal {
        return false;
      }
      var key := presentation.key;
      if dirty && key == pendingKey {
        return false;
      }
      if !dirty && key == lastKey {
        return false;
      }
      pending := presentation;
      pendingKey := key;
      dirty := true;
      force := force || forced;
      wake := true;
      if worker {
        return false;
      }
      worker := true;
      start := true;
    }

    method NextProgress(now: int, interval: int) returns (presentation: Presentation, wait: int, ok: bool)
      modifies this
      ensures var (q, verdict) := Next(old(State()), now, interval);
              && State() == q
              && (!ok <==> verdict == Exit)
              && (ok && wait > 0 <==> verdict.Wait?) && (verdict.Wait? ==> wait == verdict.duration)
              && (verdict.Take? ==> presentation == verdict.presentation)
    {
      presentation, wait, ok := NO_PRESENTATION, 0, false;
      if terminal || !dirty {
        worker := false;
        return;
      }
      if !force && retryAfter.Some? {
        var remaining := retryAfter.value - now;
        if remaining > 0 {
          return NO_PRESENTATION, remaining, true;
        }
        retryAfter := None;
      }
      if !force && lastProgress.Some? {
        var remaining := interval - (now - lastProgress.value);
        if remaining > 0 {
          return NO_PRESENTATION, remaining, true;
        }
      }
      presentation := pending;
      lastKey := pendingKey;
      dirty := false;
      force := false;
      lastProgress := Some(now);
      ok := true;
    }

    method RetryProgress(presentation: Presentation, until: int)
      modifies this
      ensures State() == Retry(old(State()), presentation, until)
    {
      if terminal {
        return;
      }
      if !dirty {
        pending := presentation;
        pendingKey := presentation.key;
        dirty := true;
      }
      retryAfter := Some(until);
    }

    method StopProgressWorker()
      modifies this
      ensures State() == old(State()).(worker := false)
    {
      worker := false;
    }

    method MarkTerminal() returns (won: bool)
      modifies this
      ensures won == !old(terminal) && State() == old(State()).(terminal := true)
    {
      if terminal {
        return false;
      }
      terminal := true;
      won := true;
    }
  }
}
