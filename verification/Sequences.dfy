/**
 CardKit sequence numbers.  A durable table hands out blocks of numbers per
 message; every stream counts through the block it holds.  Streams come and go,
 the process restarts, and the clock that seeds a block may say anything.
 */
module Sequences {
  import opened Tables

  const MAX_SEQUENCE := 2147483647

  const BLOCK_SIZE := 8192

  datatype Reservation = Reserved(start: int) | NotReserved

  /** `ReserveCardStreamSequence` on the table of last sequences. */
  function Reserve(table: map<Id, int>, message: Id, minimum: int, count: int): (map<Id, int>, Reservation) {
    if message == NO_ID || minimum < 1 || minimum > MAX_SEQUENCE || count < 1 || count > MAX_SEQUENCE
    then (table, NotReserved)
    else
      var last := if message in table then table[message] else 0;
      var start := if last >= minimum then last + 1 else minimum;
      if start > MAX_SEQUENCE || count - 1 > MAX_SEQUENCE - start then (table, NotReserved)
      else (table[message := start + count - 1], Reserved(start))
  }

  /** The CHECK constraint of the table. */
  ghost predicate TableOk(table: map<Id, int>) {
    forall m :: m in table ==> 1 <= table[m] <= MAX_SEQUENCE
  }

  /**
   A reservation succeeds exactly when the arguments are in range and the block
   still fits; then the whole block is new and the table remembers its end.
   */
  lemma ReservedBlockIsNew(table: map<Id, int>, message: Id, minimum: int, count: int)
    requires TableOk(table)
    ensures var (table', r) := Reserve(table, message, minimum, count);
            var last := if message in table then table[message] else 0;
            && TableOk(table')
            && (r.NotReserved? ==> table' == table)
            && (r.Reserved? ==> r.start > last && r.start >= minimum && (r.start == last + 1 || r.start == minimum)
                                && table' == table[message := r.start + count - 1])
            && (r.Reserved? <==> message != NO_ID && 1 <= minimum <= MAX_SEQUENCE && 1 <= count
                                 && (if last >= minimum then last else minimum - 1) + count <= MAX_SEQUENCE)
  {
  }

  // ---- Streams --------------------------------------------------------------------

  /** The counting part of `taskCardStream`. */
  datatype Counter = Counter(message: Id, next: int, end: int)

  datatype State = State(table: map<Id, int>, streams: map<nat, Counter>, used: seq<(Id, int)>)

  datatype Event = OpenStream(id: nat, message: Id) | Take(id: nat, clock: int, stored: bool) | DropStream(id: nat) | RestartProcess

  /** `reserveTaskStreamSequence` and the refill of `nextTaskStreamSequence`; `stored` is false when the store fails. */
  function Refill(table: map<Id, int>, c: Counter, clock: int, stored: bool): (map<Id, int>, Counter, bool) {
    if !(c.next == 0 || c.next > c.end) then (table, c, true)
    else
      var (table', r) := Reserve(table, c.message, clock, BLOCK_SIZE);
      if !stored || r.NotReserved? then (table, c, false)
      else (table', Counter(c.message, r.start, r.start + BLOCK_SIZE - 1), true)
  }

  predicate CanDo(s: State, e: Event) {
    match e
    case OpenStream(id, _) => id !in s.streams
    case Take(id, _, _) => id in s.streams
    case DropStream(id) => id in s.streams
    case RestartProcess => true
  }

  function Do(s: State, e: Event): State
    requires CanDo(s, e)
  {
    match e
    case OpenStream(id, message) => s.(streams := s.streams[id := Counter(message, 0, 0)])
    case Take(id, clock, stored) =>
      var (table', c, filled) := Refill(s.table, s.streams[id], clock, stored);
      if !filled then s
      else State(table', s.streams[id := c.(next := c.next + 1)], s.used + [(c.message, c.next)])
    case DropStream(id) => s.(streams := s.streams - {id})
    case RestartProcess => s.(streams := map[])
  }

  const NOTHING_USED := State(map[], map[], [])

  ghost predicate IsHistory(states: seq<State>, events: seq<Event>) {
    && |states| == |events| + 1
    && states[0] == NOTHING_USED
    && forall i :: 0 <= i < |events| ==> CanDo(states[i], events[i]) && states[i + 1] == Do(states[i], events[i])
  }

  // ---- The numbers a stream still holds are nobody else's ---------------------------------

  predicate Holds(c: Counter, n: int) {
    0 < c.next <= n <= c.end
  }

  ghost predicate BlocksDisjoint(streams: map<nat, Counter>) {
    forall x, y, n ::
      (x in streams && y in streams && x != y && streams[x].message == streams[y].message && Holds(streams[x], n)) ==>
        !Holds(streams[y], n)
  }

  ghost predicate BlocksReserved(table: map<Id, int>, streams: map<nat, Counter>) {
    forall x :: x in streams && 0 < streams[x].next <= streams[x].end ==>
      streams[x].message in table && streams[x].end <= table[streams[x].message]
  }

  ghost predicate UsedOk(s: State) {
    && (forall i :: 0 <= i < |s.used| ==> s.used[i].0 in s.table && 1 <= s.used[i].1 <= s.table[s.used[i].0])
    && (forall i, x :: 0 <= i < |s.used| && x in s.streams && s.streams[x].message == s.used[i].0 ==>
          !Holds(s.streams[x], s.used[i].1))
    && (forall i, j :: 0 <= i < j < |s.used| ==> s.used[i] != s.used[j])
  }

  ghost predicate Sound(s: State) {
    && TableOk(s.table)
    && (forall x :: x in s.streams ==> s.streams[x].next >= 0)
    && BlocksDisjoint(s.streams) && BlocksReserved(s.table, s.streams) && UsedOk(s)
  }

  /** A block beyond everything reserved so far collides with nothing. */
  lemma NewBlockKeepsSound(s: State, id: nat, table': map<Id, int>, c: Counter)
    requires Sound(s) && id in s.streams && c.message == s.streams[id].message
    requires 1 <= c.next <= c.end <= MAX_SEQUENCE && table' == s.table[c.message := c.end]
    requires c.message in s.table ==> c.next > s.table[c.message]
    ensures Sound(State(table', s.streams[id := c], s.used))
  {
    var s' := State(table', s.streams[id := c], s.used);
    forall x, n | x in s.streams && s.streams[x].message == c.message && Holds(s.streams[x], n) ensures !Holds(c, n) {
    }
    assert BlocksDisjoint(s'.streams);
    assert BlocksReserved(s'.table, s'.streams);
    assert UsedOk(s');
  }

  /** After a refill the stream holds its next number, and nothing about the others changed. */
  lemma RefillKeepsSound(s: State, id: nat, clock: int, stored: bool)
    requires Sound(s) && id in s.streams
    ensures var (table', c, filled) := Refill(s.table, s.streams[id], clock, stored);
            && Sound(State(table', s.streams[id := c], s.used))
            && c.message == s.streams[id].message
            && (filled ==> Holds(c, c.next) && c.message in table' && c.end <= table'[c.message])
  {
    var (table', c, filled) := Refill(s.table, s.streams[id], clock, stored);
    ReservedBlockIsNew(s.table, s.streams[id].message, clock, BLOCK_SIZE);
    if c == s.streams[id] {
      hide BlocksDisjoint, UsedOk;
      assert s.streams[id := c] == s.streams;
    } else {
      hide BlocksDisjoint, BlocksReserved, UsedOk;
      NewBlockKeepsSound(s, id, table', c);
    }
  }

  lemma TakeKeepsSound(s: State, id: nat)
    requires Sound(s) && id in s.streams && Holds(s.streams[id], s.streams[id].next)
    ensures var c := s.streams[id];
            Sound(State(s.table, s.streams[id := c.(next := c.next + 1)], s.used + [(c.message, c.next)]))
  {
    var c := s.streams[id];
    var s' := State(s.table, s.streams[id := c.(next := c.next + 1)], s.used + [(c.message, c.next)]);
    assert forall n :: Holds(s'.streams[id], n) ==> Holds(c, n);
    assert BlocksDisjoint(s'.streams);
    assert BlocksReserved(s'.table, s'.streams);
    assert UsedOk(s') by {
      forall i, x | 0 <= i < |s'.used| && x in s'.streams && s'.streams[x].message == s'.used[i].0
        ensures !Holds(s'.streams[x], s'.used[i].1)
      {
        if i == |s.used| && x != id { assert Holds(c, c.next); }
      }
      forall i | 0 <= i < |s.used| ensures s.used[i] != (c.message, c.next) {
        assert Holds(c, c.next);
      }
    }
  }

  lemma TakeStepKeepsSound(s: State, id: nat, clock: int, stored: bool)
    requires Sound(s) && id in s.streams
    ensures Sound(Do(s, Take(id, clock, stored)))
  {
    hide Sound, Refill;
    var (table', c, filled) := Refill(s.table, s.streams[id], clock, stored);
    RefillKeepsSound(s, id, clock, stored);
    if filled {
      TakeKeepsSound(State(table', s.streams[id := c], s.used), id);
      assert s.streams[id := c][id := c.(next := c.next + 1)] == s.streams[id := c.(next := c.next + 1)];
    }
  }

  /** A stream that holds no number may come, and any stream may go. */
  lemma OpenKeepsSound(s: State, id: nat, message: Id)
    requires Sound(s) && id !in s.streams
    ensures Sound(Do(s, OpenStream(id, message)))
  {
  }

  lemma DropKeepsSound(s: State, kept: map<nat, Counter>)
    requires Sound(s) && kept.Keys <= s.streams.Keys && forall x :: x in kept ==> kept[x] == s.streams[x]
    ensures Sound(s.(streams := kept))
  {
  }

  lemma DoKeepsSound(s: State, e: Event)
    requires Sound(s) && CanDo(s, e)
    ensures Sound(Do(s, e))
  {
    hide Sound, Refill;
    match e
    case OpenStream(id, message) => OpenKeepsSound(s, id, message);
    case Take(id, clock, stored) => TakeStepKeepsSound(s, id, clock, stored);
    case DropStream(id) => DropKeepsSound(s, s.streams - {id});
    case RestartProcess => DropKeepsSound(s, map[]);
  }

  lemma {:induction false} HistoryIsSound(states: seq<State>, events: seq<Event>, i: nat)
    requires IsHistory(states, events) && i < |states|
    ensures Sound(states[i])
  {
    if i > 0 {
      HistoryIsSound(states, events, i - 1);
      DoKeepsSound(states[i - 1], events[i - 1]);
    }
  }

  /**
   For any clock values, any streams and any restarts: the sequence numbers used
   for a message are pairwise distinct and lie between 1 and 2147483647.
   */
  lemma SequencesNeverRepeat(states: seq<State>, events: seq<Event>, i: nat)
    requires IsHistory(states, events) && i < |states|
    ensures forall j, k :: 0 <= j < k < |states[i].used| ==> states[i].used[j] != states[i].used[k]
    ensures forall j :: 0 <= j < |states[i].used| ==> 1 <= states[i].used[j].1 <= MAX_SEQUENCE
  {
    HistoryIsSound(states, events, i);
  }

  /**
   When a stream gets a number: one of its block while it has any; otherwise the store
   has to answer, and a block of 8192 has to fit above all that was reserved and above
   the clock.  A stream that gets none changes nothing.
   */
  lemma TakesANumberIff(states: seq<State>, events: seq<Event>, i: nat, id: nat, clock: int, stored: bool)
    requires IsHistory(states, events) && i < |states| && id in states[i].streams
    ensures var s := states[i];
            var c := s.streams[id];
            var last := if c.message in s.table then s.table[c.message] else 0;
            var s' := Do(s, Take(id, clock, stored));
            if Holds(c, c.next) then s'.used == s.used + [(c.message, c.next)] && s'.table == s.table
            else if stored && c.message != NO_ID && 1 <= clock <= 2147483647 && last + 8192 <= 2147483647 && clock + 8191 <= 2147483647
            then
              var number := if last < clock then clock else last + 1;
              s'.used == s.used + [(c.message, number)] && s'.table == s.table[c.message := number + 8191]
            else s' == s
  {
    HistoryIsSound(states, events, i);
    hide BlocksDisjoint, BlocksReserved, UsedOk;
    ReservedBlockIsNew(states[i].table, states[i].streams[id].message, clock, BLOCK_SIZE);
  }

  // ---- Serialised sends: the numbers grow -----------------------------------------------------

  /** The sends on a message are serialised: at most one of its streams lives at a time. */
  ghost predicate OneStream(s: State, message: Id) {
    forall x, y :: x in s.streams && y in s.streams && s.streams[x].message == message && s.streams[y].message == message ==> x == y
  }

  ghost predicate Growing(s: State, message: Id) {
    && (forall j, k :: 0 <= j < k < |s.used| && s.used[j].0 == message && s.used[k].0 == message ==> s.used[j].1 < s.used[k].1)
    && (forall j, x :: 0 <= j < |s.used| && s.used[j].0 == message && x in s.streams ==>
          s.streams[x].message == message && 0 < s.streams[x].next <= s.streams[x].end ==> s.used[j].1 < s.streams[x].next)
  }

  /** The number taken next is above all that were used for the message. */
  lemma NextIsAbove(s: State, id: nat, clock: int, stored: bool, j: nat)
    requires Sound(s) && id in s.streams && Growing(s, s.streams[id].message)
    requires j < |s.used| && s.used[j].0 == s.streams[id].message
    ensures var (table', c, filled) := Refill(s.table, s.streams[id], clock, stored);
            filled ==> s.used[j].1 < c.next
  {
    hide BlocksDisjoint, BlocksReserved;
    ReservedBlockIsNew(s.table, s.streams[id].message, clock, BLOCK_SIZE);
  }

  lemma TakeKeepsGrowing(s: State, e: Event, message: Id)
    requires Sound(s) && CanDo(s, e) && OneStream(s, message) && Growing(s, message)
    requires e.Take? && s.streams[e.id].message == message
    ensures Growing(Do(s, e), message)
  {
    hide Sound, Refill, Growing;
    var (table', c, filled) := Refill(s.table, s.streams[e.id], e.clock, e.stored);
    RefillKeepsSound(s, e.id, e.clock, e.stored);
    if filled {
      forall j | 0 <= j < |s.used| && s.used[j].0 == message ensures s.used[j].1 < c.next {
        NextIsAbove(s, e.id, e.clock, e.stored, j);
      }
      OneMoreGrows(s, Do(s, e), e.id, c);
    }
  }

  lemma OneMoreGrows(s: State, s': State, id: nat, c: Counter)
    requires id in s.streams && s.streams[id].message == c.message && OneStream(s, c.message) && Growing(s, c.message)
    requires s'.used == s.used + [(c.message, c.next)] && s'.streams == s.streams[id := c.(next := c.next + 1)]
    requires forall j :: 0 <= j < |s.used| && s.used[j].0 == c.message ==> s.used[j].1 < c.next
    ensures Growing(s', c.message)
  {
    assert forall j :: 0 <= j < |s.used| ==> s'.used[j] == s.used[j];
    forall j, x | 0 <= j < |s'.used| && s'.used[j].0 == c.message && x in s'.streams && s'.streams[x].message == c.message
      ensures s'.used[j].1 < s'.streams[x].next
    {
      assert x == id;
    }
  }

  lemma DoKeepsGrowing(s: State, e: Event, message: Id)
    requires Sound(s) && CanDo(s, e) && OneStream(s, message) && Growing(s, message)
    ensures Growing(Do(s, e), message)
  {
    hide Sound, Refill;
    if e.Take? && s.streams[e.id].message == message {
      hide Growing, OneStream;
      TakeKeepsGrowing(s, e, message);
    } else if e.Take? {
      RefillKeepsSound(s, e.id, e.clock, e.stored);
    }
  }

  /** When its sends are serialised, the numbers of a message strictly increase, through every restart. */
  lemma {:induction false} SequencesIncrease(states: seq<State>, events: seq<Event>, i: nat, message: Id)
    requires IsHistory(states, events) && i < |states|
    requires forall k :: 0 <= k < |states| ==> OneStream(states[k], message)
    ensures Growing(states[i], message)
  {
    if i > 0 {
      SequencesIncrease(states, events, i - 1, message);
      HistoryIsSound(states, events, i - 1);
      DoKeepsGrowing(states[i - 1], events[i - 1], message);
    }
  }
}
