/** Whole runs of the timer thread, with other threads inserting and cancelling while it sleeps: how late a timer fires,
    and that it fires once. */
module TimerRuns {
  import opened TimerHeap
  import opened TimerFacts

  // ── How late ──

  /** One round: the sleep is computed at `start`, other threads act, the next poll comes at `poll`. */
  datatype Round = Round(start: int, others: seq<Op>, poll: int, clock: nat -> int)

  datatype Config = Config(minSleep: nat, maxPoll: nat, lag: nat)

  /** The state that the poll of a round finds. */
  function Found(s: Timers, r: Round): Timers { DoAll(s, r.others).0 }

  function Next(s: Timers, r: Round): Timers { Polled(Found(s, r), r.poll, r.clock).0 }

  function Sleeps(c: Config, s: Timers, r: Round): nat { SleepFor(NextDeadline(s), r.start, c.minSleep, c.maxPoll) }

  /** The round's sleep is as computed, up to the lag, and only inserts and cancels happen meanwhile. */
  ghost predicate TimedRound(c: Config, s: Timers, r: Round) {
    && (forall i | 0 <= i < |r.others| :: !r.others[i].Poll?) && AllAllowed(s, r.others)
    && r.start + Sleeps(c, s, r) <= r.poll <= r.start + Sleeps(c, s, r) + c.lag
  }

  /** The thread sleeps as computed, and is at most `lag` late in waking up and in going to sleep again. */
  ghost predicate Timed(c: Config, s: Timers, rounds: seq<Round>)
    decreases |rounds|
  {
    rounds == [] ||
    (&& TimedRound(c, s, rounds[0])
     && (|rounds| > 1 ==> rounds[0].poll <= rounds[1].start <= rounds[0].poll + c.lag)
     && Timed(c, Next(s, rounds[0]), rounds[1..]))
  }

  predicate Spares(ops: seq<Op>, h: nat) { forall i | 0 <= i < |ops| :: ops[i] != Cancel(h) }

  predicate AllSpare(rounds: seq<Round>, h: nat) { forall i | 0 <= i < |rounds| :: Spares(rounds[i].others, h) }

  /** What other threads do leaves a timer live unless they cancel it. */
  lemma {:induction false} LiveThrough(s: Timers, ops: seq<Op>, e: Entry)
    requires Valid(s) && AllAllowed(s, ops) && e in Live(s) && Spares(ops, e.handle)
    requires forall i | 0 <= i < |ops| :: !ops[i].Poll?
    ensures Valid(DoAll(s, ops).0) && e in Live(DoAll(s, ops).0)
    decreases |ops|
  {
    if ops != [] {
      StepRefines(s, {}, ops[0]);
      assert !ops[0].Poll? && ops[0] != Cancel(e.handle);
      assert Valid(Do(s, ops[0]).0) && e in Live(Do(s, ops[0]).0);
      hide Valid, Live, Do, Allowed;
      LiveThrough(Do(s, ops[0]).0, ops[1..], e);
    }
  }

  /** The timer fires in the first poll at or after its deadline, late by at most the minimum sleep and the lags, or is
      still live because no poll has come to its deadline. */
  ghost predicate OnTime(c: Config, s: Timers, rounds: seq<Round>, e: Entry)
    decreases |rounds|
  {
    if rounds == [] then e in Live(s)
    else if e.deadline <= rounds[0].poll then
      FiresIn(s, rounds[0], e) && rounds[0].poll <= e.deadline + c.minSleep + 2 * c.lag
    else OnTime(c, Next(s, rounds[0]), rounds[1..], e)
  }

  ghost predicate FiresIn(s: Timers, r: Round, e: Entry) { Fires(Found(s, r), r.poll, r.clock, e) }

  lemma {:induction false} StaysValid(s: Timers, ops: seq<Op>)
    requires Valid(s) && AllAllowed(s, ops)
    ensures Valid(DoAll(s, ops).0)
  {
    var recent := RunRefines(s, {}, ops);
  }

  lemma {:induction false} PollStays(s: Timers, now: int, clock: nat -> int)
    requires Valid(s)
    ensures Valid(Polled(s, now, clock).0)
  {
    hide *;
    var fired := PollRefines(s, now, clock);
  }

  /** What a poll at the end of a round does to a timer that it finds live. */
  lemma {:induction false} RoundFires(c: Config, s: Timers, r: Round, e: Entry)
    requires Valid(s) && TimedRound(c, s, r) && e in Live(Found(s, r))
    ensures Valid(Next(s, r)) && r.poll <= r.start + Greater(c.minSleep, c.maxPoll) + c.lag
    ensures e.deadline <= r.poll ==> FiresIn(s, r, e)
    ensures e.deadline > r.poll ==> e in Live(Next(s, r))
    ensures e in Live(s) ==> r.poll <= Greater(e.deadline, r.start + c.minSleep) + c.lag
    ensures e in Live(s) && e.deadline <= r.start ==> r.poll <= r.start + c.lag
  {
    hide Valid, Live, Polled, Fires, SleepFor, NextDeadline;
    StaysValid(s, r.others);
    DueFires(Found(s, r), r.poll, r.clock, e);
    PollStays(Found(s, r), r.poll, r.clock);
    NeverOversleeps(s, r.start, c.minSleep, c.maxPoll);
  }

  /** Over every run of the timer thread, a timer that is live when a sleep is computed, no more than the lag after its
      deadline, fires on time unless it is cancelled. */
  lemma {:induction false} FiresOnTime(c: Config, s: Timers, rounds: seq<Round>, e: Entry)
    requires Valid(s) && Timed(c, s, rounds) && e in Live(s) && AllSpare(rounds, e.handle)
    requires rounds != [] ==> rounds[0].start <= e.deadline + c.lag
    ensures OnTime(c, s, rounds, e)
    decreases |rounds|
  {
    if rounds != [] {
      hide Valid, Live, FiresIn, Next, Sleeps;
      assert Spares(rounds[0].others, e.handle);
      LiveThrough(s, rounds[0].others, e);
      RoundFires(c, s, rounds[0], e);
      if e.deadline > rounds[0].poll {
        FiresOnTime(c, Next(s, rounds[0]), rounds[1..], e);
      }
    }
  }

  /** A timer inserted while the thread sleeps is seen by the poll that ends this sleep, at most a polling interval, or
      the minimum sleep, after the sleep began; if it is not due then, it fires on time. */
  lemma {:induction false} InsertedFiresOnTime(c: Config, s: Timers, rounds: seq<Round>, e: Entry)
    requires Valid(s) && rounds != [] && Timed(c, s, rounds) && AllSpare(rounds[1..], e.handle)
    requires e in Live(Found(s, rounds[0]))
    ensures rounds[0].poll <= rounds[0].start + Greater(c.minSleep, c.maxPoll) + c.lag
    ensures e.deadline <= rounds[0].poll ==> FiresIn(s, rounds[0], e)
    ensures e.deadline > rounds[0].poll ==> OnTime(c, Next(s, rounds[0]), rounds[1..], e)
  {
    hide Valid, Live, FiresIn, Next, Sleeps, OnTime, Found;
    RoundFires(c, s, rounds[0], e);
    if e.deadline > rounds[0].poll {
      FiresOnTime(c, Next(s, rounds[0]), rounds[1..], e);
    }
  }

  // ── Once ──

  function FiredBy(s: Timers, op: Op): seq<Entry> {
    if op.Poll? then Sweep(s.heap, s.cancelled, op.now).0 else []
  }

  /** Everything that the polls of a run report, in order. */
  function FiredIn(s: Timers, ops: seq<Op>): seq<Entry>
    decreases |ops|
  {
    if ops == [] then [] else FiredBy(s, ops[0]) + FiredIn(Do(s, ops[0]).0, ops[1..])
  }

  /** No entry is inserted under a handle that some entry had before. */
  ghost predicate NewInserts(s: Timers, used: set<nat>, ops: seq<Op>)
    decreases |ops|
  {
    ops == [] ||
    ((ops[0].Insert? ==> ops[0].e.handle !in used) &&
     NewInserts(Do(s, ops[0]).0, used + Handles(Do(s, ops[0]).0.heap), ops[1..]))
  }

  /** `gone` are handles of entries that have fired. */
  ghost predicate Gone(s: Timers, used: set<nat>, gone: set<nat>) {
    && Handles(s.heap) <= used && gone <= used && gone !! Handles(s.heap) && forall h | h in used :: h < s.next
  }

  lemma {:induction false} FiredDistinct(heap: seq<Entry>, fired: seq<Entry>)
    requires Distinct(heap) && Sorted(fired) && forall e | e in fired :: e in heap
    ensures Distinct(fired)
  {
    forall i, j | 0 <= i < j < |fired| ensures fired[i].handle != fired[j].handle {
      assert fired[i] in heap && fired[j] in heap;
      var a :| 0 <= a < |heap| && heap[a] == fired[i];
      var b :| 0 <= b < |heap| && heap[b] == fired[j];
    }
  }

  lemma {:induction false} PollGone(s: Timers, used: set<nat>, gone: set<nat>, now: int, clock: nat -> int)
    requires Valid(s) && Gone(s, used, gone)
    ensures var t := Polled(s, now, clock).0;
      var fired := Sweep(s.heap, s.cancelled, now).0;
      Distinct(fired) && (forall e | e in fired :: e.handle !in gone) &&
      Gone(t, used + Handles(t.heap), gone + Handles(fired))
  {
    var sw := Sweep(s.heap, s.cancelled, now);
    var again := Successors(sw.0, s.next, clock, 0);
    SweepFacts(s.heap, s.cancelled, now);
    SuccessorsFresh(sw.0, s.next, clock);
    PutAllFacts(sw.1, again);
    FiredDistinct(s.heap, sw.0);
    SuccessorsMatch(sw.0, s.next, clock, 0);
    hide Sweep, Successors, PutAll, Renewed, Sorted;
    FiredNotLeft(s.heap, sw.0, sw.1, now);
  }

  /** What fired is not what is left. */
  lemma {:induction false} FiredNotLeft(heap: seq<Entry>, fired: seq<Entry>, rest: seq<Entry>, now: int)
    requires Distinct(heap) && forall e | e in fired :: e in heap && e.deadline <= now
    requires forall e | e in rest :: e in heap && e.deadline > now
    ensures forall x, y | x in fired && y in rest :: x.handle != y.handle
  {
    forall x, y | x in fired && y in rest ensures x.handle != y.handle {
      var a :| 0 <= a < |heap| && heap[a] == x;
      var b :| 0 <= b < |heap| && heap[b] == y;
    }
  }

  lemma {:induction false} StepGone(s: Timers, used: set<nat>, gone: set<nat>, op: Op)
    requires Valid(s) && Allowed(s, op) && Gone(s, used, gone) && (op.Insert? ==> op.e.handle !in used)
    ensures Distinct(FiredBy(s, op)) && (forall e | e in FiredBy(s, op) :: e.handle !in gone)
    ensures var t := Do(s, op).0; Gone(t, used + Handles(t.heap), gone + Handles(FiredBy(s, op)))
  {
    match op
    case Issue =>
    case Insert(e) => PutFacts(s.heap, e);
    case Cancel(h) =>
    case Poll(now, clock) => PollGone(s, used, gone, now, clock);
  }

  lemma {:induction false} DistinctJoin(a: seq<Entry>, b: seq<Entry>)
    requires Distinct(a) && Distinct(b) && forall x | x in b :: x.handle !in Handles(a)
    ensures Distinct(a + b)
  {
    assert forall i | 0 <= i < |a| :: a[i].handle in Handles(a);
    assert forall i | 0 <= i < |b| :: b[i] in b;
  }

  lemma {:induction false} FiredOnceFrom(s: Timers, used: set<nat>, gone: set<nat>, ops: seq<Op>)
    requires Valid(s) && AllAllowed(s, ops) && NewInserts(s, used, ops) && Gone(s, used, gone)
    ensures Distinct(FiredIn(s, ops)) && forall e | e in FiredIn(s, ops) :: e.handle !in gone
    decreases |ops|
  {
    if ops != [] {
      var op := ops[0];
      hide Valid, Gone, Do, Allowed;
      StepRefines(s, {}, op);
      StepGone(s, used, gone, op);
      var t, fired := Do(s, op).0, FiredBy(s, op);
      FiredOnceFrom(t, used + Handles(t.heap), gone + Handles(fired), ops[1..]);
      hide FiredBy, Distinct, Handles;
      DistinctJoin(fired, FiredIn(t, ops[1..]));
    }
  }

  /** In every run no entry is reported twice, provided that each is inserted under a new handle. */
  lemma {:induction false} FiredOnce(s: Timers, ops: seq<Op>)
    requires Valid(s) && AllAllowed(s, ops) && NewInserts(s, Handles(s.heap), ops)
    ensures Distinct(FiredIn(s, ops))
  {
    assert Gone(s, Handles(s.heap), {});
    hide Valid, AllAllowed, NewInserts, Gone;
    FiredOnceFrom(s, Handles(s.heap), {}, ops);
  }
}
