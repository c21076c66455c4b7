/** How long an id can wait: the periodic check empties the global queue whatever the local queues do, also when the
    32-bit truncation of the pop counter wraps; with one worker every queued id is delivered within a bound. */
module ReadyQueueFairness {
  import opened Basics
  import opened Words
  import opened ReadyQueue
  import opened ReadyQueueFacts

  // ── The counter ──

  /** Pops until the next one that looks at the global queue first. */
  function Dist(c: nat): (d: nat)
    ensures d < GLOBAL_CHECK_INTERVAL && (d == 0 <==> Check(c))
  {
    var x := c % TWO32;
    var r := x % GLOBAL_CHECK_INTERVAL;
    if r == 0 then 0 else Least(GLOBAL_CHECK_INTERVAL - r, TWO32 - x)
  }

  lemma NextTruncated(c: nat)
    requires c < TWO64
    ensures Next(c) % TWO32 == if c % TWO32 + 1 == TWO32 then 0 else c % TWO32 + 1
  {
    var d := c / TWO32;
    assert c == d * TWO32 + c % TWO32;
  }

  lemma NextRemainder(x: nat)
    ensures var r := x % GLOBAL_CHECK_INTERVAL;
            (x + 1) % GLOBAL_CHECK_INTERVAL == if r + 1 == GLOBAL_CHECK_INTERVAL then 0 else r + 1
  {}

  /** The next check comes one pop closer; two checks never follow each other. */
  lemma DistStep(c: nat)
    requires c < TWO64
    ensures !Check(c) ==> Dist(Next(c)) == Dist(c) - 1
    ensures Check(c) ==> !Check(Next(c))
  {
    NextTruncated(c);
    var x := c % TWO32;
    NextRemainder(x);
    hide Next;
    if x + 1 == TWO32 {
      assert x % GLOBAL_CHECK_INTERVAL == 56;
    }
  }

  // ── Leaving the global queue ──

  /** The global queue and the pop counter of one worker. */
  datatype Watch = Watch(global: seq<Id>, counter: nat)

  /** What can happen to the global queue: an id arrives, others take some ids from the front, or the watched worker
      pops, taking the front on its periodic check and possibly more afterwards. */
  datatype Event = Arrives(id: Id) | Taken(n: nat) | Pops(more: nat)

  function Gone(g: Watch, e: Event): nat {
    match e
    case Arrives(_) => 0
    case Taken(n) => Least(n, |g.global|)
    case Pops(more) => Least((if Check(g.counter) then 1 else 0) + more, |g.global|)
  }

  function After(g: Watch, e: Event): Watch {
    match e
    case Arrives(id) => g.(global := g.global + [id])
    case Taken(_) => g.(global := g.global[Gone(g, e)..])
    case Pops(_) => Watch(g.global[Gone(g, e)..], Next(g.counter))
  }

  /** The id at position k is removed by some event of es. */
  predicate Leaves(g: Watch, k: nat, es: seq<Event>)
    decreases |es|
  {
    es != [] && (k < Gone(g, es[0]) || Leaves(After(g, es[0]), k - Gone(g, es[0]), es[1..]))
  }

  function PopCount(es: seq<Event>): nat {
    if es == [] then 0 else (if es[0].Pops? then 1 else 0) + PopCount(es[1..])
  }

  lemma {:induction false} LeavesByRank(g: Watch, k: nat, es: seq<Event>)
    requires k < |g.global| && g.counter < TWO64
    requires PopCount(es) >= GLOBAL_CHECK_INTERVAL * k + Dist(g.counter) + 1
    ensures Leaves(g, k, es)
    decreases |es|
  {
    var e := es[0];
    var gone := Gone(g, e);
    if k >= gone {
      DistStep(g.counter);
      LeavesByRank(After(g, e), k - gone, es[1..]);
    }
  }

  /** An id with k ids ahead of it leaves the global queue within 61 * (k + 1) pops of any one worker, whatever arrives
      or is taken by others meanwhile and wherever the counter stands. */
  lemma LeavesInTime(g: Watch, k: nat, es: seq<Event>)
    requires k < |g.global| && g.counter < TWO64
    requires PopCount(es) >= GLOBAL_CHECK_INTERVAL * (k + 1)
    ensures Leaves(g, k, es)
  {
    LeavesByRank(g, k, es);
  }

  lemma {:induction false} PutAllFits(q: Queues, w: nat, ids: seq<Id>)
    requires w < |q.locals| && |q.locals[w]| + |ids| <= LOCAL_CAPACITY
    ensures PutAll(q, w, ids) == q.(locals := q.locals[w := q.locals[w] + ids])
    decreases |ids|
  {
    if ids == [] {
      assert q.locals[w] + ids == q.locals[w];
      assert q.locals[w := q.locals[w] + ids] == q.locals;
    } else {
      var q1 := Pushed(q, ids[0], Some(w));
      PutAllFits(q1, w, ids[1..]);
      assert q1 == PutLocal(q, w, ids[0]);
      assert (q.locals[w] + [ids[0]]) + ids[1..] == q.locals[w] + ids;
    }
  }

  /** A worker with an empty queue never spills what it steals. */
  lemma {:induction false} StealNeverSpills(q: Queues, w: nat, tries: nat)
    requires Sized(q) && w < |q.locals| && q.locals[w] == []
    ensures Stolen(q, w, tries).0.global == q.global && Stolen(q, w, tries).0.counters == q.counters
    decreases tries
  {
    if tries > 0 {
      var (v, q1) := Draw(q, w);
      var n := |q1.locals[v]| / 2;
      if v == w || n == 0 {
        DrawKeeps(q, w);
        StealNeverSpills(q1, w, tries - 1);
      } else {
        PutAllFits(q1.(locals := q1.locals[v := q1.locals[v][n..]]), w, q1.locals[v][..n][1..]);
      }
    }
  }

  /** Every push and every pop by any worker is such an event, and exactly w's own pops count as its pops. */
  lemma OperationsAreEvents(q: Queues, op: Op, w: nat) returns (e: Event)
    requires Sized(q) && w < |q.locals|
    ensures var q' := Do(q, op).0;
            w < |q'.counters| && Watch(q'.global, q'.counters[w]) == After(Watch(q.global, q.counters[w]), e)
    ensures e.Pops? <==> op == PopOp(w)
  {
    match op
    case PushOp(id, hint) =>
      if hint.Some? && hint.value < |q.locals| && |q.locals[hint.value]| < LOCAL_CAPACITY {
        e := Taken(0);
      } else {
        e := Arrives(id);
      }
    case PopOp(v) =>
      var n := PopTakes(q, v);
      if v == w {
        e := Pops(if Check(q.counters[w]) && q.global != [] then n - 1 else n);
      } else {
        e := Taken(n);
      }
  }

  /** A pop takes some ids off the front of the global queue, at least one on the periodic check. */
  lemma PopTakes(q: Queues, v: nat) returns (n: nat)
    requires Sized(q)
    ensures n <= |q.global| && Popped(q, v).0.global == q.global[n..]
    ensures v < |q.locals| ==> Popped(q, v).0.counters == q.counters[v := Next(q.counters[v])]
    ensures v >= |q.locals| ==> Popped(q, v).0.counters == q.counters && n == 0
    ensures v < |q.locals| && Check(q.counters[v]) && q.global != [] ==> n == 1
  {
    if v >= |q.locals| {
      n := 0;
    } else if Check(q.counters[v]) && q.global != [] {
      n := 1;
    } else if q.locals[v] != [] {
      n := 0;
    } else if q.global != [] {
      n := 1 + Least(|q.global| - 1, BATCH);
    } else {
      n := 0;
      StealNeverSpills(q.(counters := q.counters[v := Next(q.counters[v])]), v, Least(|q.locals|, STEAL_TRIES));
    }
  }

  /** The events es describe the operations ops as worker w sees them. */
  ghost predicate Matches(q: Queues, ops: seq<Op>, es: seq<Event>, w: nat)
    requires Sized(q)
    decreases |ops|
  {
    |es| == |ops| && w < |q.counters| &&
    (ops == [] ||
     (DoConserves(q, ops[0]);
      var q' := Do(q, ops[0]).0;
      && w < |q'.counters| && (es[0].Pops? <==> ops[0] == PopOp(w))
      && Watch(q'.global, q'.counters[w]) == After(Watch(q.global, q.counters[w]), es[0])
      && Matches(q', ops[1..], es[1..], w)))
  }

  function PopsBy(ops: seq<Op>, w: nat): nat {
    if ops == [] then 0 else (if ops[0] == PopOp(w) then 1 else 0) + PopsBy(ops[1..], w)
  }

  lemma {:induction false} RunsAreEvents(q: Queues, ops: seq<Op>, w: nat) returns (es: seq<Event>)
    requires Sized(q) && w < |q.locals|
    ensures Matches(q, ops, es, w) && PopCount(es) == PopsBy(ops, w)
    decreases |ops|
  {
    if ops == [] {
      es := [];
    } else {
      DoConserves(q, ops[0]);
      var e := OperationsAreEvents(q, ops[0], w);
      var rest := RunsAreEvents(Do(q, ops[0]).0, ops[1..], w);
      es := [e] + rest;
      assert es[1..] == rest;
      hide Do, After;
    }
  }

  /** In every sequence of pushes and pops by any workers, an id with k ids ahead of it in the global queue is gone from
      it by the time some worker has popped 61 * (k + 1) times. */
  lemma GlobalWaitBounded(q: Queues, ops: seq<Op>, w: nat, k: nat)
    requires Sized(q) && w < |q.locals| && k < |q.global| && PopsBy(ops, w) >= GLOBAL_CHECK_INTERVAL * (k + 1)
    ensures exists es :: Matches(q, ops, es, w) && Leaves(Watch(q.global, q.counters[w]), k, es)
  {
    var es := RunsAreEvents(q, ops, w);
    LeavesInTime(Watch(q.global, q.counters[w]), k, es);
  }

  // ── Delivery with one worker ──

  /** Where one queued occurrence of an id is. */
  datatype Where = InLocal(p: nat) | InGlobal(k: nat) | Delivered

  predicate IsAt(q: Queues, at: Where, id: Id) {
    match at
    case InLocal(p) => |q.locals| == 1 && p < |q.locals[0]| && q.locals[0][p] == id
    case InGlobal(k) => k < |q.global| && q.global[k] == id
    case Delivered => true
  }

  /** Where that occurrence is after an operation of the only worker or a push. */
  function Moves(q: Queues, at: Where, op: Op): Where
    requires Sized(q) && |q.locals| == 1
  {
    if op.PushOp? || op.w != 0 || at.Delivered? then at
    else if Check(q.counters[0]) && q.global != [] then
      if at.InGlobal? then (if at.k == 0 then Delivered else InGlobal(at.k - 1)) else at
    else if q.locals[0] != [] then
      if at.InLocal? then (if at.p == 0 then Delivered else InLocal(at.p - 1)) else at
    else if at.InGlobal? then
      if at.k == 0 then Delivered
      else if at.k <= BATCH then InLocal(at.k - 1)
      else InGlobal(at.k - 1 - BATCH)
    else at
  }

  lemma PushMoves(q: Queues, at: Where, item: Id, hint: Option<nat>, id: Id)
    requires Sized(q) && |q.locals| == 1 && IsAt(q, at, id)
    ensures |Pushed(q, item, hint).locals| == 1 && IsAt(Pushed(q, item, hint), at, id)
  {
    hide Sized;
  }

  lemma NothingToSteal(q: Queues)
    requires |q.locals| == 1 == |q.rng|
    ensures Stolen(q, 0, 1) == (q, None)
  {
    assert Draw(q, 0) == (0, q);
  }

  /** The only worker's pop leaves the occurrence where Moves says, and returns it when Moves says Delivered. */
  lemma PopMoves(q: Queues, at: Where, id: Id)
    requires Sized(q) && |q.locals| == 1 && IsAt(q, at, id) && !at.Delivered?
    ensures |Popped(q, 0).0.locals| == 1 && IsAt(Popped(q, 0).0, Moves(q, at, PopOp(0)), id)
    ensures Moves(q, at, PopOp(0)).Delivered? ==> Popped(q, 0).1 == Some(id)
  {
    var c := q.counters[0];
    var q1 := q.(counters := q.counters[0 := Next(c)]);
    if (!Check(c) || q.global == []) && q.locals[0] == [] {
      if q.global != [] {
        BatchMoves(q, at, id);
      } else {
        NothingToSteal(q1);
      }
    } else {
      hide Stolen, Check, Next;
    }
  }

  lemma BatchMoves(q: Queues, at: Where, id: Id)
    requires Sized(q) && |q.locals| == 1 && IsAt(q, at, id) && at.InGlobal?
    requires !Check(q.counters[0]) && q.locals[0] == []
    ensures |Popped(q, 0).0.locals| == 1 && IsAt(Popped(q, 0).0, Moves(q, at, PopOp(0)), id)
    ensures Moves(q, at, PopOp(0)).Delivered? ==> Popped(q, 0).1 == Some(id)
  {
    hide Stolen, Check, Next;
    var n := Least(|q.global| - 1, BATCH);
    assert Popped(q, 0).0.locals[0] == q.global[1..1 + n];
  }

  /** Moves follows the occurrence truthfully: it stays where Moves says, and Delivered means the pop returned it. */
  lemma MovesTruly(q: Queues, at: Where, op: Op, id: Id)
    requires Sized(q) && |q.locals| == 1 && IsAt(q, at, id)
    ensures |Do(q, op).0.locals| == 1 && IsAt(Do(q, op).0, Moves(q, at, op), id)
    ensures Moves(q, at, op).Delivered? && !at.Delivered? ==> op == PopOp(0) && Popped(q, 0).1 == Some(id)
  {
    if op.PushOp? {
      PushMoves(q, at, op.id, op.hint, id);
      hide Sized, Pushed, IsAt;
    } else if op.w == 0 && !at.Delivered? {
      PopMoves(q, at, id);
      hide Sized, Popped, IsAt;
    } else if op.w == 0 {
      DoConserves(q, op);
      hide Popped;
    }
  }

  /** An upper bound on the pops until delivery. */
  function Rank(q: Queues, at: Where): nat
    requires Sized(q) && |q.locals| == 1
  {
    match at
    case Delivered => 0
    case InLocal(p) => 2 * p + (if Check(q.counters[0]) then 2 else 1)
    case InGlobal(k) => LOCAL_CAPACITY + GLOBAL_CHECK_INTERVAL * k + Dist(q.counters[0]) + 1
  }

  lemma RankAfterPop(q: Queues, q': Queues, at: Where, id: Id)
    requires Sized(q) && |q.locals| == 1 && Sized(q') && |q'.locals| == 1 && IsAt(q, at, id)
    requires q'.counters[0] == Next(q.counters[0]) && !at.Delivered?
    ensures Rank(q', Moves(q, at, PopOp(0))) < Rank(q, at)
  {
    DistStep(q.counters[0]);
    hide Dist, Check, Next, Sized;
  }

  lemma RankFalls(q: Queues, at: Where, op: Op, id: Id)
    requires Sized(q) && |q.locals| == 1 && IsAt(q, at, id) && !at.Delivered?
    ensures Sized(Do(q, op).0) && |Do(q, op).0.locals| == 1
    ensures Rank(Do(q, op).0, Moves(q, at, op)) <= Rank(q, at) - (if op == PopOp(0) then 1 else 0)
  {
    DoConserves(q, op);
    MovesTruly(q, at, op, id);
    if op.PopOp? {
      var n := PopTakes(q, op.w);
      hide Popped, Dist, Check, Next;
      assert Do(q, op).0 == Popped(q, op.w).0;
      if op.w == 0 {
        RankAfterPop(q, Popped(q, 0).0, at, id);
      }
    } else {
      hide Dist, Check;
    }
  }

  /** The occurrence after a sequence of operations. */
  ghost function MovesAll(q: Queues, at: Where, ops: seq<Op>): Where
    requires Sized(q) && |q.locals| == 1
    decreases |ops|
  {
    if ops == [] then at
    else
      DoConserves(q, ops[0]);
      MovesTruly(q, Delivered, ops[0], 0);
      MovesAll(Do(q, ops[0]).0, Moves(q, at, ops[0]), ops[1..])
  }

  /** Some pop of the operations returns id. */
  ghost predicate Returns(q: Queues, ops: seq<Op>, id: Id)
    requires Sized(q)
    decreases |ops|
  {
    ops != [] &&
    (DoConserves(q, ops[0]);
     (ops[0].PopOp? && Popped(q, ops[0].w).1 == Some(id)) || Returns(Do(q, ops[0]).0, ops[1..], id))
  }

  lemma {:induction false} DeliveredByRank(q: Queues, at: Where, ops: seq<Op>, id: Id)
    requires Sized(q) && |q.locals| == 1 && IsAt(q, at, id) && PopsBy(ops, 0) >= Rank(q, at)
    ensures MovesAll(q, at, ops).Delivered? && (!at.Delivered? ==> Returns(q, ops, id))
    decreases |ops|
  {
    if ops != [] {
      DoConserves(q, ops[0]);
      MovesTruly(q, at, ops[0], id);
      if !at.Delivered? {
        RankFalls(q, at, ops[0], id);
      }
      hide Popped, Moves, IsAt;
      DeliveredByRank(Do(q, ops[0]).0, Moves(q, at, ops[0]), ops[1..], id);
    }
  }

  /** With one worker, whatever is pushed meanwhile, an id with k ids ahead of it in the global queue is returned by a
      pop within 61 * (k + 1) + 256 pops, and an id with p ids ahead of it in the local queue within 2 * (p + 1). */
  lemma DeliveredInTime(q: Queues, at: Where, ops: seq<Op>, id: Id)
    requires Sized(q) && |q.locals| == 1 && IsAt(q, at, id) && !at.Delivered?
    requires at.InGlobal? ==> PopsBy(ops, 0) >= GLOBAL_CHECK_INTERVAL * (at.k + 1) + LOCAL_CAPACITY
    requires at.InLocal? ==> PopsBy(ops, 0) >= 2 * (at.p + 1)
    ensures MovesAll(q, at, ops).Delivered? && Returns(q, ops, id)
  {
    DeliveredByRank(q, at, ops, id);
  }
}
