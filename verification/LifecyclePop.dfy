/** The queue operations inside the life cycle are those of the ready queue. */
module LifecyclePop {
  import opened Basics
  import opened Lifecycle
  import opened ReadyQueue

  /** The ready queue inside the state. */
  function QueuesOf(s: State): (q: Queues)
    ensures |q.locals| == |q.counters| == |q.rng| == |s.workers|
  {
    Queues(seq(|s.workers|, i requires 0 <= i < |s.workers| => s.workers[i].local), s.global,
           seq(|s.workers|, i requires 0 <= i < |s.workers| => s.workers[i].own.counter),
           seq(|s.workers|, i requires 0 <= i < |s.workers| => s.workers[i].own.rng))
  }

  /** The part of a pop after the periodic check, and the part after the local queue. */
  function PoppedLocal(q: Queues, w: nat): (Queues, Option<nat>)
    requires w < |q.locals| == |q.rng|
  {
    if q.locals[w] != [] then (q.(locals := q.locals[w := q.locals[w][1..]]), Some(q.locals[w][0]))
    else PoppedGlobal(q, w)
  }

  function PoppedGlobal(q: Queues, w: nat): (Queues, Option<nat>)
    requires w < |q.locals| == |q.rng|
  {
    if q.global != [] then
      var n := Least(|q.global| - 1, BATCH);
      (q.(global := q.global[1 + n..], locals := q.locals[w := q.global[1..1 + n]]), Some(q.global[0]))
    else Stolen(q, w, Least(|q.locals|, STEAL_TRIES))
  }

  /** Worker w is inside a pop or has just left it, with what it holds and has found so far. */
  predicate Inside(s: State, w: nat) {
    && w < |s.workers|
    && var wk := s.workers[w];
       match wk.stage
       case LookFirst => true
       case LookLocal => true
       case LookGlobal => wk.local == []
       case LookSteal => true
       case Grab => wk.local == [] && |wk.hold| == 1
       case Carry => |wk.hold| > 0 && |wk.local| + |wk.hold| <= BATCH + 1
       case Haul => |wk.hold| > 0
       case Got => |wk.hold| == 1
       case InRing => true
       case Top => true
       case _ => false
  }

  /** What the pop will have done to the queues and will return, if nobody interferes from here on. */
  function Outcome(s: State, w: nat): (Queues, Option<nat>)
    requires Inside(s, w)
  {
    var (wk, q) := (s.workers[w], QueuesOf(s));
    match wk.stage
    case LookFirst => Popped(q, w)
    case LookLocal => PoppedLocal(q, w)
    case LookGlobal => PoppedGlobal(q, w)
    case LookSteal => Stolen(q, w, wk.own.draws)
    case Grab =>
      var n := Least(|q.global|, BATCH);
      (q.(global := q.global[n..], locals := q.locals[w := q.global[..n]]), Some(wk.hold[0]))
    case Carry => (q.(locals := q.locals[w := wk.local + wk.hold[1..]]), Some(wk.hold[0]))
    case Haul => (PutAll(q, w, wk.hold[1..]), Some(wk.hold[0]))
    case Got => (q, Some(wk.hold[0]))
    case _ => (q, None)
  }

  /** Changing worker w, and the global queue. */
  lemma SetQueues(s: State, w: nat, wk: Worker, global: seq<nat>)
    requires w < |s.workers|
    ensures QueuesOf(Set(s, w, wk).(global := global)) ==
      Queues(QueuesOf(s).locals[w := wk.local], global, QueuesOf(s).counters[w := wk.own.counter],
             QueuesOf(s).rng[w := wk.own.rng])
  {
  }

  lemma SameQueues(s: State, w: nat)
    requires w < |s.workers|
    ensures var (q, wk) := (QueuesOf(s), s.workers[w]);
      && q.locals[w] == wk.local && q.counters[w] == wk.own.counter && q.rng[w] == wk.own.rng
      && q.locals[w := wk.local] == q.locals && q.counters[w := wk.own.counter] == q.counters
      && q.rng[w := wk.own.rng] == q.rng && q.global == s.global
  {
  }

  lemma CheckOutcome(s: State, w: nat, p: PopStep)
    requires Inside(s, w) && PopEnabled(s, w, p) && (p.CheckGlobal? || p.SkipCheck?)
    ensures Inside(PopApply(s, w, p), w) && Outcome(PopApply(s, w, p), w) == Outcome(s, w)
  {
    SameQueues(s, w);
    var t := PopApply(s, w, p);
    SetQueues(s, w, t.workers[w], t.global);
    hide QueuesOf, Stolen;
  }

  lemma LocalOutcome(s: State, w: nat)
    requires Inside(s, w) && PopEnabled(s, w, PopLocal)
    ensures Inside(PopApply(s, w, PopLocal), w) && Outcome(PopApply(s, w, PopLocal), w) == Outcome(s, w)
  {
    SameQueues(s, w);
    var t := PopApply(s, w, PopLocal);
    SetQueues(s, w, t.workers[w], t.global);
    hide QueuesOf, Stolen;
  }

  lemma GlobalOutcome(s: State, w: nat)
    requires Inside(s, w) && PopEnabled(s, w, PopGlobal)
    ensures Inside(PopApply(s, w, PopGlobal), w) && Outcome(PopApply(s, w, PopGlobal), w) == Outcome(s, w)
  {
    SameQueues(s, w);
    var t := PopApply(s, w, PopGlobal);
    SetQueues(s, w, t.workers[w], t.global);
    if s.global != [] {
      var n := Least(|s.global| - 1, BATCH);
      assert s.global[1..][n..] == s.global[1 + n..] && s.global[1..][..n] == s.global[1..1 + n];
    }
    hide QueuesOf, Stolen;
  }

  lemma GrabOutcome(s: State, w: nat)
    requires Inside(s, w) && PopEnabled(s, w, GrabBatch)
    ensures Inside(PopApply(s, w, GrabBatch), w) && Outcome(PopApply(s, w, GrabBatch), w) == Outcome(s, w)
  {
    SameQueues(s, w);
    var (wk, t) := (s.workers[w], PopApply(s, w, GrabBatch));
    SetQueues(s, w, t.workers[w], t.global);
    var n := Least(|s.global|, BATCH);
    assert t.workers[w].hold == [wk.hold[0]] + s.global[..n];
    assert [] + ([wk.hold[0]] + s.global[..n])[1..] == s.global[..n];
    hide QueuesOf;
  }

  lemma UnloadOutcome(s: State, w: nat)
    requires Inside(s, w) && PopEnabled(s, w, Unload)
    ensures Inside(PopApply(s, w, Unload), w) && Outcome(PopApply(s, w, Unload), w) == Outcome(s, w)
  {
    SameQueues(s, w);
    var (q, wk, t) := (QueuesOf(s), s.workers[w], PopApply(s, w, Unload));
    SetQueues(s, w, t.workers[w], t.global);
    var all := wk.local + wk.hold[1..];
    assert t.workers[w].local + t.workers[w].hold[1..] == all;
    hide QueuesOf;
    assert QueuesOf(t).locals[w := all] == q.locals[w := all];
  }

  lemma DoneOutcome(s: State, w: nat)
    requires Inside(s, w) && PopEnabled(s, w, TakeDone)
    ensures Inside(PopApply(s, w, TakeDone), w) && Outcome(PopApply(s, w, TakeDone), w) == Outcome(s, w)
  {
    SameQueues(s, w);
    var (wk, t) := (s.workers[w], PopApply(s, w, TakeDone));
    SetQueues(s, w, t.workers[w], t.global);
    assert wk.hold[1..] == [] && wk.local + [] == wk.local;
    hide QueuesOf;
  }

  lemma StealOutcome(s: State, w: nat, v: nat)
    requires Inside(s, w) && PopEnabled(s, w, StealHalf(v))
    ensures Inside(PopApply(s, w, StealHalf(v)), w)
    ensures Outcome(PopApply(s, w, StealHalf(v)), w) == Outcome(s, w)
  {
    var (n, q) := (|s.workers[v].local| / 2, QueuesOf(s));
    var m := Set(s, v, s.workers[v].(local := s.workers[v].local[n..]));
    var t := PopApply(s, w, StealHalf(v));
    SameQueues(s, w);
    SameQueues(s, v);
    SetQueues(s, v, m.workers[v], s.global);
    SetQueues(m, w, t.workers[w], s.global);
    assert m.(global := s.global) == m && t.(global := s.global) == t;
    assert t == Set(m, w, t.workers[w]);
    var q1 := Draw(q, w).1;
    assert QueuesOf(m) == q.(locals := q.locals[v := q.locals[v][n..]]);
    assert m.workers[w] == s.workers[w];
    SameQueues(m, w);
    assert QueuesOf(t) == q1.(locals := q.locals[v := q.locals[v][n..]]);
    hide QueuesOf, PutAll;
  }

  lemma MissOutcome(s: State, w: nat, p: PopStep)
    requires Inside(s, w) && PopEnabled(s, w, p) && (p.Miss? || p.NoWork?)
    ensures Inside(PopApply(s, w, p), w) && Outcome(PopApply(s, w, p), w) == Outcome(s, w)
  {
    SameQueues(s, w);
    var t := PopApply(s, w, p);
    SetQueues(s, w, t.workers[w], t.global);
    if p.Miss? {
      SameQueues(s, Victim(s, w));
    }
    hide QueuesOf, PutAll;
  }

  lemma HaulOutcome(s: State, w: nat)
    requires Inside(s, w) && PopEnabled(s, w, Unhaul)
    ensures Inside(PopApply(s, w, Unhaul), w) && Outcome(PopApply(s, w, Unhaul), w) == Outcome(s, w)
  {
    SameQueues(s, w);
    var (wk, t) := (s.workers[w], PopApply(s, w, Unhaul));
    SetQueues(s, w, t.workers[w], t.global);
    assert ([wk.hold[0]] + wk.hold[2..])[1..] == wk.hold[1..][1..];
    hide QueuesOf;
  }

  /** Every step of a pop leaves its outcome as it is. */
  lemma StepOutcome(s: State, w: nat, p: PopStep)
    requires Inside(s, w) && PopEnabled(s, w, p)
    ensures Inside(PopApply(s, w, p), w) && Outcome(PopApply(s, w, p), w) == Outcome(s, w)
  {
    hide Inside, PopEnabled, PopApply, Outcome;
    match p
    case CheckGlobal => CheckOutcome(s, w, p);
    case SkipCheck => CheckOutcome(s, w, p);
    case PopLocal => LocalOutcome(s, w);
    case PopGlobal => GlobalOutcome(s, w);
    case GrabBatch => GrabOutcome(s, w);
    case Unload => UnloadOutcome(s, w);
    case StealHalf(v) => StealOutcome(s, w, v);
    case Miss => MissOutcome(s, w, p);
    case Unhaul => HaulOutcome(s, w);
    case TakeDone => DoneOutcome(s, w);
    case NoWork(_) => MissOutcome(s, w, p);
  }

  ghost predicate PopRun(s: State, w: nat, ps: seq<PopStep>, t: State)
    decreases |ps|
  {
    if ps == [] then t == s else PopEnabled(s, w, ps[0]) && PopRun(PopApply(s, w, ps[0]), w, ps[1..], t)
  }

  lemma {:induction false} RunOutcome(s: State, w: nat, ps: seq<PopStep>, t: State)
    requires Inside(s, w) && PopRun(s, w, ps, t)
    ensures Inside(t, w) && Outcome(t, w) == Outcome(s, w)
    decreases |ps|
  {
    if ps != [] {
      hide Inside, PopEnabled, PopApply, Outcome;
      StepOutcome(s, w, ps[0]);
      RunOutcome(PopApply(s, w, ps[0]), w, ps[1..], t);
    }
  }

  /** An uninterrupted pop, from its first look to its return, leaves exactly the queues, counters and random states of
      the ready queue's pop, and the worker holds exactly the id it returns, or has found nothing. */
  lemma UninterruptedPop(s: State, w: nat, ps: seq<PopStep>, t: State)
    requires At(s, w, LookFirst) && PopRun(s, w, ps, t)
    requires At(t, w, Got) || At(t, w, InRing) || At(t, w, Top)
    ensures QueuesOf(t) == Popped(QueuesOf(s), w).0
    ensures if At(t, w, Got) then |t.workers[w].hold| == 1 && Popped(QueuesOf(s), w).1 == Some(t.workers[w].hold[0])
            else Popped(QueuesOf(s), w).1 == None
  {
    hide PopRun, Popped, QueuesOf;
    RunOutcome(s, w, ps, t);
  }

  // ── Pushes ──

  /** The id a step pushes and the hint it gives, if it pushes one. */
  function Pushes(s: State, st: Step): Option<(nat, Option<nat>)>
    requires Enabled(s, st)
  {
    match st
    case Loop(w, WakePush(hint)) => Some((Cur(s, w), if hint then Some(w) else None))
    case Thread(w, PushBack) => Some((Cur(s, w), Some(w)))
    case Outside(AgentPush(a)) => Some((s.agents[a].id, None))
    case _ => None
  }

  /** Every push leaves the queues as the push of the ready queue does. */
  lemma PushesArePushes(kernel: nat -> int, s: State, st: Step)
    requires Enabled(s, st) && Pushes(s, st).Some?
    ensures QueuesOf(Apply(kernel, s, st)) == Pushed(QueuesOf(s), Pushes(s, st).value.0, Pushes(s, st).value.1)
  {
    var t := Apply(kernel, s, st);
    match st
    case Loop(w, WakePush(_)) =>
      SameQueues(s, w);
      SetQueues(s, w, t.workers[w], t.global);
      hide QueuesOf;
    case Thread(w, PushBack) =>
      SameQueues(s, w);
      SetQueues(s, w, t.workers[w], t.global);
      hide QueuesOf;
    case Outside(AgentPush(_)) =>
  }

  // ── Order ──

  /** Ids have left at the front and arrived at the back. */
  ghost predicate Fifo(q: seq<nat>, q': seq<nat>) { exists n: nat :: n <= |q| && q[n..] <= q' }

  lemma LeftAndArrived(q: seq<nat>, n: nat, more: seq<nat>)
    requires n <= |q|
    ensures Fifo(q, q[n..] + more)
  {
  }

  lemma FrontOrBack(q: seq<nat>, n: nat, x: nat)
    requires n <= |q|
    ensures Fifo(q, q) && Fifo(q, q + [x]) && Fifo(q, q[n..])
  {
    LeftAndArrived(q, 0, []);
    LeftAndArrived(q, 0, [x]);
    LeftAndArrived(q, n, []);
    assert q[0..] + [] == q && q[0..] == q && q[n..] + [] == q[n..];
    hide Fifo;
  }

  lemma PopFifo(s: State, w: nat, p: PopStep, v: nat)
    requires PopEnabled(s, w, p) && v < |s.workers|
    ensures var t := PopApply(s, w, p);
      Fifo(s.global, t.global) && |t.workers| == |s.workers| && Fifo(s.workers[v].local, t.workers[v].local)
  {
    var wk := s.workers[w];
    var g, l := s.global, s.workers[v].local;
    var x := if |wk.hold| > 1 then wk.hold[1] else 0;
    FrontOrBack(g, if p.GrabBatch? then Least(|g|, BATCH) else Least(|g|, 1), x);
    FrontOrBack(l, if p.StealHalf? then |l| / 2 else Least(|l|, 1), x);
    hide Fifo;
  }

  lemma LoopFifo(s: State, w: nat, l: LoopStep, v: nat)
    requires LoopEnabled(s, w, l) && v < |s.workers|
    ensures var t := LoopApply(s, w, l);
      Fifo(s.global, t.global) && |t.workers| == |s.workers| && Fifo(s.workers[v].local, t.workers[v].local)
  {
    var x := if s.workers[w].hold == [] then 0 else Cur(s, w);
    FrontOrBack(s.global, 0, x);
    FrontOrBack(s.workers[v].local, 0, x);
    hide Fifo;
  }

  lemma ThreadFifo(s: State, w: nat, p: ThreadStep, v: nat)
    requires ThreadEnabled(s, w, p) && v < |s.workers|
    ensures var t := ThreadApply(s, w, p);
      Fifo(s.global, t.global) && |t.workers| == |s.workers| && Fifo(s.workers[v].local, t.workers[v].local)
  {
    var x := if s.workers[w].hold == [] then 0 else Cur(s, w);
    FrontOrBack(s.global, 0, x);
    FrontOrBack(s.workers[v].local, 0, x);
    hide Fifo;
  }

  /** Every step of anybody takes from the front of each queue and adds at its back. */
  lemma QueuesAreFifo(kernel: nat -> int, s: State, st: Step, v: nat)
    requires Enabled(s, st) && v < |s.workers|
    ensures var t := Apply(kernel, s, st);
      Fifo(s.global, t.global) && |t.workers| == |s.workers| && Fifo(s.workers[v].local, t.workers[v].local)
  {
    match st
    case Pop(w, p) => PopFifo(s, w, p, v); hide PopApply, Fifo;
    case Loop(w, l) => LoopFifo(s, w, l, v); hide LoopApply, Fifo;
    case Thread(w, p) => ThreadFifo(s, w, p, v); hide ThreadApply, Fifo;
    case Outside(o) =>
      FrontOrBack(s.global, 0, if o.AgentPush? then s.agents[o.a].id else 0);
      FrontOrBack(s.workers[v].local, 0, 0);
      hide Fifo;
  }
}
