/** Every waiting thread that is not hopeless can still run while some worker is not barred in its ring: from every
    state the invariant allows there is a continuation in which it executes again, with the pop counters, random victims
    and ring waits that the code prescribes. */
module LifecycleResume {
  import opened Basics
  import opened Bags
  import opened Lifecycle
  import opened LifecycleInvariant
  import opened LifecycleSteps
  import opened LifecycleHopeless
  import ReadyQueueFairness

  // ── Smooth runs ──

  /** Flushes succeed, ring waits end with a completion, and wakes carry no hint. */
  predicate Plain(st: Step) {
    match st
    case Loop(_, PollRing(flushed)) => flushed
    case Loop(_, WaitRing(early)) => !early
    case Loop(_, WakePush(hint)) => !hint
    case Pop(_, NoWork(flushed)) => flushed
    case _ => true
  }

  /** Nor is there a premature timer wake. */
  ghost predicate Smooth(k: nat -> int, s: State, steps: seq<Step>)
    decreases |steps|
  {
    steps == [] ||
    (Enabled(s, steps[0]) && !WakesTooEarly(s, steps[0]) && Plain(steps[0]) &&
     Smooth(k, Apply(k, s, steps[0]), steps[1..]))
  }

  /** A worker that waits in its ring has flushed its requests. */
  ghost predicate Flushed(s: State) {
    forall w | 0 <= w < |s.workers| && s.workers[w].stage == InRing :: s.workers[w].own.sent == |s.workers[w].flight|
  }

  ghost predicate Good(k: nat -> int, s: State) { Inv(k, s) && Flushed(s) }

  lemma LoopFlushed(s: State, w: nat, st: LoopStep)
    requires Flushed(s) && LoopEnabled(s, w, st)
    ensures Flushed(LoopApply(s, w, st))
  {
    hide ReadyQueue.Pick, ReadyQueue.Check;
  }

  lemma PopFlushed(s: State, w: nat, st: PopStep)
    requires Flushed(s) && PopEnabled(s, w, st) && Plain(Pop(w, st))
    ensures Flushed(PopApply(s, w, st))
  {
    hide ReadyQueue.Pick;
  }

  lemma ThreadFlushed(s: State, w: nat, st: ThreadStep)
    requires Flushed(s) && ThreadEnabled(s, w, st)
    ensures Flushed(ThreadApply(s, w, st))
  {
    hide ReadyQueue.Pick, ReadyQueue.Check;
  }

  lemma OutsideFlushed(k: nat -> int, s: State, st: OutsideStep)
    requires Flushed(s) && OutsideEnabled(s, st)
    ensures Flushed(OutsideApply(k, s, st))
  {
  }

  lemma StepStaysGood(k: nat -> int, s: State, st: Step)
    requires Good(k, s) && Enabled(s, st) && !WakesTooEarly(s, st) && Plain(st)
    ensures Good(k, Apply(k, s, st))
  {
    hide Inv, Flushed, LoopEnabled, PopEnabled, ThreadEnabled, OutsideEnabled, LoopApply, PopApply, ThreadApply,
      OutsideApply, WakesTooEarly, Plain;
    StepKeepsInv(k, s, st);
    match st
    case Loop(w, l) => LoopFlushed(s, w, l);
    case Pop(w, p) => PopFlushed(s, w, p);
    case Thread(w, t) => ThreadFlushed(s, w, t);
    case Outside(o) => OutsideFlushed(k, s, o);
  }

  /** States of smooth runs from the start are good. */
  lemma {:induction false} SmoothStaysGood(k: nat -> int, s: State, steps: seq<Step>, t: State)
    requires Good(k, s) && Run(k, s, steps, t) && Smooth(k, s, steps)
    ensures Good(k, t)
    decreases |steps|
  {
    hide Good, Enabled, Apply, WakesTooEarly, Plain;
    if steps != [] {
      StepStaysGood(k, s, steps[0]);
      SmoothStaysGood(k, Apply(k, s, steps[0]), steps[1..], t);
    }
  }

  lemma InitialGood(k: nat -> int, s: State)
    requires Initial(s)
    ensures Good(k, s)
  {
    InitialInv(k, s);
    hide Inv;
    forall w | 0 <= w < |s.workers| ensures s.workers[w].stage != InRing {
      assert s.workers[w] == Fresh(s.workers[w].own.rng);
    }
  }

  ghost predicate Executes(s: State, id: Id) {
    exists w :: 0 <= w < |s.workers| && s.workers[w].stage == Exec && s.workers[w].hold == [id]
  }

  ghost predicate CanResume(k: nat -> int, s: State, id: Id) {
    exists steps, t :: Run(k, s, steps, t) && Smooth(k, s, steps) && Executes(t, id)
  }

  /** One step towards it. */
  lemma After(k: nat -> int, s: State, st: Step, id: Id)
    requires Enabled(s, st) && !WakesTooEarly(s, st) && Plain(st) && CanResume(k, Apply(k, s, st), id)
    ensures CanResume(k, s, id)
  {
    hide Enabled, Apply, WakesTooEarly, Executes, Plain;
    var steps, t :| Run(k, Apply(k, s, st), steps, t) && Smooth(k, Apply(k, s, st), steps) && Executes(t, id);
    assert ([st] + steps)[1..] == steps;
    assert Run(k, s, [st] + steps, t) && Smooth(k, s, [st] + steps);
  }

  // ── Barred workers ──

  /** None of the draws left hits a victim with something to steal. */
  predicate AllMiss(ws: seq<Worker>, w: nat, rng: nat, draws: nat)
    requires w < |ws|
    decreases draws
  {
    draws == 0 ||
    (var (v, next) := ReadyQueue.Pick(rng, |ws|);
     (v == w || |ws[v].local| / 2 == 0) && AllMiss(ws, w, next, draws - 1))
  }

  /** The worker waits in its ring, or is bound to because a poll dropped a completion and nothing is left to steal,
      while its ring has no request or completion that could end the wait. */
  predicate Barred(ws: seq<Worker>, w: nat)
    requires w < |ws|
  {
    && ws[w].flight == [] && ws[w].cq == []
    && (ws[w].stage == InRing ||
        (ws[w].stage == LookSteal && ws[w].own.lost > 0 && AllMiss(ws, w, ws[w].own.rng, ws[w].own.draws)))
  }

  ghost predicate AllBarred(ws: seq<Worker>) { forall w | 0 <= w < |ws| :: Barred(ws, w) }

  lemma {:induction false} AllMissSame(ws: seq<Worker>, ws': seq<Worker>, w: nat, rng: nat, draws: nat)
    requires w < |ws| == |ws'| && forall v | 0 <= v < |ws| :: ws'[v].local == ws[v].local
    ensures AllMiss(ws', w, rng, draws) <==> AllMiss(ws, w, rng, draws)
    decreases draws
  {
    if draws != 0 {
      AllMissSame(ws, ws', w, ReadyQueue.Pick(rng, |ws|).1, draws - 1);
    }
  }

  /** A step of a barred worker leaves it and the others barred. */
  lemma PopBarred(s: State, w: nat, st: PopStep)
    requires AllBarred(s.workers) && PopEnabled(s, w, st) && Plain(Pop(w, st))
    ensures AllBarred(PopApply(s, w, st).workers)
  {
    hide ReadyQueue.Pick, ReadyQueue.Check;
    assert Barred(s.workers, w);
    assert st == Miss || st.NoWork?;
    var ws := PopApply(s, w, st).workers;
    assert |ws| == |s.workers| && forall v | 0 <= v < |ws| && v != w :: ws[v] == s.workers[v];
    assert ws[w].local == s.workers[w].local && ws[w].flight == [] && ws[w].cq == [];
    forall v | 0 <= v < |ws| ensures Barred(ws, v) {
      assert Barred(s.workers, v);
      AllMissSame(s.workers, ws, v, ws[v].own.rng, ws[v].own.draws);
    }
  }

  lemma StepBarred(k: nat -> int, s: State, st: Step)
    requires AllBarred(s.workers) && Enabled(s, st) && Plain(st)
    ensures AllBarred(Apply(k, s, st).workers)
  {
    hide ReadyQueue.Pick, ReadyQueue.Check, AllMiss;
    assert (st.Loop? || st.Thread?) && st.w < |s.workers| ==> Barred(s.workers, st.w);
    assert st.Outside? && st.o.Complete? && st.o.w < |s.workers| ==> Barred(s.workers, st.o.w);
    if st.Pop? {
      hide PopApply, PopEnabled;
      PopBarred(s, st.w, st.p);
    } else {
      assert Apply(k, s, st).workers == s.workers;
    }
  }

  /** Once every worker is barred, no thread executes any more. */
  lemma {:induction false} BarredForever(k: nat -> int, s: State, steps: seq<Step>, t: State, id: Id)
    requires AllBarred(s.workers) && Run(k, s, steps, t) && Smooth(k, s, steps)
    ensures AllBarred(t.workers) && !Executes(t, id)
    decreases |steps|
  {
    if steps == [] {
      forall w | 0 <= w < |t.workers| ensures t.workers[w].stage != Exec {
        assert Barred(t.workers, w);
      }
    } else {
      hide Enabled, Apply, WakesTooEarly, Plain, AllBarred, Executes;
      StepBarred(k, s, steps[0]);
      BarredForever(k, Apply(k, s, steps[0]), steps[1..], t, id);
    }
  }

  // ── What a worker does next ──

  /** The next step of worker w, except at the top of the loop and in the ring; a thread that runs yields. */
  function Forward(s: State, w: nat): Step
    requires w < |s.workers|
  {
    var wk := s.workers[w];
    match wk.stage
    case Top => Loop(w, PollRing(true))
    case InRing => Loop(w, WaitRing(false))
    case Drain => Loop(w, if wk.todo == [] then DrainDone else StoreResult)
    case Stored => Loop(w, WakeLook)
    case Waking => Loop(w, WakePush(false))
    case LookFirst => Pop(w, if Due(s, w) then CheckGlobal else SkipCheck)
    case LookLocal => Pop(w, PopLocal)
    case LookGlobal => Pop(w, PopGlobal)
    case LookSteal =>
      Pop(w, if wk.own.draws == 0 then NoWork(true) else if Hits(s, w) then StealHalf(Victim(s, w)) else Miss)
    case Grab => Pop(w, GrabBatch)
    case Carry => Pop(w, if |wk.hold| > 1 then Unload else TakeDone)
    case Haul => Pop(w, if |wk.hold| > 1 then Unhaul else TakeDone)
    case Got => Thread(w, MarkRunning)
    case Loading => Thread(w, SwitchIn)
    case Exec => Thread(w, if wk.hold != [] && wk.hold[0] in s.board.reading then ReadResult else YieldMark)
    case Queued => Thread(w, BlockMark)
    case Marked => Thread(w, SwitchOut)
    case Back => Thread(w, Inspect)
    case Requeue => Thread(w, PushBack)
    case Reap => Thread(w, Release)
  }

  /** Steps left to the next poll, at most. */
  function Rank(s: State, w: nat): nat
    requires w < |s.workers|
  {
    var wk := s.workers[w];
    match wk.stage
    case Top => 0
    case InRing => 0
    case Requeue => 1
    case Reap => 1
    case Back => 2
    case Marked => 3
    case Queued => 4
    case Exec => if wk.hold != [] && wk.hold[0] in s.board.reading then 5 else 4
    case Loading => 6
    case Got => 7
    case Carry => 7 + |wk.hold|
    case Haul => 7 + |wk.hold|
    case LookSteal => BATCH + 8 + wk.own.draws
    case Grab => BATCH + 9
    case LookGlobal => BATCH + 13
    case LookLocal => BATCH + 14
    case LookFirst => BATCH + 15
    case Drain => BATCH + 16 + 3 * |wk.todo|
    case Stored => BATCH + 15 + 3 * |wk.todo|
    case Waking => BATCH + 17 + 3 * |wk.todo|
  }

  /** Going through polled completions. */
  predicate Early(stage: Stage) { stage in {Drain, Stored, Waking} }

  /** With a thread that it is going to run, runs or has run. */
  predicate Late(stage: Stage) { stage in {Got, Loading, Exec, Queued, Marked, Back, Requeue, Reap} }

  /** Where a worker is on its way to the next pop. */
  function Lap(wk: Worker): nat {
    if wk.stage == LookLocal then 9
    else if wk.stage == LookGlobal then 8
    else if wk.stage == LookSteal then 7
    else if wk.stage == InRing then if wk.cq == [] then 6 else 5
    else if Early(wk.stage) then if wk.own.waited then 4 else 1
    else if wk.stage == Top then 2
    else if wk.stage == LookFirst then 0
    else 3
  }

  /** What a step of worker w between two polls leaves alone. */
  ghost predicate Onward(s: State, t: State, w: nat) {
    && w < |s.workers| == |t.workers| && t.agents == s.agents && t.sleepers == s.sleepers
    && var (wk, wk') := (s.workers[w], t.workers[w]);
    && wk'.cq == wk.cq && wk'.flight == wk.flight && wk'.own.sent >= wk.own.sent
    && (wk.stage != LookFirst ==> Lap(wk') <= Lap(wk) && wk'.own.counter == wk.own.counter)
    && (wk.stage != LookLocal ==> wk.local <= wk'.local)
    && (wk.stage !in {LookFirst, LookGlobal, Grab} ==> s.global <= t.global)
    && Rank(t, w) < Rank(s, w)
  }

  /** What the invariant says of worker w's hands and next completion. */
  predicate Prepared(s: State, w: nat) {
    && w < |s.workers| && |s.board.results| == |s.board.life|
    && var wk := s.workers[w];
    && (Empty(wk.stage) <==> wk.hold == [])
    && (wk.hold != [] ==> wk.hold[0] < |s.board.life|)
    && (wk.stage == Stored ==> wk.todo != [])
    && (wk.stage in {Drain, Stored} && wk.todo != [] ==>
          wk.todo[0].slot < |s.board.life| && s.board.life[wk.todo[0].slot] == Blocked)
    && (wk.stage == Carry ==> |wk.local| + |wk.hold| <= BATCH + 1)
    && OwnOk(wk) && |s.workers[Victim(s, w)].local| <= LOCAL_CAPACITY
  }

  lemma IsPrepared(k: nat -> int, s: State, w: nat)
    requires Inv(k, s) && w < |s.workers|
    ensures Prepared(s, w)
  {
    if s.workers[w].stage in {Drain, Stored} && s.workers[w].todo != [] {
      TargetParked(k, s, w);
    }
    hide Counted, GlobalOk, AgentsOk, SleepersOk;
    assert WorkerOk(k, s.board, s.workers[w], w) && WorkerOk(k, s.board, s.workers[Victim(s, w)], Victim(s, w));
    assert |s.board.results| == |s.board.life|;
    hide BoardOk, WorkersOk;
  }

  lemma DrainForward(k: nat -> int, s: State, w: nat)
    requires Prepared(s, w) && s.workers[w].stage in {Drain, Waking}
    ensures Enabled(s, Forward(s, w)) && Onward(s, Apply(k, s, Forward(s, w)), w)
  {
    hide ReadyQueue.Pick, ReadyQueue.Check;
  }

  lemma WakeForward(k: nat -> int, s: State, w: nat)
    requires Prepared(s, w) && s.workers[w].stage == Stored
    ensures Enabled(s, Forward(s, w)) && Onward(s, Apply(k, s, Forward(s, w)), w)
  {
    hide ReadyQueue.Pick, ReadyQueue.Check;
  }

  lemma PopForward(k: nat -> int, s: State, w: nat)
    requires Prepared(s, w) && s.workers[w].stage in {LookFirst, LookLocal}
    ensures Enabled(s, Forward(s, w)) && Onward(s, Apply(k, s, Forward(s, w)), w)
  {
    hide ReadyQueue.Pick, ReadyQueue.Check;
  }

  lemma StealForward(k: nat -> int, s: State, w: nat)
    requires Prepared(s, w) && s.workers[w].stage == LookSteal
    ensures Enabled(s, Forward(s, w)) && Onward(s, Apply(k, s, Forward(s, w)), w)
  {
    hide ReadyQueue.Pick;
  }

  lemma GlobalForward(k: nat -> int, s: State, w: nat)
    requires Prepared(s, w) && s.workers[w].stage in {LookGlobal, Grab}
    ensures Enabled(s, Forward(s, w)) && Onward(s, Apply(k, s, Forward(s, w)), w)
  {
    hide ReadyQueue.Pick, ReadyQueue.Check;
  }

  lemma UnloadForward(k: nat -> int, s: State, w: nat)
    requires Prepared(s, w) && s.workers[w].stage in {Carry, Haul}
    ensures Enabled(s, Forward(s, w)) && Onward(s, Apply(k, s, Forward(s, w)), w)
  {
    hide ReadyQueue.Pick, ReadyQueue.Check;
  }

  /** The worker goes on with its thread, or lets go of it. */
  lemma LateOnward(s: State, t: State, w: nat)
    requires w < |s.workers| == |t.workers| && t.agents == s.agents && t.sleepers == s.sleepers && s.global <= t.global
    requires t.workers[w] == s.workers[w].(stage := t.workers[w].stage, hold := t.workers[w].hold,
                                           local := t.workers[w].local)
    requires s.workers[w].local <= t.workers[w].local && Late(s.workers[w].stage)
    requires (Late(t.workers[w].stage) || t.workers[w].stage == Top) && Rank(t, w) < Rank(s, w)
    ensures Onward(s, t, w)
  {
    hide Rank;
  }

  lemma RunForward(k: nat -> int, s: State, w: nat)
    requires Prepared(s, w) && s.workers[w].stage in {Got, Loading, Queued, Marked}
    ensures Enabled(s, Forward(s, w)) && Onward(s, Apply(k, s, Forward(s, w)), w)
  {
    hide ReadyQueue.Pick, Onward;
    LateOnward(s, Apply(k, s, Forward(s, w)), w);
  }

  lemma ExecForward(k: nat -> int, s: State, w: nat)
    requires Prepared(s, w) && s.workers[w].stage == Exec
    ensures Enabled(s, Forward(s, w)) && Onward(s, Apply(k, s, Forward(s, w)), w)
  {
    hide ReadyQueue.Pick, Onward;
    LateOnward(s, Apply(k, s, Forward(s, w)), w);
  }

  lemma LeaveForward(k: nat -> int, s: State, w: nat)
    requires Prepared(s, w) && s.workers[w].stage in {Requeue, Reap}
    ensures Enabled(s, Forward(s, w)) && Onward(s, Apply(k, s, Forward(s, w)), w)
  {
    hide ReadyQueue.Pick, Onward;
    LateOnward(s, Apply(k, s, Forward(s, w)), w);
  }

  lemma InspectForward(k: nat -> int, s: State, w: nat)
    requires Prepared(s, w) && s.workers[w].stage == Back
    ensures Enabled(s, Forward(s, w)) && Onward(s, Apply(k, s, Forward(s, w)), w)
  {
    hide ReadyQueue.Pick, Onward;
    LateOnward(s, Apply(k, s, Forward(s, w)), w);
  }

  lemma Forwards(k: nat -> int, s: State, w: nat)
    requires Good(k, s) && w < |s.workers| && s.workers[w].stage !in {Top, InRing}
    ensures var st := Forward(s, w);
      Enabled(s, st) && !WakesTooEarly(s, st) && Plain(st) && Good(k, Apply(k, s, st)) &&
      Onward(s, Apply(k, s, st), w)
  {
    hide Inv, Flushed, Enabled, Apply, Onward, Prepared;
    IsPrepared(k, s, w);
    if s.workers[w].stage in {Drain, Waking} {
      DrainForward(k, s, w);
    } else if s.workers[w].stage == Stored {
      WakeForward(k, s, w);
    } else if s.workers[w].stage in {Got, Loading, Queued, Marked} {
      RunForward(k, s, w);
    } else if s.workers[w].stage == Exec {
      ExecForward(k, s, w);
    } else if s.workers[w].stage == Back {
      InspectForward(k, s, w);
    } else if s.workers[w].stage in {Requeue, Reap} {
      LeaveForward(k, s, w);
    } else if s.workers[w].stage in {Carry, Haul} {
      UnloadForward(k, s, w);
    } else if s.workers[w].stage in {LookGlobal, Grab} {
      GlobalForward(k, s, w);
    } else if s.workers[w].stage == LookSteal {
      StealForward(k, s, w);
    } else {
      PopForward(k, s, w);
    }
    StepStaysGood(k, s, Forward(s, w));
  }

  /** A worker that looks at its own queue or steals and is not barred does not become so by its next step. */
  lemma StaysFree(k: nat -> int, s: State, w: nat)
    requires Prepared(s, w) && s.workers[w].stage in {LookLocal, LookSteal} && !Barred(s.workers, w)
    ensures Enabled(s, Forward(s, w))
    ensures var ws := Apply(k, s, Forward(s, w)).workers; |ws| == |s.workers| && !Barred(ws, w)
  {
    hide ReadyQueue.Pick, ReadyQueue.Check;
    var ws := Apply(k, s, Forward(s, w)).workers;
    if Forward(s, w) == Pop(w, Miss) {
      assert forall v | 0 <= v < |ws| :: ws[v].local == s.workers[v].local;
      AllMissSame(s.workers, ws, w, ws[w].own.rng, ws[w].own.draws);
    }
  }

  // ── The polls ──

  lemma Polls(k: nat -> int, s: State, w: nat)
    requires At(s, w, Top) || (At(s, w, InRing) && s.workers[w].cq != [])
    ensures Enabled(s, Forward(s, w)) && Plain(Forward(s, w)) && !WakesTooEarly(s, Forward(s, w))
    ensures var t := Apply(k, s, Forward(s, w));
      && |t.workers| == |s.workers| && t.global == s.global && t.agents == s.agents && t.sleepers == s.sleepers
      && var (wk, wk') := (s.workers[w], t.workers[w]);
      && wk'.stage == Drain && wk'.own.waited == (wk.stage == InRing) && wk'.own.counter == wk.own.counter
      && wk'.flight == wk.flight && wk'.local == wk.local
      && wk'.own.sent == (if wk.stage == Top then |wk.flight| else wk.own.sent)
      && var n := Least(|wk.cq|, POLL_LIMIT);
      wk'.todo == wk.cq[..n] && wk'.cq == wk.cq[Least(|wk.cq|, n + 1)..]
  {
  }

  lemma Completes(k: nat -> int, s: State, w: nat, j: nat)
    requires w < |s.workers| && j < |s.workers[w].flight| && j < s.workers[w].own.sent
    ensures Enabled(s, Outside(Complete(w, j)))
    ensures var t := Apply(k, s, Outside(Complete(w, j)));
      && |t.workers| == |s.workers| && t.global == s.global
      && t.workers[w].stage == s.workers[w].stage && t.workers[w].own.counter == s.workers[w].own.counter
      && |t.workers[w].cq| == |s.workers[w].cq| + 1
      && t.workers[w].cq[|s.workers[w].cq|].slot == s.workers[w].flight[j].slot
  {
  }

  // ── From a worker's hands ──

  lemma RunsIt(k: nat -> int, s: State, w: nat, st: ThreadStep, id: Id)
    requires Prepared(s, w) && s.workers[w].hold == [id]
    requires (s.workers[w].stage == Got && st == MarkRunning) || (s.workers[w].stage == Loading && st == SwitchIn)
    ensures Enabled(s, Thread(w, st))
    ensures var wk := Apply(k, s, Thread(w, st)).workers;
      |wk| == |s.workers| && wk[w].hold == [id] && wk[w].stage == if st == MarkRunning then Loading else Exec
  {
  }

  lemma FromLoading(k: nat -> int, s: State, w: nat, id: Id)
    requires Good(k, s) && w < |s.workers| && s.workers[w].stage == Loading && s.workers[w].hold == [id]
    ensures CanResume(k, s, id)
  {
    hide Inv, Enabled, Apply;
    IsPrepared(k, s, w);
    RunsIt(k, s, w, SwitchIn, id);
    var t := Apply(k, s, Thread(w, SwitchIn));
    assert Executes(t, id);
    assert Run(k, t, [], t) && Smooth(k, t, []);
    assert CanResume(k, t, id);
    After(k, s, Thread(w, SwitchIn), id);
  }

  lemma FromGot(k: nat -> int, s: State, w: nat, id: Id)
    requires Good(k, s) && w < |s.workers| && s.workers[w].stage == Got && s.workers[w].hold == [id]
    ensures CanResume(k, s, id)
  {
    hide Inv, Flushed, Enabled, Apply, CanResume;
    IsPrepared(k, s, w);
    RunsIt(k, s, w, MarkRunning, id);
    StepStaysGood(k, s, Thread(w, MarkRunning));
    FromLoading(k, Apply(k, s, Thread(w, MarkRunning)), w, id);
    After(k, s, Thread(w, MarkRunning), id);
  }

  /** One step of unloading a batch. */
  lemma Unloads(k: nat -> int, s: State, w: nat)
    requires Prepared(s, w) && s.workers[w].stage == Carry
    ensures Enabled(s, Forward(s, w))
    ensures var (wk, t) := (s.workers[w], Apply(k, s, Forward(s, w)));
      && |t.workers| == |s.workers|
      && (|wk.hold| > 1 ==> At(t, w, Carry) && t.workers[w].hold == [wk.hold[0]] + wk.hold[2..] &&
                            t.workers[w].local == wk.local + [wk.hold[1]])
      && (|wk.hold| == 1 ==> At(t, w, Got) && t.workers[w].hold == wk.hold)
  {
    hide ReadyQueue.Pick;
  }

  /** The thread popped first, while its batch is unloaded. */
  lemma {:induction false} FromCarryFirst(k: nat -> int, s: State, w: nat, id: Id)
    requires Good(k, s) && At(s, w, Carry) && s.workers[w].hold != [] && s.workers[w].hold[0] == id
    ensures CanResume(k, s, id)
    decreases |s.workers[w].hold|
  {
    hide Inv, Flushed, Enabled, Apply, CanResume, Prepared, Onward;
    IsPrepared(k, s, w);
    Forwards(k, s, w);
    Unloads(k, s, w);
    if |s.workers[w].hold| == 1 {
      assert s.workers[w].hold == [id];
      FromGot(k, Apply(k, s, Forward(s, w)), w, id);
    } else {
      FromCarryFirst(k, Apply(k, s, Forward(s, w)), w, id);
    }
    After(k, s, Forward(s, w), id);
  }

  /** What the pop's look at the global queue and the batch grab do. */
  lemma Grabs(k: nat -> int, s: State, w: nat)
    requires Prepared(s, w) && s.global != [] && s.workers[w].stage in {LookGlobal, Grab}
    ensures Enabled(s, Forward(s, w))
    ensures var (wk, t) := (s.workers[w], Apply(k, s, Forward(s, w)));
      && |t.workers| == |s.workers|
      && (wk.stage == LookGlobal ==> At(t, w, Grab) && t.workers[w].hold == [s.global[0]] && t.global == s.global[1..])
      && (wk.stage == Grab ==>
            var n := Least(|s.global|, BATCH);
            At(t, w, Carry) && t.workers[w].hold == [wk.hold[0]] + s.global[..n] && t.global == s.global[n..])
  {
    hide ReadyQueue.Pick;
  }

  lemma FromGrab(k: nat -> int, s: State, w: nat, id: Id)
    requires Good(k, s) && At(s, w, Grab) && s.workers[w].hold == [id]
    ensures CanResume(k, s, id)
  {
    hide Inv, Flushed, Enabled, CanResume, Prepared, Onward, ReadyQueue.Pick;
    IsPrepared(k, s, w);
    Forwards(k, s, w);
    assert At(Apply(k, s, Forward(s, w)), w, Carry) && Apply(k, s, Forward(s, w)).workers[w].hold[0] == id;
    hide Apply;
    FromCarryFirst(k, Apply(k, s, Forward(s, w)), w, id);
    After(k, s, Forward(s, w), id);
  }

  // ── From the worker's own queue ──

  lemma PopsLocal(k: nat -> int, s: State, w: nat)
    requires At(s, w, LookLocal) && s.workers[w].local != []
    ensures Enabled(s, Forward(s, w)) && Forward(s, w) == Pop(w, PopLocal)
    ensures var (wk, t) := (s.workers[w], Apply(k, s, Forward(s, w)));
      && |t.workers| == |s.workers| && At(t, w, Got) && t.workers[w].hold == [wk.local[0]]
      && t.workers[w].local == wk.local[1..]
  {
  }

  /** The start of a pop. */
  lemma Begins(k: nat -> int, s: State, w: nat)
    requires At(s, w, LookFirst)
    ensures Enabled(s, Forward(s, w))
    ensures var (wk, t) := (s.workers[w], Apply(k, s, Forward(s, w)));
      && |t.workers| == |s.workers| && t.workers[w].own.counter == ReadyQueue.Next(wk.own.counter)
      && t.workers[w].local == wk.local
      && (Due(s, w) ==> At(t, w, Got) && t.workers[w].hold == [s.global[0]] && t.global == s.global[1..])
      && (!Due(s, w) ==> At(t, w, LookLocal) && t.global == s.global)
  {
    hide ReadyQueue.Check, ReadyQueue.Next;
  }

  /** Not past the look at its own queue: from here a worker with a nonempty queue comes back to it. */
  predicate Calm(wk: Worker) { wk.stage !in {LookGlobal, LookSteal, InRing} }

  lemma {:induction false} FromLocal(k: nat -> int, s: State, w: nat, j: nat, id: Id)
    requires Good(k, s) && w < |s.workers| && Calm(s.workers[w])
    requires j < |s.workers[w].local| && s.workers[w].local[j] == id
    ensures CanResume(k, s, id)
    decreases j, 1, One(ReadyQueue.Check(s.workers[w].own.counter)), Lap(s.workers[w]), Rank(s, w)
  {
    hide Inv, Flushed, Enabled, Apply, CanResume, Rank, Lap, ReadyQueue.Check, ReadyQueue.Next;
    if s.workers[w].stage == LookLocal {
      FromLookLocal(k, s, w, j, id);
    } else if s.workers[w].stage == LookFirst {
      Begins(k, s, w);
      Forwards(k, s, w);
      var t := Apply(k, s, Forward(s, w));
      if Due(s, w) {
        NotTwice(k, s, w);
        FromLocal(k, t, w, j, id);
      } else {
        FromLookLocal(k, t, w, j, id);
      }
      After(k, s, Forward(s, w), id);
    } else {
      CalmStep(k, s, w);
      FromLocal(k, Apply(k, s, Forward(s, w)), w, j, id);
      After(k, s, Forward(s, w), id);
    }
  }

  lemma FromLookLocal(k: nat -> int, s: State, w: nat, j: nat, id: Id)
    requires Good(k, s) && At(s, w, LookLocal) && j < |s.workers[w].local| && s.workers[w].local[j] == id
    ensures CanResume(k, s, id)
    decreases j, 0
  {
    hide Inv, Flushed, Enabled, Apply, CanResume;
    PopsLocal(k, s, w);
    StepStaysGood(k, s, Pop(w, PopLocal));
    var t := Apply(k, s, Pop(w, PopLocal));
    if j == 0 {
      FromGot(k, t, w, id);
    } else {
      FromLocal(k, t, w, j - 1, id);
    }
    After(k, s, Pop(w, PopLocal), id);
  }

  /** Two consecutive pops are not both due for the check. */
  lemma NotTwice(k: nat -> int, s: State, w: nat)
    requires Inv(k, s) && w < |s.workers| && ReadyQueue.Check(s.workers[w].own.counter)
    ensures !ReadyQueue.Check(ReadyQueue.Next(s.workers[w].own.counter))
  {
    hide Inv, ReadyQueue.Check, ReadyQueue.Next;
    IsPrepared(k, s, w);
    ReadyQueueFairness.DistStep(s.workers[w].own.counter);
  }

  /** A step of such a worker, polls included. */
  lemma CalmStep(k: nat -> int, s: State, w: nat)
    requires Good(k, s) && w < |s.workers| && Calm(s.workers[w]) && s.workers[w].local != []
    requires s.workers[w].stage !in {LookFirst, LookLocal}
    ensures var st := Forward(s, w);
      Enabled(s, st) && !WakesTooEarly(s, st) && Plain(st) && Good(k, Apply(k, s, st))
    ensures var (wk, ws) := (s.workers[w], Apply(k, s, Forward(s, w)).workers);
      && |ws| == |s.workers| && Calm(ws[w]) && wk.local <= ws[w].local && ws[w].own.counter == wk.own.counter
      && (Lap(ws[w]) < Lap(wk) ||
          (Lap(ws[w]) == Lap(wk) && Rank(Apply(k, s, Forward(s, w)), w) < Rank(s, w)))
  {
    hide Inv, Flushed, Enabled, Apply, Rank;
    if s.workers[w].stage == Top {
      Polls(k, s, w);
      StepStaysGood(k, s, Forward(s, w));
    } else {
      Forwards(k, s, w);
    }
  }

  /** A thread further back in the batch. */
  lemma {:induction false} FromCarry(k: nat -> int, s: State, w: nat, i: nat, id: Id)
    requires Good(k, s) && At(s, w, Carry) && 0 < i < |s.workers[w].hold| && s.workers[w].hold[i] == id
    ensures CanResume(k, s, id)
    decreases i
  {
    hide Inv, Flushed, Enabled, Apply, CanResume, Prepared, Onward;
    IsPrepared(k, s, w);
    Forwards(k, s, w);
    Unloads(k, s, w);
    var t := Apply(k, s, Forward(s, w));
    if i == 1 {
      FromLocal(k, t, w, |s.workers[w].local|, id);
    } else {
      FromCarry(k, t, w, i - 1, id);
    }
    After(k, s, Forward(s, w), id);
  }

  // ── From the global queue ──

  /** A worker that is not barred works off the global queue. */
  lemma {:induction false} FromGlobal(k: nat -> int, s: State, w: nat, p: nat, id: Id)
    requires Good(k, s) && w < |s.workers| && p < |s.global| && s.global[p] == id && !Barred(s.workers, w)
    ensures CanResume(k, s, id)
    decreases p, ReadyQueueFairness.Dist(s.workers[w].own.counter), 1, Lap(s.workers[w]), Rank(s, w)
  {
    hide Inv, Flushed, Enabled, Apply, CanResume, Rank, Lap, Forward, ReadyQueue.Check, ReadyQueue.Next,
      ReadyQueueFairness.Dist, Barred, Onward;
    if s.workers[w].stage == LookFirst {
      FromLookFirst(k, s, w, p, id);
    } else if s.workers[w].stage in {LookGlobal, Grab} {
      FromLookGlobal(k, s, w, p, id);
    } else if s.workers[w].stage == InRing && s.workers[w].cq == [] {
      WakesUp(k, s, w);
      FromGlobal(k, Apply(k, s, Outside(Complete(w, 0))), w, p, id);
      After(k, s, Outside(Complete(w, 0)), id);
    } else {
      FreeStep(k, s, w);
      FromGlobal(k, Apply(k, s, Forward(s, w)), w, p, id);
      After(k, s, Forward(s, w), id);
    }
  }

  lemma FromLookFirst(k: nat -> int, s: State, w: nat, p: nat, id: Id)
    requires Good(k, s) && At(s, w, LookFirst) && p < |s.global| && s.global[p] == id
    ensures CanResume(k, s, id)
    decreases p, ReadyQueueFairness.Dist(s.workers[w].own.counter), 0
  {
    hide Inv, Flushed, Enabled, Apply, CanResume, ReadyQueue.Check, ReadyQueue.Next, ReadyQueueFairness.Dist;
    Begins(k, s, w);
    Forwards(k, s, w);
    var t := Apply(k, s, Forward(s, w));
    if !Due(s, w) {
      IsPrepared(k, s, w);
      ReadyQueueFairness.DistStep(s.workers[w].own.counter);
      FromGlobal(k, t, w, p, id);
    } else if p == 0 {
      FromGot(k, t, w, id);
    } else {
      FromGlobal(k, t, w, p - 1, id);
    }
    After(k, s, Forward(s, w), id);
  }

  lemma FromLookGlobal(k: nat -> int, s: State, w: nat, p: nat, id: Id)
    requires Good(k, s) && w < |s.workers| && s.workers[w].stage in {LookGlobal, Grab}
    requires p < |s.global| && s.global[p] == id
    ensures CanResume(k, s, id)
    decreases p, ReadyQueueFairness.Dist(s.workers[w].own.counter), 0
  {
    hide Inv, Flushed, Enabled, Apply, CanResume, Onward;
    IsPrepared(k, s, w);
    Grabs(k, s, w);
    Forwards(k, s, w);
    hide Prepared;
    var t := Apply(k, s, Forward(s, w));
    var n := Least(|s.global|, BATCH);
    if s.workers[w].stage == LookGlobal && p == 0 {
      FromGrab(k, t, w, id);
    } else if s.workers[w].stage == LookGlobal {
      FromGlobal(k, t, w, p - 1, id);
    } else if p < n {
      FromCarry(k, t, w, p + 1, id);
    } else {
      FromGlobal(k, t, w, p - n, id);
    }
    After(k, s, Forward(s, w), id);
  }

  /** A worker waiting in its ring with a request in flight: the request completes. */
  lemma WakesUp(k: nat -> int, s: State, w: nat)
    requires Good(k, s) && At(s, w, InRing) && s.workers[w].cq == [] && !Barred(s.workers, w)
    ensures var st := Outside(Complete(w, 0));
      && Enabled(s, st) && Good(k, Apply(k, s, st))
      && var t := Apply(k, s, st);
      && |t.workers| == |s.workers| && t.global == s.global && !Barred(t.workers, w)
      && t.workers[w].own.counter == s.workers[w].own.counter && Lap(t.workers[w]) < Lap(s.workers[w])
  {
    hide Inv, Enabled, Apply;
    Completes(k, s, w, 0);
    hide Flushed;
    StepStaysGood(k, s, Outside(Complete(w, 0)));
  }

  /** A step of a worker that is not barred, other than at the start of a pop, a look at the global queue or a wait. */
  lemma FreeStep(k: nat -> int, s: State, w: nat)
    requires Good(k, s) && w < |s.workers| && !Barred(s.workers, w)
    requires s.workers[w].stage !in {LookFirst, LookGlobal, Grab}
    requires s.workers[w].stage == InRing ==> s.workers[w].cq != []
    ensures var st := Forward(s, w);
      Enabled(s, st) && !WakesTooEarly(s, st) && Plain(st) && Good(k, Apply(k, s, st))
    ensures var (wk, t) := (s.workers[w], Apply(k, s, Forward(s, w)));
      && |t.workers| == |s.workers| && s.global <= t.global && !Barred(t.workers, w)
      && t.workers[w].own.counter == wk.own.counter
      && (Lap(t.workers[w]) < Lap(wk) || (Lap(t.workers[w]) == Lap(wk) && Rank(t, w) < Rank(s, w)))
  {
    hide Inv, Flushed, Enabled, Apply, Rank;
    if s.workers[w].stage in {Top, InRing} {
      Polls(k, s, w);
      StepStaysGood(k, s, Forward(s, w));
    } else {
      Forwards(k, s, w);
      if s.workers[w].stage in {LookLocal, LookSteal} {
        IsPrepared(k, s, w);
        hide Barred, Lap;
        StaysFree(k, s, w);
      }
    }
  }

  // ── From a ring ──

  lemma DrainSteps(k: nat -> int, s: State, w: nat)
    requires Prepared(s, w) && Early(s.workers[w].stage) && Enabled(s, Forward(s, w))
    ensures var wk := s.workers[w];
      var t := Apply(k, s, Forward(s, w));
      && |t.workers| == |s.workers|
      && (wk.stage == Drain && wk.todo != [] ==> At(t, w, Stored) && t.workers[w].todo == wk.todo)
      && (wk.stage == Stored ==>
            At(t, w, Waking) && t.workers[w].todo == wk.todo[1..] && t.workers[w].hold == [wk.todo[0].slot])
      && (wk.stage == Waking ==>
            At(t, w, Drain) && t.workers[w].todo == wk.todo && t.global == s.global + [wk.hold[0]])
  {
    hide ReadyQueue.Pick;
  }

  lemma FromWaking(k: nat -> int, s: State, w: nat, id: Id)
    requires Good(k, s) && At(s, w, Waking) && s.workers[w].hold == [id]
    ensures CanResume(k, s, id)
  {
    hide Inv, Flushed, Enabled, Apply, CanResume, Prepared, Onward;
    Forwards(k, s, w);
    IsPrepared(k, s, w);
    DrainSteps(k, s, w);
    FromGlobal(k, Apply(k, s, Forward(s, w)), w, |s.global|, id);
    After(k, s, Forward(s, w), id);
  }

  lemma {:induction false} FromTodo(k: nat -> int, s: State, w: nat, i: nat, id: Id)
    requires Good(k, s) && w < |s.workers| && Early(s.workers[w].stage)
    requires i < |s.workers[w].todo| && s.workers[w].todo[i].slot == id
    ensures CanResume(k, s, id)
    decreases Rank(s, w)
  {
    hide Inv, Flushed, Enabled, Apply, CanResume, Rank, Lap;
    Forwards(k, s, w);
    IsPrepared(k, s, w);
    DrainSteps(k, s, w);
    hide Prepared;
    var t := Apply(k, s, Forward(s, w));
    if s.workers[w].stage != Stored {
      FromTodo(k, t, w, i, id);
    } else if i == 0 {
      FromWaking(k, t, w, id);
    } else {
      FromTodo(k, t, w, i - 1, id);
    }
    After(k, s, Forward(s, w), id);
  }

  lemma {:induction false} FromCq(k: nat -> int, s: State, w: nat, i: nat, id: Id)
    requires Good(k, s) && w < |s.workers|
    requires i < |s.workers[w].cq| && s.workers[w].cq[i].slot == id && !Surplus(i)
    ensures CanResume(k, s, id)
    decreases i, Rank(s, w)
  {
    hide Inv, Flushed, Enabled, Apply, CanResume, Rank, Forward, Lap;
    if s.workers[w].stage !in {Top, InRing} {
      Forwards(k, s, w);
      FromCq(k, Apply(k, s, Forward(s, w)), w, i, id);
    } else {
      Polls(k, s, w);
      StepStaysGood(k, s, Forward(s, w));
      var t := Apply(k, s, Forward(s, w));
      if i < POLL_LIMIT {
        FromTodo(k, t, w, i, id);
      } else {
        assert i > POLL_LIMIT && !Surplus(i - (POLL_LIMIT + 1));
        FromCq(k, t, w, i - (POLL_LIMIT + 1), id);
      }
    }
    After(k, s, Forward(s, w), id);
  }

  /** The request completes when it has been flushed and its completion will not be a surplus one: until then the worker
      polls. */
  lemma {:induction false} FromFlight(k: nat -> int, s: State, w: nat, j: nat, id: Id)
    requires Good(k, s) && w < |s.workers| && j < |s.workers[w].flight| && s.workers[w].flight[j].slot == id
    ensures CanResume(k, s, id)
    decreases |s.workers[w].cq|, One(j >= s.workers[w].own.sent), Rank(s, w)
  {
    hide Inv, Enabled, Apply, CanResume, Rank, Forward, Lap;
    assert s.workers[w].stage == InRing ==> s.workers[w].own.sent > j;
    hide Flushed;
    if j < s.workers[w].own.sent && !Surplus(|s.workers[w].cq|) {
      Completes(k, s, w, j);
      StepStaysGood(k, s, Outside(Complete(w, j)));
      FromCq(k, Apply(k, s, Outside(Complete(w, j))), w, |s.workers[w].cq|, id);
      After(k, s, Outside(Complete(w, j)), id);
    } else {
      if s.workers[w].stage !in {Top, InRing} {
        Forwards(k, s, w);
      } else {
        Polls(k, s, w);
        StepStaysGood(k, s, Forward(s, w));
      }
      FromFlight(k, Apply(k, s, Forward(s, w)), w, j, id);
      After(k, s, Forward(s, w), id);
    }
  }

  // ── From a sleep entry ──

  /** A waiting thread that is not parked yet is in the hands of the worker that is parking it. */
  lemma Parker(k: nat -> int, s: State, id: Id) returns (v: nat)
    requires Inv(k, s) && id in s.board.awaiting && id !in s.board.parked
    ensures v < |s.workers| && Parking(s.workers[v], id)
    ensures s.workers[v].stage != Queued ==> id < |s.board.life| && s.board.life[id] == Blocked
  {
    assert Counted(s);
    hide Inv, Counted;
    WaitingIsAdrift(k, s, id);
    assert id in Live(s.board);
    hide Live;
    HeldBySome(s, id);
    v :| 0 <= v < |s.workers| && id in Bag(s.workers[v]);
    hide Bag, Carries, Parking;
    HeldForParking(s.board.life[id], s.workers[v], id);
  }

  lemma HeldForParking(life: Life, wk: Worker, id: Id)
    requires Carries(life, wk, id) && id in Bag(wk)
    ensures Parking(wk, id) && (wk.stage != Queued ==> life == Blocked)
  {
  }

  lemma HeldBySome(s: State, id: Id)
    requires Counted(s) && id in Live(s.board) && id !in s.global && id !in s.board.parked
    requires forall a | 0 <= a < |s.agents| :: s.agents[a] != Init(id) && s.agents[a] != Push(id)
    ensures exists v :: 0 <= v < |s.workers| && id in Bag(s.workers[v])
  {
    hide Tickets, Live, Sum, Bag;
    assert id in Places(s);
    InSum(WorkerBags(s.workers), id);
    InSum(AgentBags(s.agents), id);
    assert forall a | 0 <= a < |s.agents| :: id !in AgentBags(s.agents)[a];
    var v :| 0 <= v < |s.workers| && id in WorkerBags(s.workers)[v];
    assert WorkerBags(s.workers)[v] == Bag(s.workers[v]);
  }

  /** One step of a worker that is parking a thread. */
  lemma ParkStep(k: nat -> int, s: State, v: nat, id: Id)
    requires Prepared(s, v) && Parking(s.workers[v], id)
    requires s.workers[v].stage != Queued ==> s.board.life[id] == Blocked
    ensures Enabled(s, Forward(s, v))
    ensures var t := Apply(k, s, Forward(s, v));
      && s.board.parked <= t.board.parked && v < |t.workers| && |t.board.life| == |s.board.life|
      && t.agents == s.agents && t.sleepers == s.sleepers && !AllBarred(t.workers)
      && t.board.life[id] == Blocked
      && (id in t.board.parked || (Parking(t.workers[v], id) && t.workers[v].stage != Queued))
  {
    hide ReadyQueue.Pick, ReadyQueue.Check;
    assert !Barred(Apply(k, s, Forward(s, v)).workers, v);
  }

  /** The timer thread or a spawner acts. */
  ghost predicate Elsewhere(s: State, t: State, a: nat) {
    && a < |s.agents| == |t.agents| && t.agents == s.agents[a := t.agents[a]]
    && t.workers == s.workers
  }

  lemma AgentPushes(k: nat -> int, s: State, a: nat)
    requires a < |s.agents| && s.agents[a].Push?
    ensures Enabled(s, Outside(AgentPush(a)))
    ensures var t := Apply(k, s, Outside(AgentPush(a)));
      && Elsewhere(s, t, a) && t.agents[a] == Idle && t.global == s.global + [s.agents[a].id]
      && t.sleepers == s.sleepers && t.board == s.board
  {
  }

  lemma FromAgent(k: nat -> int, s: State, a: nat, id: Id)
    requires Good(k, s) && a < |s.agents| && s.agents[a] == Push(id) && !AllBarred(s.workers)
    ensures CanResume(k, s, id)
  {
    hide Inv, Flushed, Enabled, Apply, CanResume, Barred;
    AgentPushes(k, s, a);
    StepStaysGood(k, s, Outside(AgentPush(a)));
    var w :| 0 <= w < |s.workers| && !Barred(s.workers, w);
    FromGlobal(k, Apply(k, s, Outside(AgentPush(a))), w, |s.global|, id);
    After(k, s, Outside(AgentPush(a)), id);
  }

  /** A timer wake that is not premature. */
  lemma TimerLooks(k: nat -> int, s: State, a: nat)
    requires a < |s.agents| && s.agents[a].Timer? && s.agents[a].id < |s.board.life|
    requires s.board.life[s.agents[a].id] == Blocked ==> s.agents[a].id in s.board.parked
    ensures Enabled(s, Outside(TimerLook(a))) && !WakesTooEarly(s, Outside(TimerLook(a)))
    ensures var t := Apply(k, s, Outside(TimerLook(a)));
      && Elsewhere(s, t, a) && s.board.parked - {s.agents[a].id} <= t.board.parked && t.sleepers == s.sleepers
      && t.agents[a] == if s.board.life[s.agents[a].id] == Blocked then Push(s.agents[a].id) else Idle
  {
  }

  lemma FromTimer(k: nat -> int, s: State, a: nat, id: Id)
    requires Good(k, s) && a < |s.agents| && s.agents[a] == Timer(id) && !AllBarred(s.workers) && id in s.board.parked
    ensures CanResume(k, s, id)
  {
    ParkedBlocked(k, s, id);
    hide Inv, Flushed, Enabled, Apply, CanResume, AllBarred;
    TimerLooks(k, s, a);
    StepStaysGood(k, s, Outside(TimerLook(a)));
    FromAgent(k, Apply(k, s, Outside(TimerLook(a))), a, id);
    After(k, s, Outside(TimerLook(a)), id);
  }

  lemma ParkedBlocked(k: nat -> int, s: State, id: Id)
    requires Inv(k, s) && id in s.board.parked
    ensures id < |s.board.life| && s.board.life[id] == Blocked
  {
    hide Counted, GlobalOk, SleepersOk, WorkersOk, AgentsOk;
  }

  lemma TimerPops(k: nat -> int, s: State, a: nat, j: nat)
    requires a < |s.agents| && s.agents[a] == Idle && j < |s.sleepers|
    ensures Enabled(s, Outside(TimerPop(a, j)))
    ensures var t := Apply(k, s, Outside(TimerPop(a, j)));
      Elsewhere(s, t, a) && t.agents[a] == Timer(s.sleepers[j]) && t.board == s.board
  {
  }

  lemma Initialises(k: nat -> int, s: State, a: nat)
    requires a < |s.agents| && s.agents[a].Init? && s.agents[a].id < |s.board.life|
    ensures Enabled(s, Outside(InitReady(a)))
    ensures var t := Apply(k, s, Outside(InitReady(a)));
      && Elsewhere(s, t, a) && t.agents[a].Push? && t.board.parked == s.board.parked && t.sleepers == s.sleepers
  {
  }

  lemma AgentKnown(k: nat -> int, s: State, a: nat)
    requires Inv(k, s) && a < |s.agents|
    ensures !s.agents[a].Idle? ==> s.agents[a].id < |s.board.life|
    ensures s.agents[a].Timer? ==> s.agents[a].id in s.board.awaiting
  {
    assert AgentOk(k, s.board, s.agents[a]);
    if s.agents[a].Timer? {
      assert WaitOk(s, s.agents[a].id);
    }
  }

  /** Thread id sleeps, parked, with entry j; some worker is not barred. */
  ghost predicate Slept(s: State, j: nat, id: Id) {
    |s.agents| > 0 && j < |s.sleepers| && s.sleepers[j] == id && !AllBarred(s.workers) && id in s.board.parked
  }

  lemma FromIdle(k: nat -> int, s: State, j: nat, id: Id)
    requires Good(k, s) && Slept(s, j, id) && s.agents[0] == Idle
    ensures CanResume(k, s, id)
  {
    hide Inv, Flushed, Enabled, Apply, CanResume, AllBarred;
    TimerPops(k, s, 0, j);
    StepStaysGood(k, s, Outside(TimerPop(0, j)));
    FromTimer(k, Apply(k, s, Outside(TimerPop(0, j))), 0, id);
    After(k, s, Outside(TimerPop(0, j)), id);
  }

  lemma FromPush(k: nat -> int, s: State, j: nat, id: Id)
    requires Good(k, s) && Slept(s, j, id) && s.agents[0].Push?
    ensures CanResume(k, s, id)
  {
    hide Inv, Flushed, Enabled, Apply, CanResume, AllBarred;
    AgentPushes(k, s, 0);
    StepStaysGood(k, s, Outside(AgentPush(0)));
    FromIdle(k, Apply(k, s, Outside(AgentPush(0))), j, id);
    After(k, s, Outside(AgentPush(0)), id);
  }

  lemma FromInit(k: nat -> int, s: State, j: nat, id: Id)
    requires Good(k, s) && Slept(s, j, id) && s.agents[0].Init?
    ensures CanResume(k, s, id)
  {
    hide Inv, Flushed, Enabled, Apply, CanResume, AllBarred;
    AgentKnown(k, s, 0);
    Initialises(k, s, 0);
    StepStaysGood(k, s, Outside(InitReady(0)));
    FromPush(k, Apply(k, s, Outside(InitReady(0))), j, id);
    After(k, s, Outside(InitReady(0)), id);
  }

  /** Agent 0 is about to look at a thread that is Blocked but not parked. */
  predicate TooEarly(s: State) {
    && |s.agents| > 0 && s.agents[0].Timer? && s.agents[0].id < |s.board.life|
    && s.board.life[s.agents[0].id] == Blocked && s.agents[0].id !in s.board.parked
  }

  lemma FromOtherTimer(k: nat -> int, s: State, j: nat, id: Id)
    requires Good(k, s) && Slept(s, j, id) && s.agents[0].Timer? && s.agents[0].id != id && !TooEarly(s)
    ensures CanResume(k, s, id)
  {
    hide Inv, Flushed, Enabled, Apply, CanResume, WakesTooEarly, AllBarred;
    AgentKnown(k, s, 0);
    TimerLooks(k, s, 0);
    StepStaysGood(k, s, Outside(TimerLook(0)));
    var t := Apply(k, s, Outside(TimerLook(0)));
    if t.agents[0].Push? {
      FromPush(k, t, j, id);
    } else {
      FromIdle(k, t, j, id);
    }
    After(k, s, Outside(TimerLook(0)), id);
  }

  lemma {:induction false} FromOtherPark(k: nat -> int, s: State, j: nat, id: Id, v: nat)
    requires Good(k, s) && TooEarly(s) && Slept(s, j, id) && s.agents[0].id != id
    requires v < |s.workers| && Parking(s.workers[v], s.agents[0].id)
    ensures CanResume(k, s, id)
    decreases Rank(s, v)
  {
    hide Inv, Flushed, Enabled, Apply, CanResume, Rank, Lap, Forward, Prepared, WakesTooEarly, AllBarred;
    Forwards(k, s, v);
    IsPrepared(k, s, v);
    ParkStep(k, s, v, s.agents[0].id);
    var t := Apply(k, s, Forward(s, v));
    if s.agents[0].id in t.board.parked {
      FromOtherTimer(k, t, j, id);
    } else {
      FromOtherPark(k, t, j, id, v);
    }
    After(k, s, Forward(s, v), id);
  }

  /** Agent 0 ends what it is doing, which may mean waiting for another thread's park, and takes the entry. */
  lemma FromEntry(k: nat -> int, s: State, j: nat, id: Id)
    requires Good(k, s) && Slept(s, j, id)
    ensures CanResume(k, s, id)
  {
    hide Inv, CanResume, Flushed, AllBarred;
    match s.agents[0]
    case Idle => FromIdle(k, s, j, id);
    case Push(_) => FromPush(k, s, j, id);
    case Init(_) => FromInit(k, s, j, id);
    case Timer(x) =>
      if x == id {
        FromTimer(k, s, 0, id);
      } else if TooEarly(s) {
        AgentKnown(k, s, 0);
        var v := Parker(k, s, x);
        FromOtherPark(k, s, j, id, v);
      } else {
        FromOtherTimer(k, s, j, id);
      }
  }

  /** A sleep entry for id is queued or in the timer thread's hands. */
  ghost predicate Entered(s: State, id: Id) {
    id in s.sleepers || exists a :: 0 <= a < |s.agents| && s.agents[a] == Timer(id)
  }

  lemma FromParked(k: nat -> int, s: State, id: Id)
    requires Good(k, s) && |s.agents| > 0 && Entered(s, id) && !AllBarred(s.workers) && id in s.board.parked
    ensures CanResume(k, s, id)
  {
    hide Inv, CanResume, Flushed, AllBarred;
    if id in s.sleepers {
      var j :| 0 <= j < |s.sleepers| && s.sleepers[j] == id;
      FromEntry(k, s, j, id);
    } else {
      var a :| 0 <= a < |s.agents| && s.agents[a] == Timer(id);
      FromTimer(k, s, a, id);
    }
  }

  lemma {:induction false} FromPark(k: nat -> int, s: State, id: Id, v: nat)
    requires Good(k, s) && |s.agents| > 0 && Entered(s, id) && v < |s.workers| && Parking(s.workers[v], id)
    requires s.workers[v].stage != Queued ==> id < |s.board.life| && s.board.life[id] == Blocked
    ensures CanResume(k, s, id)
    decreases Rank(s, v)
  {
    hide Inv, Flushed, Enabled, Apply, CanResume, Rank, Lap, AllBarred;
    Forwards(k, s, v);
    IsPrepared(k, s, v);
    assert id < |s.board.life|;
    hide Prepared;
    ParkStep(k, s, v, id);
    var t := Apply(k, s, Forward(s, v));
    if id in t.board.parked {
      FromParked(k, t, id);
    } else {
      FromPark(k, t, id, v);
    }
    After(k, s, Forward(s, v), id);
  }

  lemma EnteredWaits(k: nat -> int, s: State, id: Id)
    requires Inv(k, s) && Entered(s, id)
    ensures id in s.board.awaiting
  {
    hide Counted, BoardOk, GlobalOk, WorkersOk;
    if id !in s.sleepers {
      var a :| 0 <= a < |s.agents| && s.agents[a] == Timer(id);
      assert AgentOk(k, s.board, s.agents[a]);
    }
  }

  lemma FromSleep(k: nat -> int, s: State, id: Id)
    requires Good(k, s) && |s.agents| > 0 && Entered(s, id) && !AllBarred(s.workers)
    ensures CanResume(k, s, id)
  {
    hide Inv, CanResume, Flushed, AllBarred;
    if id in s.board.parked {
      FromParked(k, s, id);
    } else {
      EnteredWaits(k, s, id);
      var v := Parker(k, s, id);
      FromPark(k, s, id, v);
    }
  }

  // ── Exactly the threads that are not hopeless ──

  lemma FromRing(k: nat -> int, s: State, w: nat, id: Id)
    requires Good(k, s) && w < |s.workers| && !RingHopeless(s.workers[w], id)
    ensures CanResume(k, s, id)
  {
    hide Inv, CanResume, Flushed;
    var wk := s.workers[w];
    if !NotAsked(wk.flight, id) {
      var i :| 0 <= i < |wk.flight| && wk.flight[i].slot == id;
      FromFlight(k, s, w, i, id);
    } else if !OnlySurplus(wk.cq, id) {
      var i :| 0 <= i < |wk.cq| && wk.cq[i].slot == id && !Surplus(i);
      FromCq(k, s, w, i, id);
    } else {
      var i :| 0 <= i < |wk.todo| && wk.todo[i].slot == id;
      TodoIsEarly(k, s, w);
      FromTodo(k, s, w, i, id);
    }
  }

  /** With a timer thread, from every state of a smooth run: a waiting thread has a smooth continuation in which it
      executes again if and only if it is not hopeless and some worker is not barred. */
  lemma ResumesIff(k: nat -> int, s: State, id: Id)
    requires Good(k, s) && |s.agents| > 0 && id in s.board.awaiting
    ensures CanResume(k, s, id) <==> !Hopeless(s, id) && !AllBarred(s.workers)
  {
    hide Inv, Flushed, AllBarred;
    if AllBarred(s.workers) {
      forall steps, t | Run(k, s, steps, t) && Smooth(k, s, steps) ensures !Executes(t, id) {
        BarredForever(k, s, steps, t, id);
      }
    } else if Hopeless(s, id) {
      hide Hopeless;
      forall steps, t | Run(k, s, steps, t) && Smooth(k, s, steps) ensures !Executes(t, id) {
        HopelessForever(k, s, steps, t, id);
      }
    } else {
      hide CanResume;
      if Entered(s, id) {
        FromSleep(k, s, id);
      } else {
        var w :| 0 <= w < |s.workers| && !RingHopeless(s.workers[w], id);
        FromRing(k, s, w, id);
      }
    }
  }

  lemma TodoIsEarly(k: nat -> int, s: State, w: nat)
    requires Inv(k, s) && w < |s.workers| && s.workers[w].todo != []
    ensures Early(s.workers[w].stage)
  {
    hide Counted, BoardOk, GlobalOk, SleepersOk, AgentsOk;
    assert WorkerOk(k, s.board, s.workers[w], w);
    hide WorkersOk, HandsOk, LocalOk;
  }
}
