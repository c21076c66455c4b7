/** A lost completion costs a worker, too: the ring still counts the request as in flight, so a worker that runs out of
    work waits for a completion that will not come. */
module LifecycleBarred {
  import opened Lifecycle
  import opened LifecycleInvariant
  import opened LifecycleResume
  import opened LifecycleOverflow

  /** The only worker has lost a completion and has no other request; no thread is on its way to block or to yield. */
  predicate Winding(s: State) {
    && |s.workers| == 1
    && var wk := s.workers[0];
    && wk.flight == [] && wk.cq == [] && wk.own.lost > 0 && wk.stage !in {Queued, Requeue}
    && (wk.stage in {Marked, Back} ==>
          wk.hold != [] && wk.hold[0] < |s.board.life| && s.board.life[wk.hold[0]] == Finished)
  }

  /** The worker's next step; threads that run finish. */
  function Wind(s: State): Step
    requires |s.workers| == 1
  {
    var wk := s.workers[0];
    if wk.stage == Exec && !(wk.hold != [] && wk.hold[0] in s.board.reading) then Thread(0, FinishMark)
    else Forward(s, 0)
  }

  /** Threads that are still to finish, counted where the worker has or finds them. */
  function Left(s: State): nat
    requires |s.workers| == 1
  {
    |s.global| + |s.workers[0].local| + |s.workers[0].hold| + |s.workers[0].todo|
  }

  /** Where the worker is on its way to its next thread. */
  function Phase(wk: Worker): nat {
    if Early(wk.stage) then if wk.own.waited then 9 else 7
    else if wk.stage == Top then 8
    else if wk.stage == LookFirst then 6
    else if wk.stage == LookLocal then 5
    else if wk.stage == LookGlobal then 4
    else if wk.stage == LookSteal then 2
    else if wk.stage == InRing then 0
    else 3
  }

  ghost predicate Nearer(s: State, t: State) {
    && Winding(s) && Winding(t)
    && (Left(t) < Left(s) ||
        (Left(t) == Left(s) && (Phase(t.workers[0]) < Phase(s.workers[0]) ||
                                (Phase(t.workers[0]) == Phase(s.workers[0]) && Rank(t, 0) < Rank(s, 0)))))
  }

  lemma WindLoop(k: nat -> int, s: State)
    requires Winding(s) && Prepared(s, 0) && s.workers[0].stage in {Top, Drain, Stored, Waking}
    ensures Enabled(s, Wind(s)) && Nearer(s, Apply(k, s, Wind(s)))
  {
    hide ReadyQueue.Pick, ReadyQueue.Check;
  }

  lemma WindPop(k: nat -> int, s: State)
    requires Winding(s) && Prepared(s, 0) && s.workers[0].stage in {LookFirst, LookLocal, LookGlobal}
    ensures Enabled(s, Wind(s)) && Nearer(s, Apply(k, s, Wind(s)))
  {
    hide ReadyQueue.Pick, ReadyQueue.Check, ReadyQueue.Next;
  }

  lemma WindSteal(k: nat -> int, s: State)
    requires Winding(s) && Prepared(s, 0) && s.workers[0].stage == LookSteal
    ensures Enabled(s, Wind(s)) && Nearer(s, Apply(k, s, Wind(s)))
  {
    hide ReadyQueue.Check, ReadyQueue.Next;
  }

  lemma WindCarry(k: nat -> int, s: State)
    requires Winding(s) && Prepared(s, 0) && s.workers[0].stage in {Grab, Carry, Haul}
    ensures Enabled(s, Wind(s)) && Nearer(s, Apply(k, s, Wind(s)))
  {
    hide ReadyQueue.Pick, ReadyQueue.Check, ReadyQueue.Next;
  }

  lemma WindRun(k: nat -> int, s: State)
    requires Winding(s) && Prepared(s, 0) && s.workers[0].stage in {Got, Loading, Exec}
    ensures Enabled(s, Wind(s)) && Nearer(s, Apply(k, s, Wind(s)))
  {
    hide ReadyQueue.Pick, ReadyQueue.Check, ReadyQueue.Next;
  }

  lemma WindInspect(k: nat -> int, s: State)
    requires Winding(s) && Prepared(s, 0) && s.workers[0].stage == Back
    ensures Enabled(s, Wind(s)) && Nearer(s, Apply(k, s, Wind(s)))
  {
    hide ReadyQueue.Pick, ReadyQueue.Check, ReadyQueue.Next;
    var t := Apply(k, s, Wind(s));
    assert t == Set(s, 0, s.workers[0].(stage := Reap));
    hide Apply;
  }

  lemma WindLeave(k: nat -> int, s: State)
    requires Winding(s) && Prepared(s, 0) && s.workers[0].stage in {Marked, Reap}
    ensures Enabled(s, Wind(s)) && Nearer(s, Apply(k, s, Wind(s)))
  {
    hide ReadyQueue.Pick, ReadyQueue.Check, ReadyQueue.Next;
  }

  lemma WindStep(k: nat -> int, s: State)
    requires Good(k, s) && Winding(s) && s.workers[0].stage != InRing
    ensures var st := Wind(s); Enabled(s, st) && RT.Quiet(st) && Good(k, Apply(k, s, st)) && Nearer(s, Apply(k, s, st))
  {
    hide Inv, Flushed, Enabled, Apply, Nearer, Prepared;
    IsPrepared(k, s, 0);
    var stage := s.workers[0].stage;
    if stage in {Top, Drain, Stored, Waking} {
      WindLoop(k, s);
    } else if stage in {LookFirst, LookLocal, LookGlobal} {
      WindPop(k, s);
    } else if stage == LookSteal {
      WindSteal(k, s);
    } else if stage in {Grab, Carry, Haul} {
      WindCarry(k, s);
    } else if stage in {Got, Loading, Exec} {
      WindRun(k, s);
    } else if stage == Back {
      WindInspect(k, s);
    } else {
      WindLeave(k, s);
    }
    StepStaysGood(k, s, Wind(s));
  }

  /** Such a worker, whose threads finish one after the other, ends up barred. */
  lemma {:induction false} WindsUp(k: nat -> int, s: State) returns (t: State)
    requires Good(k, s) && Winding(s)
    ensures RT.Leads(k, s, t) && AllBarred(t.workers) && t.workers != []
    decreases Left(s), Phase(s.workers[0]), Rank(s, 0)
  {
    hide Good, Enabled, Apply, RT.Leads, Wind, Rank, Left, Phase;
    if s.workers[0].stage == InRing {
      t := s;
      RT.Stays(k, s);
    } else {
      WindStep(k, s);
      var m := Apply(k, s, Wind(s));
      RT.LeadsBy(k, s, Wind(s), m);
      t := WindsUp(k, m);
      RT.LeadsOn(k, s, m, t);
    }
  }

  /** The state after the poll that drops the completion of thread POLL_LIMIT. */
  function Dropped(k: nat -> int): State {
    var s := Ward(k, POLL_LIMIT + 1, POLL_LIMIT + 1);
    s.(workers := [Polled(s.workers[0], true)])
  }

  lemma Drops(k: nat -> int)
    ensures RT.Leads(k, Ward(k, POLL_LIMIT + 1, POLL_LIMIT + 1), Dropped(k)) && Winding(Dropped(k))
  {
    hide RT.Leads, RT.InVain, RT.Drained, CrowdBoard;
    var n := POLL_LIMIT + 1;
    assert |Answers(k, n)| == n && Requests(n, n) == [] && Answers(k, n)[n..] == [];
    RT.LeadsBy(k, Ward(k, n, n), Loop(0, WaitRing(false)), Dropped(k));
  }

  lemma LeadsToGood(k: nat -> int, s: State, t: State)
    requires Initial(s) && RT.Leads(k, s, t)
    ensures Good(k, t)
  {
    hide Run, Smooth, Good, Initial;
    var steps :| Run(k, s, steps, t) && Smooth(k, s, steps);
    InitialGood(k, s);
    SmoothStaysGood(k, s, steps, t);
  }

  /** A smooth run from the start after which no thread executes any more, whatever is spawned, wakes or completes. */
  lemma LostCompletionBarsWorker(k: nat -> int)
    ensures exists s0, t :: Initial(s0) && RT.Leads(k, s0, t) && t.workers != [] && AllBarred(t.workers)
  {
    hide RT.Leads, Crowd, Ward, Dropped, Initial, Good, Winding;
    var n := POLL_LIMIT + 1;
    var s0 := Crowd(n, 0);
    CompletionsPileUp(k, n, n);
    Drops(k);
    RT.LeadsOn(k, s0, Ward(k, n, n), Dropped(k));
    LeadsToGood(k, s0, Dropped(k));
    var t := WindsUp(k, Dropped(k));
    RT.LeadsOn(k, s0, Dropped(k), t);
  }
}
