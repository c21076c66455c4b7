/** What the life-cycle invariant means for whole runs of the scheduler. */
module LifecycleTheorems {
  import opened Basics
  import opened Bags
  import opened Lifecycle
  import opened LifecycleInvariant
  import opened LifecycleSteps

  /** Reachable without a premature timer wake. */
  ghost predicate Reached(k: nat -> int, s: State, steps: seq<Step>, t: State) {
    Initial(s) && Run(k, s, steps, t) && Timely(k, s, steps)
  }

  lemma {:induction false} RunKeepsInv(k: nat -> int, s: State, steps: seq<Step>, t: State)
    requires Inv(k, s) && Run(k, s, steps, t) && Timely(k, s, steps)
    ensures Inv(k, t)
    decreases |steps|
  {
    hide Inv, Enabled, Apply, WakesTooEarly;
    if steps != [] {
      StepKeepsInv(k, s, steps[0]);
      RunKeepsInv(k, Apply(k, s, steps[0]), steps[1..], t);
    }
  }

  lemma ReachedInv(k: nat -> int, s: State, steps: seq<Step>, t: State)
    requires Reached(k, s, steps, t)
    ensures Inv(k, t)
  {
    InitialInv(k, s);
    RunKeepsInv(k, s, steps, t);
  }

  // ── Exactly one place ──

  /** Every id in use is in exactly one queue, hand or parking place, once; every other id is nowhere. */
  ghost predicate OnePlace(s: State) {
    forall id: Id :: Places(s)[id] == if id in Live(s.board) then 1 else 0
  }

  ghost predicate AlwaysOnePlace(k: nat -> int, s: State, steps: seq<Step>)
    decreases |steps|
  {
    OnePlace(s) && (steps == [] || (Enabled(s, steps[0]) && AlwaysOnePlace(k, Apply(k, s, steps[0]), steps[1..])))
  }

  lemma EarlyWakeDoubles(k: nat -> int, s: State, st: Step)
    requires Inv(k, s) && WakesTooEarly(s, st)
    ensures !OnePlace(Apply(k, s, st))
  {
    hide BoardOk, GlobalOk, SleepersOk, WorkersOk, AgentsOk;
    var a := st.o.a;
    var id := s.agents[a].id;
    var t := Apply(k, s, st);
    assert id in Live(s.board) && id in Live(t.board);
    assert t.board.parked == s.board.parked && t.agents == s.agents[a := Push(id)];
    assert t.workers == s.workers && t.global == s.global;
    hide Live, Apply, WakesTooEarly;
    Doubled(s, t, a, id);
  }

  lemma Doubled(s: State, t: State, a: nat, id: Id)
    requires Counted(s) && id in Live(s.board) && a < |s.agents| && s.agents[a] == Timer(id)
    requires t.board.parked == s.board.parked && t.agents == s.agents[a := Push(id)]
    requires t.workers == s.workers && t.global == s.global
    ensures Places(t)[id] == 2
  {
    hide Live, Tickets;
    CountAgent(s, a, Push(id));
    hide WorkerBags, AgentBags, AgentTimers, Sum;
    OneMore(multiset(s.global), Sum(WorkerBags(s.workers)), Sum(AgentBags(s.agents)), Sum(AgentBags(t.agents)),
            multiset(s.board.parked), multiset(Live(s.board)), id);
  }

  lemma OneMore(g: multiset<Id>, w: multiset<Id>, a: multiset<Id>, a': multiset<Id>, p: multiset<Id>, l: multiset<Id>,
      id: Id)
    requires g + w + a + p == l && a' + multiset{} == a + multiset{id} && l[id] == 1
    ensures (g + w + a' + p)[id] == 2
  {
    assert (a' + multiset{})[id] == (a + multiset{id})[id];
  }

  /** A run keeps every thread in exactly one place if and only if no timer wake in it comes too early: between a
      thread's store of Blocked and its worker's look at that state. */
  lemma {:induction false} OnePlaceIffTimely(k: nat -> int, s: State, steps: seq<Step>, t: State)
    requires Inv(k, s) && Run(k, s, steps, t)
    ensures AlwaysOnePlace(k, s, steps) <==> Timely(k, s, steps)
    decreases |steps|
  {
    assert OnePlace(s) by { hide BoardOk, GlobalOk, SleepersOk, WorkersOk, AgentsOk, Live, Places; }
    hide Inv, Enabled, Apply, WakesTooEarly, OnePlace;
    if steps != [] {
      if WakesTooEarly(s, steps[0]) {
        EarlyWakeDoubles(k, s, steps[0]);
      } else {
        StepKeepsInv(k, s, steps[0]);
        OnePlaceIffTimely(k, Apply(k, s, steps[0]), steps[1..], t);
      }
    }
  }

  /** An id in a queue is Ready, its registers are saved, it is queued once, and no worker or agent has it. */
  lemma QueuedOnceAndSaved(k: nat -> int, s: State, steps: seq<Step>, t: State, id: Id)
    requires Reached(k, s, steps, t)
    requires id in t.global || exists w :: 0 <= w < |t.workers| && id in t.workers[w].local
    ensures id < |t.board.life| && t.board.life[id] == Ready && id in t.board.saved && id !in t.board.awaiting
    ensures multiset(t.global)[id] + Sum(WorkerBags(t.workers))[id] == 1
    ensures forall w | 0 <= w < |t.workers| :: id !in t.workers[w].hold
    ensures forall a | 0 <= a < |t.agents| :: id !in AgentBag(t.agents[a])
  {
    ReachedInv(k, s, steps, t);
    hide Reached, Counted, BoardOk, SleepersOk, AgentsOk, AgentBag, Bag, WorkerBags;
    if id in t.global {
      assert Runnable(k, t.board, id);
      hide GlobalOk, WorkersOk, Runnable;
      OnlyGlobal(t, id);
    } else {
      var w :| 0 <= w < |t.workers| && id in t.workers[w].local;
      assert WorkerOk(k, t.board, t.workers[w], w);
      assert Runnable(k, t.board, id);
      hide GlobalOk, WorkersOk, WorkerOk, Runnable;
      OnlyLocal(t, w, id);
    }
  }

  lemma OnlyGlobal(s: State, id: Id)
    requires Counted(s) && id in s.global
    ensures multiset(s.global)[id] + Sum(WorkerBags(s.workers))[id] == 1
    ensures forall w | 0 <= w < |s.workers| :: id !in s.workers[w].hold
    ensures forall a | 0 <= a < |s.agents| :: id !in AgentBag(s.agents[a])
  {
    hide Tickets, Live;
    assert Places(s)[id] <= 1;
    forall w | 0 <= w < |s.workers| ensures id !in s.workers[w].hold {
      SumUpdate(WorkerBags(s.workers), w, multiset{});
      assert WorkerBags(s.workers)[w] == Bag(s.workers[w]);
    }
    forall a | 0 <= a < |s.agents| ensures id !in AgentBag(s.agents[a]) {
      SumUpdate(AgentBags(s.agents), a, multiset{});
      assert AgentBags(s.agents)[a] == AgentBag(s.agents[a]);
    }
  }

  lemma OnlyLocal(s: State, w: nat, id: Id)
    requires Counted(s) && w < |s.workers| && id in s.workers[w].local
    ensures multiset(s.global)[id] + Sum(WorkerBags(s.workers))[id] == 1
    ensures forall v | 0 <= v < |s.workers| :: id !in s.workers[v].hold
    ensures forall a | 0 <= a < |s.agents| :: id !in AgentBag(s.agents[a])
  {
    assert id in Bag(s.workers[w]);
    hide Tickets, Live;
    OnlyHere(s, w, id);
    assert Places(s)[id] <= 1;
    SumUpdate(WorkerBags(s.workers), w, multiset{});
    assert WorkerBags(s.workers)[w] == Bag(s.workers[w]);
    forall v | 0 <= v < |s.workers| ensures id !in s.workers[v].hold {
      assert v != w ==> id !in Bag(s.workers[v]);
    }
  }

  /** Worker w alone has the finished thread it is about to release: no queue, agent, other worker or parking place has
      its id, nothing can wake it, and after the release the id is nowhere. */
  ghost predicate Alone(s: State, w: nat)
    requires ThreadEnabled(s, w, Release)
  {
    var id := Cur(s, w);
    && s.board.life[id] == Finished && id !in s.global && id !in s.board.parked && id !in Tickets(s)
    && (forall v | 0 <= v < |s.workers| && v != w :: id !in Bag(s.workers[v]))
    && (forall a | 0 <= a < |s.agents| :: id !in AgentBag(s.agents[a]))
    && id !in Places(ThreadApply(s, w, Release))
  }

  lemma ReleasedAlone(k: nat -> int, s: State, steps: seq<Step>, t: State, w: nat)
    requires Reached(k, s, steps, t) && ThreadEnabled(t, w, Release)
    ensures Alone(t, w)
  {
    hide *;
    ReachedInv(k, s, steps, t);
    ReleaseMeans(k, t, w);
  }

  /** What the worker about to release a slot holds: a finished thread that nothing waits for. */
  lemma Reaping(k: nat -> int, s: State, w: nat)
    requires ThreadEnabled(s, w, Release) && Inv(k, s)
    ensures Counted(s) && Cur(s, w) in Bag(s.workers[w]) && s.board.life[Cur(s, w)] == Finished &&
      Cur(s, w) !in s.board.awaiting
  {
    hide Counted, BoardOk, GlobalOk, SleepersOk, AgentsOk;
    assert WorkerOk(k, s.board, s.workers[w], w);
    hide WorkersOk, RingOk, LocalOk;
  }

  lemma ReleasedNowhere(k: nat -> int, s: State, w: nat)
    requires ThreadEnabled(s, w, Release) && Inv(k, s)
    ensures Cur(s, w) !in Places(ThreadApply(s, w, Release))
  {
    hide Counted, BoardOk, GlobalOk, SleepersOk, AgentsOk, WorkersOk, Places;
    var t := ThreadApply(s, w, Release);
    ReleaseStep(k, s, w);
    assert Cur(s, w) !in Live(t.board);
    hide Live, ThreadApply;
    NotLive(t, Cur(s, w));
  }

  lemma ReleaseMeans(k: nat -> int, s: State, w: nat)
    requires ThreadEnabled(s, w, Release) && Inv(k, s)
    ensures Alone(s, w)
  {
    hide Inv, Counted, Bag, AgentBag, Places, Tickets, ThreadApply;
    Reaping(k, s, w);
    OnlyHere(s, w, Cur(s, w));
    NoTicket(s, Cur(s, w));
    ReleasedNowhere(k, s, w);
  }

  lemma NotLive(s: State, id: Id)
    requires Counted(s) && id !in Live(s.board)
    ensures id !in Places(s)
  {
    hide Live, Places, Tickets;
  }

  lemma NoTicket(s: State, id: Id)
    requires Counted(s) && id !in s.board.awaiting
    ensures id !in Tickets(s)
  {
    hide Live, Places, Tickets;
  }

  // ── Own results ──

  /** The value a thread reads after a blocking worker-local call is the kernel's result for the request it submitted
      in that call, whichever worker it resumes on and however often its slot was used before. */
  lemma ReadsOwnResult(k: nat -> int, s: State, steps: seq<Step>, t: State, w: nat)
    requires Reached(k, s, steps, t) && Enabled(t, Thread(w, ReadResult))
    ensures t.board.results[Cur(t, w)] == k(t.board.reading[Cur(t, w)])
  {
    hide Reached, Counted, BoardOk, GlobalOk, SleepersOk, AgentsOk, RingOk, LocalOk;
    ReachedInv(k, s, steps, t);
    assert WorkerOk(k, t.board, t.workers[w], w);
  }

  /** A request or completion on worker w's ring names a thread that waits for I/O on w. */
  lemma RingMeans(k: nat -> int, b: Board, wk: Worker, w: nat, id: Id)
    requires WorkerOk(k, b, wk, w) && id in Ring(wk)
    ensures id in b.awaiting && b.awaiting[id].Io? && b.awaiting[id].worker == w
  {
    if id in multiset(Asked(wk.flight)) {
      var j :| 0 <= j < |wk.flight| && Asked(wk.flight)[j] == id;
    } else if id in multiset(Slots(wk.cq)) {
      var j :| 0 <= j < |wk.cq| && Slots(wk.cq)[j] == id;
      assert CqeOk(k, b, wk.cq[j], w);
    } else {
      var j :| 0 <= j < |wk.todo| && Slots(wk.todo)[j] == id;
      assert CqeOk(k, b, wk.todo[j], w);
    }
  }

  /** A completion is always processed after its thread has parked: the wake finds it Blocked with saved registers,
      waiting for that very request, and makes it Ready. */
  lemma CompletionFindsParked(k: nat -> int, s: State, steps: seq<Step>, t: State, w: nat)
    requires Reached(k, s, steps, t) && Enabled(t, Loop(w, WakeLook))
    ensures var c := t.workers[w].todo[0];
            && c.slot in t.board.parked && c.slot in t.board.saved && c.value == k(c.num)
            && c.slot < |t.board.results| && t.board.results[c.slot] == c.value
            && c.slot in t.board.awaiting && t.board.awaiting[c.slot] == Io(c.num, w)
    ensures var u := Apply(k, t, Loop(w, WakeLook));
            u.workers[w].hold == [t.workers[w].todo[0].slot] && u.workers[w].stage == Waking &&
            u.board.life == t.board.life[t.workers[w].todo[0].slot := Ready]
  {
    ReachedInv(k, s, steps, t);
    TargetParked(k, t, w);
    hide Reached, Counted, BoardOk, GlobalOk, SleepersOk, AgentsOk;
    assert WorkerOk(k, t.board, t.workers[w], w);
  }

  /** The ignored result of the local push in the batch grab is never a failure. */
  lemma BatchAlwaysFits(k: nat -> int, s: State, steps: seq<Step>, t: State, w: nat)
    requires Reached(k, s, steps, t) && Enabled(t, Pop(w, Unload))
    ensures |t.workers[w].local| < BATCH
    ensures Apply(k, t, Pop(w, Unload)).workers[w].local == t.workers[w].local + [t.workers[w].hold[1]]
  {
    hide Reached, Counted, BoardOk, GlobalOk, SleepersOk, AgentsOk, RingOk, HandsOk, Runnable;
    ReachedInv(k, s, steps, t);
    assert WorkerOk(k, t.board, t.workers[w], w);
  }
}
