/** Every step of the life cycle keeps the invariant, except a premature timer wake. */
module LifecycleSteps {
  import opened Basics
  import opened Bags
  import opened Words
  import opened Lifecycle
  import opened LifecycleInvariant

  /** Only worker w differs. */
  ghost predicate Turn(s: State, t: State, w: nat) {
    && w < |s.workers| == |t.workers|
    && (forall v | 0 <= v < |s.workers| && v != w :: t.workers[v] == s.workers[v])
  }

  predicate KeepsParking(wk: Worker, wk': Worker) {
    wk.stage !in {Queued, Marked, Back} || (wk'.stage == wk.stage && wk'.hold == wk.hold)
  }

  lemma MovedBoard(s: State, t: State, w: nat)
    requires BoardOk(s) && Turn(s, t, w) && t.board == s.board && KeepsParking(s.workers[w], t.workers[w])
    ensures BoardOk(t)
  {
    forall id | id in t.board.awaiting ensures WaitOk(t, id) {
      assert WaitOk(s, id);
    }
  }

  /** A worker's step that only moves ids between its hands, its local queue and the global queue, or requests and
      completions along its ring. */
  lemma Moved(k: nat -> int, s: State, t: State, w: nat)
    requires Inv(k, s) && Turn(s, t, w) && KeepsParking(s.workers[w], t.workers[w])
    requires t.board == s.board && t.agents == s.agents && t.sleepers == s.sleepers
    requires multiset(t.global) + Bag(t.workers[w]) == multiset(s.global) + Bag(s.workers[w])
    requires Ring(t.workers[w]) <= Ring(s.workers[w])
    requires GlobalOk(k, t) && WorkerOk(k, t.board, t.workers[w], w)
    ensures Inv(k, t)
  {
    hide Counted, BoardOk, GlobalOk, WorkerOk, AgentOk, Bag, Ring;
    MovedBoard(s, t, w);
    CountTurn(s, t, w);
  }

  lemma ChangedWorkers(k: nat -> int, s: State, t: State, w: nat, id: Id)
    requires WorkersOk(k, s) && Turn(s, t, w) && SameBut(s.board, t.board, id)
    requires forall v | 0 <= v < |s.workers| && v != w :: id !in Bag(s.workers[v])
    requires id in s.board.awaiting ==> s.board.awaiting[id] == Sleep || s.board.awaiting[id].worker == w
    requires WorkerOk(k, t.board, t.workers[w], w)
    ensures WorkersOk(k, t)
  {
    hide WorkerOk, SameBut, Bag;
    forall v | 0 <= v < |t.workers| ensures WorkerOk(k, t.board, t.workers[v], v) {
      if v != w {
        assert t.workers[v] == s.workers[v];
        WorkerFrame(k, s.board, t.board, id, s.workers[v], v);
      }
    }
  }

  lemma ChangedAgents(k: nat -> int, s: State, t: State, id: Id)
    requires AgentsOk(k, s) && t.agents == s.agents && SameBut(s.board, t.board, id)
    requires forall a | 0 <= a < |s.agents| :: id !in AgentBag(s.agents[a])
    requires id in s.board.awaiting ==>
               s.board.awaiting[id].Io? || (id in t.board.awaiting && t.board.awaiting[id] == s.board.awaiting[id])
    ensures AgentsOk(k, t)
  {
    forall a | 0 <= a < |t.agents| ensures AgentOk(k, t.board, t.agents[a]) {
      assert AgentOk(k, s.board, s.agents[a]) && id !in AgentBag(s.agents[a]);
    }
  }

  /** A thread held by a worker waits, if it waits for I/O, on that worker's ring. */
  lemma WaitsHere(s: State, w: nat, id: Id)
    requires BoardOk(s) && w < |s.workers| && id !in s.board.parked && id in s.board.awaiting
    requires forall v | 0 <= v < |s.workers| && v != w :: id !in Bag(s.workers[v])
    ensures s.board.awaiting[id] == Sleep || s.board.awaiting[id].worker == w
  {
    assert WaitOk(s, id);
  }

  lemma ChangedBoard(s: State, t: State, w: nat, id: Id)
    requires BoardOk(s) && Turn(s, t, w) && SameBut(s.board, t.board, id) && s.workers[w].hold == [id]
    requires id in t.board.awaiting ==> WaitOk(t, id)
    requires id in t.board.parked ==>
               id < |t.board.life| && t.board.life[id] == Blocked && id in t.board.saved && id in t.board.awaiting
    requires id in t.board.reading ==> id < |t.board.life| && t.board.life[id] != Free
    ensures BoardOk(t)
  {
    forall j | j in t.board.awaiting ensures WaitOk(t, j) {
      if j != id {
        assert WaitOk(s, j);
      }
    }
  }

  lemma GlobalFrame(k: nat -> int, s: State, t: State, id: Id)
    requires GlobalOk(k, s) && SameBut(s.board, t.board, id) && t.global == s.global && id !in s.global
    ensures GlobalOk(k, t)
  {
    forall j | 0 <= j < |t.global| ensures Runnable(k, t.board, t.global[j]) {
      assert Runnable(k, s.board, s.global[j]) && s.global[j] != id;
    }
  }

  /** A worker's step that changes the slot of the one thread it holds. */
  lemma Changed(k: nat -> int, s: State, t: State, w: nat, id: Id)
    requires Inv(k, s) && Turn(s, t, w) && s.workers[w].hold == [id] && SameBut(s.board, t.board, id)
    requires t.global == s.global && t.agents == s.agents && SleepersOk(t)
    requires id in s.board.awaiting ==> id in t.board.awaiting && t.board.awaiting[id] == s.board.awaiting[id]
    requires Counted(t) && WorkerOk(k, t.board, t.workers[w], w)
    requires id in t.board.awaiting ==> WaitOk(t, id)
    requires id in t.board.parked ==>
               id < |t.board.life| && t.board.life[id] == Blocked && id in t.board.saved && id in t.board.awaiting
    requires id in t.board.reading ==> id < |t.board.life| && t.board.life[id] != Free
    ensures Inv(k, t)
  {
    hide Counted, SleepersOk, SameBut, GlobalOk, WorkersOk, AgentsOk, BoardOk, WaitOk, WorkerOk;
    OnlyHere(s, w, id);
    if id in s.board.awaiting {
      WaitsHere(s, w, id);
    }
    ChangedBoard(s, t, w, id);
    ChangedWorkers(k, s, t, w, id);
    ChangedAgents(k, s, t, id);
    GlobalFrame(k, s, t, id);
  }

  // ── Thread steps ──

  /** The accounting survives a worker's step if what leaves its hands turns up elsewhere, no ticket appears without
      a waiting thread and none survives its thread's wait. */
  lemma CountTurn(s: State, t: State, w: nat)
    requires Counted(s) && Turn(s, t, w) && t.agents == s.agents
    requires multiset(t.global) + Bag(t.workers[w]) + multiset(t.board.parked) + multiset(Live(s.board))
             == multiset(s.global) + Bag(s.workers[w]) + multiset(s.board.parked) + multiset(Live(t.board))
    requires Ring(t.workers[w]) + multiset(t.sleepers) + multiset(s.board.awaiting.Keys)
             <= Ring(s.workers[w]) + multiset(s.sleepers) + multiset(t.board.awaiting.Keys)
    ensures Counted(t)
  {
    hide Bag, Ring, Live;
    CountWorker(s, w, t.workers[w]);
    assert Set(s, w, t.workers[w]).workers == t.workers;
    hide WorkerBags, Rings, AgentBags, AgentTimers, Sum;
    Balance(multiset(s.global), Sum(WorkerBags(s.workers)), Sum(AgentBags(s.agents)), multiset(s.board.parked),
            multiset(Live(s.board)), Bag(s.workers[w]), multiset(t.global), Sum(WorkerBags(t.workers)),
            multiset(t.board.parked), multiset(Live(t.board)), Bag(t.workers[w]));
    BalanceBelow(Sum(Rings(s.workers)), multiset(s.sleepers), Sum(AgentTimers(s.agents)),
      multiset(s.board.awaiting.Keys),
                 Ring(s.workers[w]), Sum(Rings(t.workers)), multiset(t.sleepers), multiset(t.board.awaiting.Keys),
                 Ring(t.workers[w]));
  }

  /** The worker's own conditions after its thread moved on to `stage` and the board changed at that thread. */
  lemma OwnFrame(k: nat -> int, b: Board, c: Board, id: Id, wk: Worker, stage: Stage, flight: seq<Sqe>, w: nat)
    requires WorkerOk(k, b, wk, w) && SameBut(b, c, id) && wk.hold == [id] && Bag(wk)[id] == 1
    requires wk.stage != Waking && !Empty(stage) && stage !in {Waking, Grab, Carry}
    requires id in b.awaiting ==> id in c.awaiting && c.awaiting[id] == b.awaiting[id]
    requires HeldOk(k, c, stage, [id], w) && |flight| >= |wk.flight|
    requires forall j | 0 <= j < |flight| ::
               flight[j] in wk.flight || (flight[j].slot in c.awaiting &&
                 c.awaiting[flight[j].slot] == Io(flight[j].num, w))
    ensures WorkerOk(k, c, wk.(stage := stage, flight := flight), w)
  {
    var wk' := wk.(stage := stage, flight := flight);
    assert id !in wk.local;
    LocalFrame(k, b, c, id, wk);
    assert LocalOk(k, c, wk') by { hide Runnable; }
    assert RingOk(k, c, wk', w);
  }

  lemma LiveKept(b: Board, c: Board, id: Id)
    requires SameBut(b, c, id) && id in Live(b) && c.life[id] != Free
    ensures Live(c) == Live(b)
  {}

  lemma SleepersKept(s: State, t: State)
    requires SleepersOk(s) && t.sleepers == s.sleepers && t.board.awaiting == s.board.awaiting
    ensures SleepersOk(t)
  {}

  lemma WaitKept(s: State, t: State, w: nat, id: Id)
    requires BoardOk(s) && Turn(s, t, w) && SameBut(s.board, t.board, id) && s.workers[w].hold == [id] &&
      id !in s.board.parked
    requires t.board.awaiting == s.board.awaiting && t.board.parked == s.board.parked
    requires id in t.board.awaiting ==> Parking(t.workers[w], id) && t.board.reading == s.board.reading
    requires id in t.board.awaiting ==> id < |t.board.life| && t.board.life[id] in {Running, Blocked}
    ensures id in t.board.awaiting ==> WaitOk(t, id)
  {
    assert id in s.board.awaiting ==> WaitOk(s, id);
  }

  ghost predicate InThread(stage: Stage) {
    stage in {Got, Loading, Exec, Queued, Marked, Back, Requeue, Reap}
  }

  /** Steps that change the current thread's slot but neither who waits nor who is where. */
  lemma Marks(k: nat -> int, s: State, c: Board, w: nat, id: Id, stage: Stage)
    requires Inv(k, s) && w < |s.workers| && s.workers[w].hold == [id] && InThread(s.workers[w].stage) &&
      InThread(stage)
    requires SameBut(s.board, c, id) && id < |s.board.life|
    requires c.awaiting == s.board.awaiting && c.parked == s.board.parked && c.life[id] != Free
    requires HeldOk(k, c, stage, [id], w)
    requires id in c.awaiting ==> c.life[id] in {Running, Blocked} && stage in {Queued, Marked, Back}
    requires id in c.awaiting ==> c.reading == s.board.reading
    ensures Inv(k, Set(s, w, s.workers[w].(stage := stage)).(board := c))
  {
    hide Counted, BoardOk, GlobalOk, SleepersOk, AgentsOk;
    var wk := s.workers[w];
    var t := Set(s, w, wk.(stage := stage)).(board := c);
    assert WorkerOk(k, s.board, wk, w);
    hide WorkersOk, WorkerOk, HeldOk, Live;
    OnlyHere(s, w, id);
    hide Bag;
    OwnFrame(k, s.board, c, id, wk, stage, wk.flight, w);
    LiveKept(s.board, c, id);
    CountTurn(s, t, w);
    SleepersKept(s, t);
    WaitKept(s, t, w, id);
    hide WaitOk;
    Changed(k, s, t, w, id);
  }

  lemma ResumeSteps(k: nat -> int, s: State, w: nat, st: ThreadStep)
    requires Inv(k, s) && ThreadEnabled(s, w, st)
    requires st in {MarkRunning, SwitchIn, ReadResult}
    ensures Inv(k, ThreadApply(s, w, st))
  {
    hide Counted, GlobalOk, SleepersOk, AgentsOk, RingOk, LocalOk;
    var id := Cur(s, w);
    var wk := s.workers[w];
    var t := ThreadApply(s, w, st);
    assert WorkerOk(k, s.board, wk, w);
    hide WorkersOk, BoardOk;
    Marks(k, s, t.board, w, id, t.workers[w].stage);
    assert t == Set(s, w, wk.(stage := t.workers[w].stage)).(board := t.board);
  }

  lemma LeaveSteps(k: nat -> int, s: State, w: nat, st: ThreadStep)
    requires Inv(k, s) && ThreadEnabled(s, w, st)
    requires st in {YieldMark, FinishMark}
    ensures Inv(k, ThreadApply(s, w, st))
  {
    hide Counted, GlobalOk, SleepersOk, AgentsOk, RingOk, LocalOk;
    var id := Cur(s, w);
    var wk := s.workers[w];
    var t := ThreadApply(s, w, st);
    assert WorkerOk(k, s.board, wk, w);
    hide WorkersOk, BoardOk;
    Marks(k, s, t.board, w, id, t.workers[w].stage);
    assert t == Set(s, w, wk.(stage := t.workers[w].stage)).(board := t.board);
  }

  lemma SwitchSteps(k: nat -> int, s: State, w: nat, st: ThreadStep)
    requires Inv(k, s) && ThreadEnabled(s, w, st)
    requires st in {BlockMark, SwitchOut}
    ensures Inv(k, ThreadApply(s, w, st))
  {
    hide Counted, GlobalOk, SleepersOk, AgentsOk, RingOk, LocalOk;
    var id := Cur(s, w);
    var wk := s.workers[w];
    var t := ThreadApply(s, w, st);
    assert WorkerOk(k, s.board, wk, w);
    hide WorkersOk, BoardOk;
    Marks(k, s, t.board, w, id, t.workers[w].stage);
    assert t == Set(s, w, wk.(stage := t.workers[w].stage)).(board := t.board);
  }

  lemma InspectStep(k: nat -> int, s: State, w: nat)
    requires ThreadEnabled(s, w, Inspect) && s.board.life[Cur(s, w)] != Blocked && Inv(k, s)
    ensures Inv(k, ThreadApply(s, w, Inspect))
  {
    hide Counted, GlobalOk, SleepersOk, AgentsOk, RingOk, LocalOk;
    var id := Cur(s, w);
    var wk := s.workers[w];
    var t := ThreadApply(s, w, Inspect);
    assert WorkerOk(k, s.board, wk, w);
    hide WorkersOk, BoardOk;
    Marks(k, s, t.board, w, id, t.workers[w].stage);
    assert t == Set(s, w, wk.(stage := t.workers[w].stage)).(board := t.board);
  }

  lemma AskedMore(wk: Worker, wk': Worker, q: Sqe)
    requires wk'.flight == wk.flight + [q] && wk'.cq == wk.cq && wk'.todo == wk.todo
    ensures Ring(wk') == Ring(wk) + multiset{q.slot}
  {
    assert Asked(wk.flight + [q]) == Asked(wk.flight) + [q.slot];
  }

  lemma RingSame(wk: Worker, wk': Worker)
    requires wk'.flight == wk.flight && wk'.cq == wk.cq && wk'.todo == wk.todo
    ensures Ring(wk') == Ring(wk)
  {}

  /** A running thread starts to wait: its worker goes on to store Blocked, with at most one ticket more. */
  lemma StartsWaiting(k: nat -> int, s: State, t: State, w: nat, id: Id)
    requires Inv(k, s) && Turn(s, t, w) && s.workers[w].stage == Exec && s.workers[w].hold == [id]
    requires t.workers[w] == s.workers[w].(stage := Queued, flight := t.workers[w].flight)
    requires |t.workers[w].flight| >= |s.workers[w].flight|
    requires SameBut(s.board, t.board, id) && t.board.life == s.board.life && t.board.saved == s.board.saved
    requires t.board.parked == s.board.parked && t.global == s.global && t.agents == s.agents
    requires id !in s.board.awaiting && t.board.awaiting.Keys == s.board.awaiting.Keys + {id}
    requires WaitsOn(t.board, id, w) && WaitOk(t, id) && SleepersOk(t)
    requires forall j | 0 <= j < |t.workers[w].flight| ::
               t.workers[w].flight[j] in s.workers[w].flight || t.workers[w].flight[j] == Sqe(id, s.next)
    requires t.workers[w].flight == s.workers[w].flight || t.board.awaiting[id] == Io(s.next, w)
    requires Ring(t.workers[w]) + multiset(t.sleepers) <= Ring(s.workers[w]) + multiset(s.sleepers) + multiset{id}
    ensures Inv(k, t)
  {
    hide Counted, GlobalOk, AgentsOk, BoardOk, SleepersOk, SameBut, WaitOk;
    var wk := s.workers[w];
    assert WorkerOk(k, s.board, wk, w);
    hide WorkersOk, RingOk, LocalOk;
    OnlyHere(s, w, id);
    LiveKept(s.board, t.board, id);
    hide Live;
    assert multiset(t.board.awaiting.Keys) == multiset(s.board.awaiting.Keys) + multiset{id};
    CountTurn(s, t, w);
    hide Bag, Ring;
    OwnFrame(k, s.board, t.board, id, wk, Queued, t.workers[w].flight, w);
    hide WorkerOk;
    Changed(k, s, t, w, id);
  }


  lemma SubmitAccepted(k: nat -> int, s: State, w: nat)
    requires Inv(k, s) && ThreadEnabled(s, w, SubmitIo(true))
    ensures Inv(k, ThreadApply(s, w, SubmitIo(true)))
  {
    hide Counted, GlobalOk, AgentsOk, SleepersOk;
    var id := Cur(s, w);
    var wk := s.workers[w];
    var t := ThreadApply(s, w, SubmitIo(true));
    assert WorkerOk(k, s.board, wk, w);
    hide WorkersOk, RingOk, LocalOk, BoardOk, Ring;
    AskedMore(wk, t.workers[w], Sqe(id, s.next));
    SleepersMore(s, t, id);
    assert SameBut(s.board, t.board, id);
    StartsWaiting(k, s, t, w, id) by { hide SameBut; }
  }

  lemma SubmitRejected(k: nat -> int, s: State, w: nat)
    requires Inv(k, s) && ThreadEnabled(s, w, SubmitIo(false))
    ensures Inv(k, ThreadApply(s, w, SubmitIo(false)))
  {
    hide Counted, GlobalOk, AgentsOk, SleepersOk;
    var id := Cur(s, w);
    var wk := s.workers[w];
    var t := ThreadApply(s, w, SubmitIo(false));
    assert WorkerOk(k, s.board, wk, w);
    hide WorkersOk, RingOk, LocalOk, BoardOk, Ring;
    RingSame(wk, t.workers[w]);
    SleepersMore(s, t, id);
    assert SameBut(s.board, t.board, id);
    StartsWaiting(k, s, t, w, id) by { hide SameBut; }
  }

  lemma SleepersMore(s: State, t: State, id: Id)
    requires SleepersOk(s) && id !in s.board.awaiting && t.sleepers == s.sleepers
    requires id in t.board.awaiting && t.board.awaiting == s.board.awaiting[id := t.board.awaiting[id]]
    ensures SleepersOk(t)
  {}

  lemma SleepStep(k: nat -> int, s: State, w: nat)
    requires Inv(k, s) && ThreadEnabled(s, w, SleepFor)
    ensures Inv(k, ThreadApply(s, w, SleepFor))
  {
    hide Counted, GlobalOk, AgentsOk;
    var id := Cur(s, w);
    var wk := s.workers[w];
    var t := ThreadApply(s, w, SleepFor);
    assert WorkerOk(k, s.board, wk, w);
    hide WorkersOk, RingOk, LocalOk;
    assert SleepersOk(t) && WaitOk(t, id);
    hide SleepersOk, WaitOk, BoardOk;
    assert SameBut(s.board, t.board, id);
    StartsWaiting(k, s, t, w, id) by { hide SameBut; }
  }

  lemma ParkBoard(b: Board, c: Board, id: Id)
    requires id !in b.parked && c == b.(parked := b.parked + {id})
    ensures SameBut(b, c, id) && Live(c) == Live(b) && multiset(c.parked) == multiset(b.parked) + multiset{id}
  {}

  lemma ParkOwn(k: nat -> int, b: Board, c: Board, id: Id, wk: Worker, w: nat)
    requires WorkerOk(k, b, wk, w) && c == b.(parked := b.parked + {id}) && wk.stage == Back
    ensures WorkerOk(k, c, wk.(stage := Top, hold := []), w)
  {
    assert forall j | 0 <= j < |wk.local| :: Runnable(k, b, wk.local[j]) ==> Runnable(k, c, wk.local[j]);
  }

  lemma ParkWait(s: State, t: State, id: Id)
    requires BoardOk(s) && id in s.board.awaiting && s.board.life == t.board.life && |t.workers| == |s.workers|
    requires t.board == s.board.(parked := s.board.parked + {id})
    ensures WaitOk(t, id)
  {
    assert WaitOk(s, id);
  }

  /** The worker lets go of a blocked thread. */
  lemma ParkStep(k: nat -> int, s: State, w: nat)
    requires ThreadEnabled(s, w, Inspect) && s.board.life[Cur(s, w)] == Blocked && Inv(k, s)
    ensures Inv(k, ThreadApply(s, w, Inspect))
  {
    hide Counted, GlobalOk, AgentsOk, SleepersOk, BoardOk;
    var id := Cur(s, w);
    var wk := s.workers[w];
    var t := ThreadApply(s, w, Inspect);
    assert WorkerOk(k, s.board, wk, w);
    hide WorkersOk, RingOk, LocalOk;
    OnlyHere(s, w, id);
    hide Live, WaitOk, SameBut;
    ParkBoard(s.board, t.board, id);
    ParkOwn(k, s.board, t.board, id, wk, w);
    ParkWait(s, t, id);
    SleepersKept(s, t);
    assert Bag(wk) == Bag(t.workers[w]) + multiset{id} && Ring(t.workers[w]) == Ring(wk);
    hide Bag, Ring;
    CountTurn(s, t, w);
    assert id in s.board.saved && id in s.board.awaiting;
    hide WorkerOk;
    Changed(k, s, t, w, id);
  }

  lemma FreeBoard(b: Board, c: Board, id: Id)
    requires id in Live(b) && c == SetLife(b, id, Free).(saved := b.saved - {id})
    ensures SameBut(b, c, id) && multiset(Live(b)) == multiset(Live(c)) + multiset{id}
  {
    assert Live(c) == Live(b) - {id};
  }

  lemma FreeOwn(k: nat -> int, b: Board, c: Board, id: Id, wk: Worker, w: nat)
    requires WorkerOk(k, b, wk, w) && wk.stage == Reap && wk.hold == [id] && id !in wk.local
    requires SameBut(b, c, id) && c.awaiting == b.awaiting
    ensures WorkerOk(k, c, wk.(stage := Top, hold := []), w)
  {
    LocalFrame(k, b, c, id, wk);
    hide Runnable;
  }

  /** What a worker holds that is about to release a slot. */
  lemma ReaperHolds(k: nat -> int, b: Board, wk: Worker, w: nat)
    requires WorkerOk(k, b, wk, w) && wk.stage == Reap && wk.hold != []
    ensures wk.hold == [wk.hold[0]] && wk.hold[0] !in b.awaiting && wk.hold[0] !in b.reading && wk.hold[0] in Bag(wk)
  {
    hide LocalOk, RingOk;
  }

  lemma LetsGo(wk: Worker, wk': Worker, id: Id)
    requires wk.hold == [id] && wk' == wk.(stage := Top, hold := [])
    ensures Bag(wk) == Bag(wk') + multiset{id} && Ring(wk') == Ring(wk)
    ensures Bag(wk)[id] == 1 ==> id !in wk.local
  {
  }

  /** A slot goes back to the allocator. */
  lemma ReleaseStep(k: nat -> int, s: State, w: nat)
    requires Inv(k, s) && ThreadEnabled(s, w, Release)
    ensures Inv(k, ThreadApply(s, w, Release))
  {
    hide Counted, GlobalOk, AgentsOk, SleepersOk, BoardOk, WorkerOk, SameBut, Live, Bag, Ring;
    var id, wk, t := Cur(s, w), s.workers[w], ThreadApply(s, w, Release);
    assert WorkerOk(k, s.board, wk, w);
    hide WorkersOk;
    ReaperHolds(k, s.board, wk, w);
    OnlyHere(s, w, id);
    FreeBoard(s.board, t.board, id);
    SleepersKept(s, t);
    LetsGo(wk, t.workers[w], id);
    FreeOwn(k, s.board, t.board, id, wk, w);
    CountTurn(s, t, w);
    Changed(k, s, t, w, id);
  }

  // ── Queue steps ──

  lemma Handed(wk: Worker, wk': Worker, g: seq<Id>, id: Id)
    requires wk.hold == [id] && wk'.hold == []
    ensures wk'.local == wk.local + [id] ==> Bag(wk') == Bag(wk)
    ensures wk'.local == wk.local ==> multiset(g + [id]) + Bag(wk') == multiset(g) + Bag(wk)
  {}

  /** A worker hands its thread to the local or the global queue. */
  lemma PushStep(k: nat -> int, s: State, w: nat, wk: Worker, t: State)
    requires Inv(k, s) && w < |s.workers| && s.workers[w].stage in {Waking, Requeue}
    requires wk == s.workers[w].(stage := wk.stage, hold := []) && wk.stage in {Drain, Top}
    requires wk.stage == Top ==> wk.todo == []
    requires s.workers[w].hold != [] &&
             (t == PushLocal(s, w, Cur(s, w), wk) || t == Set(s, w, wk).(global := s.global + [Cur(s, w)]))
    ensures Inv(k, t)
  {
    hide Counted, BoardOk, AgentsOk, SleepersOk, Bag, Ring, WorkerOk;
    var id := Cur(s, w);
    assert WorkerOk(k, s.board, s.workers[w], w);
    hide WorkersOk, Runnable;
    PutsDown(k, s.board, s.workers[w], w, wk.stage);
    Handed(s.workers[w], t.workers[w], s.global, id);
    RingSame(s.workers[w], t.workers[w]);
    assert GlobalOk(k, t);
    hide GlobalOk;
    Moved(k, s, t, w);
  }

  /** A worker hands on the thread it woke or has to requeue. */
  lemma PutsDown(k: nat -> int, b: Board, wk: Worker, w: nat, stage: Stage)
    requires WorkerOk(k, b, wk, w) && wk.stage in {Waking, Requeue} && wk.hold != [] && stage in {Drain, Top}
    requires stage == Top ==> wk.todo == []
    ensures wk.hold == [wk.hold[0]] && Runnable(k, b, wk.hold[0])
    ensures WorkerOk(k, b, wk.(stage := stage, hold := []), w)
    ensures |wk.local| < LOCAL_CAPACITY ==>
      WorkerOk(k, b, wk.(stage := stage, hold := [], local := wk.local + [wk.hold[0]]), w)
  {
    hide CqeOk, Settled;
  }

  lemma TookFront(wk: Worker, wk': Worker, g: seq<Id>)
    requires wk.hold == [] && wk'.local == wk.local && g != [] && wk'.hold == [g[0]]
    ensures multiset(g[1..]) + Bag(wk') == multiset(g) + Bag(wk)
  {
    assert g == [g[0]] + g[1..];
  }

  lemma TookLocal(wk: Worker, wk': Worker)
    requires wk.hold == [] && wk.local != [] && wk'.hold == [wk.local[0]] && wk'.local == wk.local[1..]
    ensures Bag(wk') == Bag(wk)
  {
    assert wk.local == [wk.local[0]] + wk.local[1..];
  }

  lemma TookBatch(wk: Worker, wk': Worker, g: seq<Id>, n: nat)
    requires |wk.hold| == 1 && n <= |g| && wk'.hold == wk.hold + g[..n] && wk'.local == wk.local
    ensures multiset(g[n..]) + Bag(wk') == multiset(g) + Bag(wk)
  {
    assert g == g[..n] + g[n..];
  }

  lemma PutOne(wk: Worker, wk': Worker, g: seq<Id>)
    requires |wk.hold| > 1 && wk'.hold == [wk.hold[0]] + wk.hold[2..]
    ensures wk'.local == wk.local + [wk.hold[1]] ==> Bag(wk') == Bag(wk)
    ensures wk'.local == wk.local ==> multiset(g + [wk.hold[1]]) + Bag(wk') == multiset(g) + Bag(wk)
  {
    assert wk.hold == [wk.hold[0]] + [wk.hold[1]] + wk.hold[2..];
  }

  lemma SameBag(wk: Worker, wk': Worker)
    requires wk'.hold == wk.hold && wk'.local == wk.local
    ensures Bag(wk') == Bag(wk)
  {}

  /** Steps that only change where the worker is in its code and its own counts. */
  lemma StageStep(k: nat -> int, s: State, w: nat, wk: Worker)
    requires Inv(k, s) && w < |s.workers| && s.workers[w].stage !in {Queued, Marked, Back}
    requires wk == s.workers[w].(stage := wk.stage, own := wk.own)
    requires WorkerOk(k, s.board, s.workers[w], w) ==> WorkerOk(k, s.board, wk, w)
    ensures Inv(k, Set(s, w, wk))
  {
    hide Counted, BoardOk, AgentsOk, SleepersOk, Bag, Ring, WorkerOk, GlobalOk;
    var t := Set(s, w, wk);
    SameBag(s.workers[w], t.workers[w]);
    RingSame(s.workers[w], t.workers[w]);
    assert GlobalOk(k, t) by { GlobalSame(k, s, t); }
    Moved(k, s, t, w);
  }

  lemma GlobalSame(k: nat -> int, s: State, t: State)
    requires GlobalOk(k, s) && t.board == s.board
    requires forall j | 0 <= j < |t.global| :: t.global[j] in s.global || Runnable(k, s.board, t.global[j])
    ensures GlobalOk(k, t)
  {}

  lemma PopStages(k: nat -> int, s: State, w: nat, st: PopStep)
    requires Inv(k, s) && PopEnabled(s, w, st)
    requires st in {SkipCheck, TakeDone, Miss} || st.NoWork? || (st == PopLocal && s.workers[w].local == []) ||
             (st == PopGlobal && s.global == [])
    ensures Inv(k, PopApply(s, w, st))
  {
    hide Counted, BoardOk, GlobalOk, AgentsOk, SleepersOk, WorkersOk, Runnable;
    StageStep(k, s, w, PopApply(s, w, st).workers[w]);
  }

  /** A worker with empty hands picks up runnable ids. */
  lemma PicksUp(k: nat -> int, b: Board, wk: Worker, w: nat, ids: seq<Id>, stage: Stage, own: Own)
    requires WorkerOk(k, b, wk, w) && wk.hold == [] && ids != [] && forall j | 0 <= j < |ids| :: Runnable(k, b, ids[j])
    requires stage in {Got, Haul} || (stage == Grab && wk.stage == LookGlobal)
    requires |ids| > 1 ==> stage == Haul
    requires wk.stage in {LookFirst, LookLocal, LookGlobal, LookSteal}
    requires own.counter < TWO64 && own.sent == wk.own.sent
    ensures WorkerOk(k, b, wk.(stage := stage, hold := ids, own := own), w)
  {
    hide CqeOk;
    assert Runnable(k, b, ids[0]);
  }

  /** Taking the front of the global queue, on the periodic check or after a local miss. */
  lemma TakeGlobal(k: nat -> int, s: State, w: nat, st: PopStep)
    requires Inv(k, s) && PopEnabled(s, w, st) && st in {CheckGlobal, PopGlobal} && s.global != []
    ensures Inv(k, PopApply(s, w, st))
  {
    hide Counted, BoardOk, AgentsOk, SleepersOk, Bag, Ring, WorkerOk;
    var wk, id, t := s.workers[w], s.global[0], PopApply(s, w, st);
    assert WorkerOk(k, s.board, wk, w);
    EmptyHands(k, s.board, wk, w);
    PicksUp(k, s.board, wk, w, [id], t.workers[w].stage, t.workers[w].own);
    hide WorkersOk, Runnable;
    TookFront(wk, t.workers[w], s.global);
    RingSame(wk, t.workers[w]);
    GlobalSame(k, s, t);
    hide GlobalOk;
    Moved(k, s, t, w);
  }

  lemma EmptyHands(k: nat -> int, b: Board, wk: Worker, w: nat)
    requires WorkerOk(k, b, wk, w) && Empty(wk.stage)
    ensures wk.hold == [] && OwnOk(wk)
  {
    hide LocalOk, RingOk, HeldOk;
  }

  lemma TakeLocal(k: nat -> int, s: State, w: nat)
    requires Inv(k, s) && PopEnabled(s, w, PopLocal) && s.workers[w].local != []
    ensures Inv(k, PopApply(s, w, PopLocal))
  {
    hide Counted, BoardOk, AgentsOk, SleepersOk, Bag, Ring, GlobalOk;
    var t := PopApply(s, w, PopLocal);
    assert WorkerOk(k, s.board, s.workers[w], w) && s.workers[w].local[0] < |s.board.life|;
    hide WorkersOk, Runnable;
    TookLocal(s.workers[w], t.workers[w]);
    RingSame(s.workers[w], t.workers[w]);
    GlobalSame(k, s, t);
    assert WorkerOk(k, t.board, t.workers[w], w);
    hide WorkerOk;
    Moved(k, s, t, w);
  }

  lemma TakeBatch(k: nat -> int, s: State, w: nat)
    requires Inv(k, s) && PopEnabled(s, w, GrabBatch)
    ensures Inv(k, PopApply(s, w, GrabBatch))
  {
    hide Counted, BoardOk, AgentsOk, SleepersOk, Runnable, Bag, Ring;
    var t := PopApply(s, w, GrabBatch);
    assert WorkerOk(k, s.board, s.workers[w], w);
    hide WorkersOk;
    TookBatch(s.workers[w], t.workers[w], s.global, Least(|s.global|, BATCH));
    RingSame(s.workers[w], t.workers[w]);
    GlobalSame(k, s, t);
    assert WorkerOk(k, t.board, t.workers[w], w);
    hide WorkerOk, GlobalOk;
    Moved(k, s, t, w);
  }

  /** One id of a batch or a haul is put down; the batch always fits. */
  lemma PutDown(k: nat -> int, s: State, w: nat, st: PopStep)
    requires Inv(k, s) && PopEnabled(s, w, st) && st in {Unload, Unhaul}
    ensures Inv(k, PopApply(s, w, st))
  {
    hide Counted, BoardOk, AgentsOk, SleepersOk, Runnable, Bag, Ring;
    var t := PopApply(s, w, st);
    assert WorkerOk(k, s.board, s.workers[w], w);
    hide WorkersOk;
    PutOne(s.workers[w], t.workers[w], s.global);
    RingSame(s.workers[w], t.workers[w]);
    GlobalSame(k, s, t);
    assert WorkerOk(k, t.board, t.workers[w], w);
    hide WorkerOk, GlobalOk;
    Moved(k, s, t, w);
  }

  lemma Stolen(v: Worker, v': Worker, w: Worker, w': Worker, g: seq<Id>, n: nat)
    requires n <= |v.local| && v'.local == v.local[n..] && v'.hold == v.hold
    requires w.hold == [] && w'.hold == v.local[..n] && w'.local == w.local
    ensures multiset(g + v.local[..n]) + Bag(v') == multiset(g) + Bag(v)
    ensures multiset(g) + Bag(w') == multiset(g + v.local[..n]) + Bag(w)
  {
    assert v.local == v.local[..n] + v.local[n..];
  }

  /** A victim keeps its conditions, and what it loses is runnable. */
  lemma GivesUp(k: nat -> int, b: Board, wk: Worker, w: nat, n: nat)
    requires WorkerOk(k, b, wk, w) && n <= |wk.local|
    ensures WorkerOk(k, b, wk.(local := wk.local[n..]), w) && forall j | 0 <= j < n :: Runnable(k, b, wk.local[..n][j])
  {
    hide HeldOk, CqeOk, Runnable;
  }

  /** Stealing, seen as the victim giving half of its queue away and the thief picking it up. */
  lemma StealStep(k: nat -> int, s: State, w: nat, v: nat)
    requires Inv(k, s) && PopEnabled(s, w, StealHalf(v))
    ensures Inv(k, PopApply(s, w, StealHalf(v)))
  {
    hide Counted, BoardOk, AgentsOk, SleepersOk, Bag, Ring, WorkerOk;
    var n := |s.workers[v].local| / 2;
    var taken := s.workers[v].local[..n];
    var m := Set(s, v, s.workers[v].(local := s.workers[v].local[n..])).(global := s.global + taken);
    var t := Set(m, w, Drawn(s, w).(stage := Haul, hold := taken)).(global := s.global);
    assert WorkerOk(k, s.board, s.workers[v], v) && WorkerOk(k, s.board, s.workers[w], w);
    EmptyHands(k, s.board, s.workers[w], w);
    GivesUp(k, s.board, s.workers[v], v, n);
    PicksUp(k, s.board, s.workers[w], w, taken, Haul, Drawn(s, w).own);
    hide WorkersOk, Runnable;
    Stolen(s.workers[v], m.workers[v], s.workers[w], t.workers[w], s.global, n);
    RingSame(s.workers[v], m.workers[v]);
    RingSame(s.workers[w], t.workers[w]);
    GlobalSame(k, s, m);
    GlobalSame(k, s, t);
    assert t == PopApply(s, w, StealHalf(v));
    hide PopApply, PopEnabled, GlobalOk;
    Moved(k, s, m, v);
    Moved(k, m, t, w);
  }

  // ── Ring steps ──

  lemma PolledRing(wk: Worker, wk': Worker, n: nat)
    requires n <= |wk.cq| && wk.todo == [] && wk'.flight == wk.flight
    requires wk'.todo == wk.cq[..n] && wk'.cq == wk.cq[Least(|wk.cq|, n + 1)..]
    ensures Ring(wk') <= Ring(wk)
  {
    var m := Least(|wk.cq|, n + 1);
    var a, b, c := Slots(wk.cq[..n]), Slots(wk.cq[n..m]), Slots(wk.cq[m..]);
    assert Slots(wk.cq) == a + b + c;
    assert multiset(Slots(wk.cq)) == multiset(a) + multiset(b) + multiset(c);
  }

  lemma PollStep(k: nat -> int, s: State, w: nat, st: LoopStep)
    requires Inv(k, s) && LoopEnabled(s, w, st) && (st.PollRing? || st.WaitRing?)
    ensures Inv(k, LoopApply(s, w, st))
  {
    hide Counted, BoardOk, AgentsOk, SleepersOk, Bag, Ring, GlobalOk;
    var t := LoopApply(s, w, st);
    assert WorkerOk(k, s.board, s.workers[w], w);
    hide WorkersOk, Runnable;
    PolledRing(s.workers[w], t.workers[w], Least(|s.workers[w].cq|, POLL_LIMIT));
    SameBag(s.workers[w], t.workers[w]);
    GlobalSame(k, s, t);
    assert WorkerOk(k, t.board, t.workers[w], w);
    hide WorkerOk;
    Moved(k, s, t, w);
  }

  lemma Completed(wk: Worker, wk': Worker, i: nat, c: Cqe)
    requires i < |wk.flight| && wk'.flight == wk.flight[..i] + wk.flight[i + 1..] && wk'.todo == wk.todo
    requires c.slot == wk.flight[i].slot && wk'.cq == wk.cq + [c]
    ensures Ring(wk') == Ring(wk)
  {
    var a, b := Asked(wk.flight[..i]), Asked(wk.flight[i + 1..]);
    assert Asked(wk.flight) == a + [c.slot] + b;
    assert Asked(wk'.flight) == a + b;
    assert Slots(wk'.cq) == Slots(wk.cq) + [c.slot];
  }

  lemma CompleteStep(k: nat -> int, s: State, w: nat, i: nat)
    requires Inv(k, s) && OutsideEnabled(s, Complete(w, i))
    ensures Inv(k, OutsideApply(k, s, Complete(w, i)))
  {
    hide Counted, BoardOk, AgentsOk, SleepersOk, Bag, Ring, GlobalOk, HandsOk, LocalOk;
    var wk := s.workers[w];
    var t := OutsideApply(k, s, Complete(w, i));
    var q := wk.flight[i];
    assert WorkerOk(k, s.board, wk, w);
    hide WorkersOk;
    Completed(wk, t.workers[w], i, Cqe(q.slot, q.num, k(q.num)));
    SameBag(wk, t.workers[w]);
    GlobalSame(k, s, t);
    assert HandsOk(k, t.board, t.workers[w], w) by { HandsSame(k, s.board, wk, t.workers[w], w); }
    assert LocalOk(k, t.board, t.workers[w]) by { LocalSame(k, s.board, wk, t.workers[w]); }
    assert RingOk(k, t.board, t.workers[w], w);
    assert WorkerOk(k, t.board, t.workers[w], w);
    hide WorkerOk, RingOk;
    Moved(k, s, t, w);
  }

  lemma HandsSame(k: nat -> int, b: Board, wk: Worker, wk': Worker, w: nat)
    requires HandsOk(k, b, wk, w) && wk'.stage == wk.stage && wk'.hold == wk.hold
    ensures HandsOk(k, b, wk', w)
  {}

  lemma LocalSame(k: nat -> int, b: Board, wk: Worker, wk': Worker)
    requires LocalOk(k, b, wk) && wk'.stage == wk.stage && wk'.hold == wk.hold && wk'.local == wk.local
    ensures LocalOk(k, b, wk')
  {}

  /** The thread named by a completion under way on worker w is parked, and waits for exactly that request. */
  lemma TargetParked(k: nat -> int, s: State, w: nat)
    requires Inv(k, s) && w < |s.workers| && s.workers[w].stage in {Drain, Stored} && s.workers[w].todo != []
    ensures var c := s.workers[w].todo[0];
            && c.slot in s.board.parked && c.slot < |s.board.life| == |s.board.results| &&
              s.board.life[c.slot] == Blocked
            && c.slot in s.board.saved && c.slot in s.board.awaiting && s.board.awaiting[c.slot] == Io(c.num, w)
            && c.slot in s.board.reading && s.board.reading[c.slot] == c.num && c.value == k(c.num)
  {
    hide Counted, GlobalOk, AgentsOk, SleepersOk, LocalOk;
    assert WorkerOk(k, s.board, s.workers[w], w);
    hide WorkersOk;
    var c := s.workers[w].todo[0];
    assert WaitOk(s, c.slot);
    assert s.workers[w].hold == [];
  }

  /** A request has one ticket at most. */
  lemma OneTicket(s: State, w: nat, id: Id)
    requires Counted(s) && w < |s.workers|
    ensures Ring(s.workers[w])[id] <= 1
  {
    SumUpdate(Rings(s.workers), w, multiset{});
    assert Rings(s.workers)[w] == Ring(s.workers[w]);
    assert Tickets(s)[id] <= 1;
  }

  lemma ParkedBoard(s: State, t: State, w: nat, id: Id)
    requires BoardOk(s) && Turn(s, t, w) && SameBut(s.board, t.board, id) && s.workers[w].stage in {Drain, Stored}
    requires id in t.board.awaiting ==> WaitOk(t, id)
    requires id in t.board.parked ==>
               id < |t.board.life| && t.board.life[id] == Blocked && id in t.board.saved && id in t.board.awaiting
    requires id in t.board.reading ==> id < |t.board.life| && t.board.life[id] != Free
    ensures BoardOk(t)
  {
    forall j | j in t.board.awaiting ensures WaitOk(t, j) {
      if j != id {
        assert WaitOk(s, j);
      }
    }
  }

  /** A worker's step that changes the slot of a thread parked for I/O on its ring. */
  lemma ChangedParked(k: nat -> int, s: State, t: State, w: nat, id: Id)
    requires Inv(k, s) && Turn(s, t, w) && s.workers[w].stage in {Drain, Stored} && SameBut(s.board, t.board, id)
    requires id in s.board.parked && id in s.board.awaiting && s.board.awaiting[id].Io? &&
      s.board.awaiting[id].worker == w
    requires t.global == s.global && t.agents == s.agents && t.sleepers == s.sleepers
    requires Counted(t) && WorkerOk(k, t.board, t.workers[w], w)
    requires id in t.board.awaiting ==> WaitOk(t, id)
    requires id in t.board.parked ==>
               id < |t.board.life| && t.board.life[id] == Blocked && id in t.board.saved && id in t.board.awaiting
    requires id in t.board.reading ==> id < |t.board.life| && t.board.life[id] != Free
    ensures Inv(k, t)
  {
    assert SleepersOk(t) by { SleepersFrame(s, t, id); }
    hide Counted, SleepersOk, SameBut, GlobalOk, WorkersOk, AgentsOk, BoardOk, WaitOk, WorkerOk;
    Nowhere(s, id);
    ParkedBoard(s, t, w, id);
    ChangedWorkers(k, s, t, w, id);
    ChangedAgents(k, s, t, id);
    GlobalFrame(k, s, t, id);
  }

  lemma SleepersFrame(s: State, t: State, id: Id)
    requires SleepersOk(s) && t.sleepers == s.sleepers && SameBut(s.board, t.board, id)
    requires id in s.board.awaiting ==> s.board.awaiting[id].Io?
    ensures SleepersOk(t)
  {
    forall j | 0 <= j < |t.sleepers| ensures t.sleepers[j] in t.board.awaiting &&
      t.board.awaiting[t.sleepers[j]] == Sleep {
      assert s.sleepers[j] != id;
    }
  }

  lemma StoreOwn(k: nat -> int, b: Board, c: Board, wk: Worker, w: nat)
    requires WorkerOk(k, b, wk, w) && wk.stage == Drain && wk.todo != []
    requires wk.todo[0].slot < |b.results| && c == b.(results := b.results[wk.todo[0].slot := wk.todo[0].value])
    ensures WorkerOk(k, c, wk.(stage := Stored), w) && SameBut(b, c, wk.todo[0].slot)
  {
    var id := wk.todo[0].slot;
    forall j | 0 <= j < |wk.local| ensures Runnable(k, c, wk.local[j]) {
      assert Runnable(k, b, wk.local[j]);
      assert wk.local[j] != id;
    }
  }

  lemma StoreStep(k: nat -> int, s: State, w: nat)
    requires Inv(k, s) && LoopEnabled(s, w, StoreResult)
    ensures Inv(k, LoopApply(s, w, StoreResult))
  {
    TargetParked(k, s, w);
    hide Counted, BoardOk, AgentsOk, SleepersOk, GlobalOk;
    var id := s.workers[w].todo[0].slot;
    var t := LoopApply(s, w, StoreResult);
    assert WorkerOk(k, s.board, s.workers[w], w);
    hide WorkersOk, WorkerOk, Bag, Ring, Live, SameBut;
    StoreOwn(k, s.board, t.board, s.workers[w], w);
    assert WaitOk(t, id);
    hide WaitOk;
    LiveSame(s.board, t.board);
    SameBag(s.workers[w], t.workers[w]);
    RingSame(s.workers[w], t.workers[w]);
    CountTurn(s, t, w);
    ChangedParked(k, s, t, w, id);
  }

  lemma LiveSame(b: Board, c: Board)
    requires c.life == b.life
    ensures Live(c) == Live(b)
  {}

  lemma WokenRing(wk: Worker, wk': Worker, id: Id)
    requires wk.todo != [] && wk.todo[0].slot == id && Ring(wk)[id] <= 1
    requires wk'.flight == wk.flight && wk'.cq == wk.cq && wk'.todo == wk.todo[1..]
    ensures Ring(wk) == Ring(wk') + multiset{id}
    ensures forall j | 0 <= j < |wk'.flight| :: wk'.flight[j].slot != id
    ensures forall j | 0 <= j < |wk'.cq| :: wk'.cq[j].slot != id
    ensures forall j | 0 <= j < |wk'.todo| :: wk'.todo[j].slot != id
  {
    assert Slots(wk.todo) == [id] + Slots(wk.todo[1..]);
    assert Ring(wk')[id] == 0;
    forall j | 0 <= j < |wk'.flight| ensures wk'.flight[j].slot != id {
      assert Asked(wk'.flight)[j] in multiset(Asked(wk'.flight));
    }
    forall j | 0 <= j < |wk'.cq| ensures wk'.cq[j].slot != id {
      assert Slots(wk'.cq)[j] in multiset(Slots(wk'.cq));
    }
    forall j | 0 <= j < |wk'.todo| ensures wk'.todo[j].slot != id {
      assert Slots(wk'.todo)[j] in multiset(Slots(wk'.todo));
    }
  }

  lemma WokenOwn(k: nat -> int, b: Board, wk: Worker, wk': Worker, w: nat, id: Id)
    requires WorkerOk(k, b, wk, w) && wk.stage == Stored && wk.todo[0].slot == id && Ring(wk)[id] <= 1
    requires id < |b.life| == |b.results| && id in b.awaiting && id in b.saved
    requires id in b.reading && b.reading[id] == wk.todo[0].num
    requires wk' == wk.(stage := Waking, hold := [id], todo := wk.todo[1..])
    ensures WorkerOk(k, Woken(b, id), wk', w) && SameBut(b, Woken(b, id), id)
  {
    hide Ring;
    WokenRing(wk, wk', id);
    var c := Woken(b, id);
    forall j | 0 <= j < |wk.local| ensures Runnable(k, c, wk.local[j]) {
      assert Runnable(k, b, wk.local[j]);
      assert wk.local[j] != id;
    }
    assert Runnable(k, c, id);
    assert RingOk(k, c, wk', w);
  }

  /** A completion wakes its thread. */
  lemma WakeStep(k: nat -> int, s: State, w: nat)
    requires Inv(k, s) && LoopEnabled(s, w, WakeLook)
    ensures Inv(k, LoopApply(s, w, WakeLook))
  {
    hide Counted, BoardOk, AgentsOk, SleepersOk, GlobalOk, WorkerOk, Ring, Bag, SameBut, WaitOk, Live;
    var wk := s.workers[w];
    var id := wk.todo[0].slot;
    var t := LoopApply(s, w, WakeLook);
    assert WorkerOk(k, s.board, wk, w);
    hide WorkersOk;
    TargetParked(k, s, w);
    EmptyHands(k, s.board, wk, w);
    OneTicket(s, w, id);
    WokenRing(wk, t.workers[w], id);
    WokenOwn(k, s.board, wk, t.workers[w], w, id);
    Nowhere(s, id);
    LiveKept(s.board, t.board, id);
    WokenCount(s.board, id);
    TakesUp(wk, t.workers[w], id);
    CountTurn(s, t, w);
    ChangedParked(k, s, t, w, id);
  }

  lemma TakesUp(wk: Worker, wk': Worker, id: Id)
    requires wk.hold == [] && wk'.hold == [id] && wk'.local == wk.local
    ensures Bag(wk') == Bag(wk) + multiset{id}
  {
  }

  lemma WokenCount(b: Board, id: Id)
    requires id < |b.life| && id in b.parked && id in b.awaiting
    ensures multiset(b.parked) == multiset(Woken(b, id).parked) + multiset{id}
    ensures multiset(b.awaiting.Keys) == multiset(Woken(b, id).awaiting.Keys) + multiset{id}
  {
    assert Woken(b, id).awaiting.Keys == b.awaiting.Keys - {id};
  }

  // ── Agents ──

  /** Only agent a differs. */
  ghost predicate AgentTurn(s: State, t: State, a: nat) {
    a < |s.agents| && t.workers == s.workers && |t.agents| == |s.agents| && t.agents == s.agents[a := t.agents[a]]
  }

  lemma CountAgentTurn(s: State, t: State, a: nat)
    requires Counted(s) && AgentTurn(s, t, a)
    requires multiset(t.global) + AgentBag(t.agents[a]) + multiset(t.board.parked) + multiset(Live(s.board))
             == multiset(s.global) + AgentBag(s.agents[a]) + multiset(s.board.parked) + multiset(Live(t.board))
    requires AgentTimer(t.agents[a]) + multiset(t.sleepers) + multiset(s.board.awaiting.Keys)
             <= AgentTimer(s.agents[a]) + multiset(s.sleepers) + multiset(t.board.awaiting.Keys)
    ensures Counted(t)
  {
    hide AgentBag, AgentTimer, Live;
    CountAgent(s, a, t.agents[a]);
    hide WorkerBags, Rings, AgentBags, AgentTimers, Sum;
    Balance(multiset(s.global), Sum(AgentBags(s.agents)), Sum(WorkerBags(s.workers)), multiset(s.board.parked),
            multiset(Live(s.board)), AgentBag(s.agents[a]), multiset(t.global), Sum(AgentBags(t.agents)),
            multiset(t.board.parked), multiset(Live(t.board)), AgentBag(t.agents[a]));
    BalanceBelow(Sum(AgentTimers(s.agents)), multiset(s.sleepers), Sum(Rings(s.workers)),
      multiset(s.board.awaiting.Keys),
                 AgentTimer(s.agents[a]), Sum(AgentTimers(t.agents)), multiset(t.sleepers),
                   multiset(t.board.awaiting.Keys),
                 AgentTimer(t.agents[a]));
  }

  lemma AgentWorkers(k: nat -> int, s: State, t: State, id: Id)
    requires WorkersOk(k, s) && t.workers == s.workers && SameBut(s.board, t.board, id)
    requires forall v | 0 <= v < |s.workers| :: id !in Bag(s.workers[v])
    requires id in s.board.awaiting ==> s.board.awaiting[id] == Sleep
    ensures WorkersOk(k, t)
  {
    hide WorkerOk, SameBut, Bag;
    forall v | 0 <= v < |t.workers| ensures WorkerOk(k, t.board, t.workers[v], v) {
      WorkerFrame(k, s.board, t.board, id, s.workers[v], v);
    }
  }

  /** The wait conditions only look at slots and at which workers are parking. */
  lemma AgentBoard(s: State, t: State, id: Id)
    requires BoardOk(s) && t.workers == s.workers && SameBut(s.board, t.board, id)
    requires id !in t.board.awaiting && id !in t.board.parked
    requires id in t.board.reading ==> id < |t.board.life| && t.board.life[id] != Free
    ensures BoardOk(t)
  {
    forall j | j in t.board.awaiting ensures WaitOk(t, j) {
      assert WaitOk(s, j);
    }
  }

  lemma AgentAgents(k: nat -> int, s: State, t: State, a: nat, id: Id)
    requires AgentsOk(k, s) && AgentTurn(s, t, a) && SameBut(s.board, t.board, id) && AgentOk(k, t.board, t.agents[a])
    requires forall c | 0 <= c < |s.agents| && c != a :: id !in AgentBag(s.agents[c]) && id !in AgentTimer(s.agents[c])
    ensures AgentsOk(k, t)
  {
    forall c | 0 <= c < |t.agents| ensures AgentOk(k, t.board, t.agents[c]) {
      if c != a {
        assert t.agents[c] == s.agents[c];
        assert AgentOk(k, s.board, s.agents[c]) && id !in AgentBag(s.agents[c]) && id !in AgentTimer(s.agents[c]);
      }
    }
  }

  lemma AgentSleepers(s: State, t: State, id: Id)
    requires SleepersOk(s) && t.sleepers == s.sleepers && SameBut(s.board, t.board, id) && id !in s.sleepers
    ensures SleepersOk(t)
  {
    forall j | 0 <= j < |t.sleepers| ensures t.sleepers[j] in t.board.awaiting &&
      t.board.awaiting[t.sleepers[j]] == Sleep {
      assert s.sleepers[j] != id;
    }
  }

  /** An agent's step that changes one slot nobody else cares about. */
  lemma ChangedByAgent(k: nat -> int, s: State, t: State, a: nat, id: Id)
    requires Inv(k, s) && AgentTurn(s, t, a) && SameBut(s.board, t.board, id) && t.global == s.global &&
      t.sleepers == s.sleepers
    requires id !in s.global && id !in s.sleepers
    requires forall v | 0 <= v < |s.workers| :: id !in Bag(s.workers[v])
    requires forall c | 0 <= c < |s.agents| && c != a :: id !in AgentBag(s.agents[c]) && id !in AgentTimer(s.agents[c])
    requires id in s.board.awaiting ==> s.board.awaiting[id] == Sleep
    requires id !in t.board.awaiting && id !in t.board.parked
    requires id in t.board.reading ==> id < |t.board.life| && t.board.life[id] != Free
    requires Counted(t) && AgentOk(k, t.board, t.agents[a])
    ensures Inv(k, t)
  {
    hide Counted, SleepersOk, SameBut, GlobalOk, WorkersOk, AgentsOk, BoardOk, AgentOk;
    AgentBoard(s, t, id);
    AgentWorkers(k, s, t, id);
    AgentAgents(k, s, t, a, id);
    AgentSleepers(s, t, id);
    GlobalFrame(k, s, t, id);
  }

  /** A thread that does not wait has no timer ticket. */
  lemma NoTimer(k: nat -> int, s: State, id: Id)
    requires AgentsOk(k, s) && SleepersOk(s) && id !in s.board.awaiting
    ensures id !in s.sleepers
    ensures forall c | 0 <= c < |s.agents| :: id !in AgentTimer(s.agents[c])
  {
    forall c | 0 <= c < |s.agents| ensures id !in AgentTimer(s.agents[c]) {
      assert AgentOk(k, s.board, s.agents[c]);
    }
  }

  lemma NewBoard(b: Board, id: Id)
    requires id < |b.life| && b.life[id] == Free
    ensures SameBut(b, SetLife(b, id, Created), id)
    ensures multiset(Live(SetLife(b, id, Created))) == multiset(Live(b)) + multiset{id}
  {
    assert Live(SetLife(b, id, Created)) == Live(b) + {id};
  }

  lemma AllocateStep(k: nat -> int, s: State, a: nat, id: Id)
    requires Inv(k, s) && OutsideEnabled(s, Allocate(a, id))
    ensures Inv(k, OutsideApply(k, s, Allocate(a, id)))
  {
    hide Counted, GlobalOk, WorkersOk, AgentsOk, SleepersOk;
    var t := OutsideApply(k, s, Allocate(a, id));
    assert id !in s.board.awaiting && id !in s.board.reading && id !in s.board.parked by {
      assert id in s.board.awaiting ==> WaitOk(s, id);
    }
    hide BoardOk, SameBut, Bag;
    Nowhere(s, id);
    hide Live;
    NewBoard(s.board, id);
    CountAgentTurn(s, t, a);
    NoTimer(k, s, id);
    ChangedByAgent(k, s, t, a, id);
  }

  lemma InitStep(k: nat -> int, s: State, a: nat)
    requires Inv(k, s) && OutsideEnabled(s, InitReady(a))
    ensures Inv(k, OutsideApply(k, s, InitReady(a)))
  {
    hide Counted, GlobalOk, WorkersOk, SleepersOk;
    var id := s.agents[a].id;
    var t := OutsideApply(k, s, InitReady(a));
    assert AgentOk(k, s.board, s.agents[a]) && |s.board.results| == |s.board.life|;
    hide AgentsOk, BoardOk, Bag;
    OnlyAgent(s, a, id);
    assert SameBut(s.board, t.board, id);
    hide SameBut;
    LiveKept(s.board, t.board, id);
    hide Live;
    CountAgentTurn(s, t, a);
    NoTimer(k, s, id);
    ChangedByAgent(k, s, t, a, id);
  }

  lemma MovedByAgent(k: nat -> int, s: State, t: State, a: nat)
    requires Inv(k, s) && AgentTurn(s, t, a) && t.board == s.board
    requires Counted(t) && GlobalOk(k, t) && SleepersOk(t) && AgentOk(k, t.board, t.agents[a])
    ensures Inv(k, t)
  {
    hide Counted, GlobalOk, SleepersOk, WorkerOk, AgentOk, WaitOk;
    assert BoardOk(t) by {
      forall id | id in t.board.awaiting ensures WaitOk(t, id) {
        WaitSame(s, t, id);
      }
    }
  }

  lemma WaitSame(s: State, t: State, id: Id)
    requires id in s.board.awaiting && WaitOk(s, id) && t.board == s.board && t.workers == s.workers
    ensures WaitOk(t, id)
  {}

  lemma AgentPushStep(k: nat -> int, s: State, a: nat)
    requires Inv(k, s) && OutsideEnabled(s, AgentPush(a))
    ensures Inv(k, OutsideApply(k, s, AgentPush(a)))
  {
    hide Counted, WorkersOk, SleepersOk, BoardOk, Runnable, Live;
    var t := OutsideApply(k, s, AgentPush(a));
    assert AgentOk(k, s.board, s.agents[a]);
    GlobalSame(k, s, t);
    SleepersKept(s, t);
    CountAgentTurn(s, t, a);
    hide GlobalOk, AgentsOk;
    MovedByAgent(k, s, t, a);
  }

  lemma TimerPopStep(k: nat -> int, s: State, a: nat, i: nat)
    requires Inv(k, s) && OutsideEnabled(s, TimerPop(a, i))
    ensures Inv(k, OutsideApply(k, s, TimerPop(a, i)))
  {
    hide Counted, WorkersOk, BoardOk, GlobalOk, AgentsOk, Live;
    var t := OutsideApply(k, s, TimerPop(a, i));
    GlobalSame(k, s, t);
    assert s.sleepers == s.sleepers[..i] + [s.sleepers[i]] + s.sleepers[i + 1..];
    CountAgentTurn(s, t, a);
    MovedByAgent(k, s, t, a);
  }

  lemma TimerMissStep(k: nat -> int, s: State, a: nat)
    requires Inv(k, s) && OutsideEnabled(s, TimerLook(a)) && s.board.life[s.agents[a].id] != Blocked
    ensures Inv(k, OutsideApply(k, s, TimerLook(a)))
  {
    hide Counted, WorkersOk, BoardOk, GlobalOk, AgentsOk, SleepersOk, Live;
    var t := OutsideApply(k, s, TimerLook(a));
    GlobalSame(k, s, t);
    SleepersKept(s, t);
    CountAgentTurn(s, t, a);
    MovedByAgent(k, s, t, a);
  }

  /** The timer's ticket is the thread's only one. */
  lemma OneTimer(s: State, a: nat, id: Id)
    requires Counted(s) && a < |s.agents| && s.agents[a] == Timer(id)
    ensures id !in s.sleepers
    ensures forall c | 0 <= c < |s.agents| && c != a :: id !in AgentTimer(s.agents[c])
  {
    SumUpdate(AgentTimers(s.agents), a, multiset{});
    assert AgentTimers(s.agents)[a] == AgentTimer(s.agents[a]);
    assert Tickets(s)[id] <= 1;
    forall c | 0 <= c < |s.agents| && c != a ensures id !in AgentTimer(s.agents[c]) {
      SumPair(AgentTimers(s.agents), a, c);
      assert AgentTimers(s.agents)[c] == AgentTimer(s.agents[c]);
    }
  }

  lemma WokenSame(b: Board, id: Id)
    requires id < |b.life|
    ensures SameBut(b, Woken(b, id), id)
  {}

  /** The timer wakes a thread that is parked. */
  lemma TimerWakeStep(k: nat -> int, s: State, a: nat)
    requires Inv(k, s) && OutsideEnabled(s, TimerLook(a)) && s.agents[a].id in s.board.parked
    ensures Inv(k, OutsideApply(k, s, TimerLook(a)))
  {
    hide Counted, WorkersOk, GlobalOk, SleepersOk, Live;
    var id := s.agents[a].id;
    var t := OutsideApply(k, s, TimerLook(a));
    assert AgentOk(k, s.board, s.agents[a]);
    assert WaitOk(s, id);
    assert AgentOk(k, t.board, t.agents[a]);
    hide AgentsOk, BoardOk, WaitOk, SameBut, Bag;
    Nowhere(s, id);
    OneTimer(s, a, id);
    WokenSame(s.board, id);
    LiveKept(s.board, t.board, id);
    WokenCount(s.board, id);
    CountAgentTurn(s, t, a);
    hide AgentOk;
    ChangedByAgent(k, s, t, a, id);
  }

  // ── All steps ──

  lemma LoopKeepsInv(k: nat -> int, s: State, w: nat, st: LoopStep)
    requires Inv(k, s) && LoopEnabled(s, w, st)
    ensures Inv(k, LoopApply(s, w, st))
  {
    match st
    case PollRing(_) => PollStep(k, s, w, st);
    case WaitRing(_) => PollStep(k, s, w, st);
    case StoreResult => StoreStep(k, s, w);
    case WakeLook => WakeStep(k, s, w);
    case WakePush(hint) =>
      var wk := s.workers[w].(stage := Drain, hold := []);
      hide Inv;
      PushStep(k, s, w, wk, LoopApply(s, w, st));
    case DrainDone =>
      hide Inv, HandsOk, LocalOk;
      var stage := if s.workers[w].own.waited then Top else LookFirst;
      StageStep(k, s, w, s.workers[w].(stage := stage)) by { StageOk(k, s.board, s.workers[w], w, stage); }
  }

  lemma StageOk(k: nat -> int, b: Board, wk: Worker, w: nat, stage: Stage)
    requires wk.stage == Drain && stage in {Top, LookFirst} && wk.todo == []
    ensures WorkerOk(k, b, wk, w) ==> WorkerOk(k, b, wk.(stage := stage), w)
  {}

  lemma PopKeepsInv(k: nat -> int, s: State, w: nat, st: PopStep)
    requires Inv(k, s) && PopEnabled(s, w, st)
    ensures Inv(k, PopApply(s, w, st))
  {
    hide Inv, PopApply;
    match st
    case CheckGlobal => TakeGlobal(k, s, w, st);
    case PopLocal => if s.workers[w].local == [] { PopStages(k, s, w, st); } else { TakeLocal(k, s, w); }
    case PopGlobal => if s.global == [] { PopStages(k, s, w, st); } else { TakeGlobal(k, s, w, st); }
    case GrabBatch => TakeBatch(k, s, w);
    case Unload => PutDown(k, s, w, st);
    case Unhaul => PutDown(k, s, w, st);
    case StealHalf(v) => StealStep(k, s, w, v);
    case _ => PopStages(k, s, w, st);
  }

  lemma ThreadKeepsInv(k: nat -> int, s: State, w: nat, st: ThreadStep)
    requires Inv(k, s) && ThreadEnabled(s, w, st)
    ensures Inv(k, ThreadApply(s, w, st))
  {
    if st == PushBack {
      assert s.workers[w].todo == [] by { assert WorkerOk(k, s.board, s.workers[w], w); }
      hide Inv;
      PushStep(k, s, w, s.workers[w].(stage := Top, hold := []), ThreadApply(s, w, st));
    } else {
      hide Inv, ThreadApply;
      match st
      case SubmitIo(accepted) => if accepted { SubmitAccepted(k, s, w); } else { SubmitRejected(k, s, w); }
      case SleepFor => SleepStep(k, s, w);
      case Inspect => if s.board.life[Cur(s, w)] == Blocked { ParkStep(k, s, w); } else { InspectStep(k, s, w); }
      case Release => ReleaseStep(k, s, w);
      case MarkRunning => ResumeSteps(k, s, w, st);
      case SwitchIn => ResumeSteps(k, s, w, st);
      case ReadResult => ResumeSteps(k, s, w, st);
      case YieldMark => LeaveSteps(k, s, w, st);
      case FinishMark => LeaveSteps(k, s, w, st);
      case BlockMark => SwitchSteps(k, s, w, st);
      case SwitchOut => SwitchSteps(k, s, w, st);
    }
  }

  lemma OutsideKeepsInv(k: nat -> int, s: State, st: OutsideStep)
    requires Inv(k, s) && OutsideEnabled(s, st) && !WakesTooEarly(s, Outside(st))
    ensures Inv(k, OutsideApply(k, s, st))
  {
    hide Inv, OutsideApply;
    match st
    case Complete(w, i) => CompleteStep(k, s, w, i);
    case Allocate(a, id) => AllocateStep(k, s, a, id);
    case InitReady(a) => InitStep(k, s, a);
    case AgentPush(a) => AgentPushStep(k, s, a);
    case TimerPop(a, i) => TimerPopStep(k, s, a, i);
    case TimerLook(a) =>
      if s.agents[a].id in s.board.parked { TimerWakeStep(k, s, a); } else { TimerMissStep(k, s, a); }
  }

  /** Every step but a premature timer wake keeps the invariant. */
  lemma StepKeepsInv(k: nat -> int, s: State, st: Step)
    requires Inv(k, s) && Enabled(s, st) && !WakesTooEarly(s, st)
    ensures Inv(k, Apply(k, s, st))
  {
    hide Inv, LoopEnabled, PopEnabled, ThreadEnabled, OutsideEnabled, LoopApply, PopApply, ThreadApply, OutsideApply,
      WakesTooEarly;
    match st
    case Loop(w, l) => LoopKeepsInv(k, s, w, l);
    case Pop(w, p) => PopKeepsInv(k, s, w, p);
    case Thread(w, t) => ThreadKeepsInv(k, s, w, t);
    case Outside(o) => OutsideKeepsInv(k, s, o);
  }

  lemma NoWorkerBags(s: State)
    requires Initial(s)
    ensures Sum(WorkerBags(s.workers)) == multiset{} == Sum(Rings(s.workers))
  {
    EmptySum(WorkerBags(s.workers));
    EmptySum(Rings(s.workers));
  }

  lemma NoAgentBags(s: State)
    requires Initial(s)
    ensures Sum(AgentBags(s.agents)) == multiset{} == Sum(AgentTimers(s.agents))
  {
    EmptySum(AgentBags(s.agents));
    EmptySum(AgentTimers(s.agents));
  }

  lemma InitialCounted(s: State)
    requires Initial(s)
    ensures Counted(s)
  {
    NoWorkerBags(s);
    NoAgentBags(s);
    assert Live(s.board) == {};
    hide Sum, WorkerBags, Rings, AgentBags, AgentTimers, Live;
  }

  lemma InitialWorkers(k: nat -> int, s: State)
    requires Initial(s)
    ensures WorkersOk(k, s) && AgentsOk(k, s)
  {
    forall w | 0 <= w < |s.workers| ensures WorkerOk(k, s.board, s.workers[w], w) {
      assert s.workers[w] == Fresh(s.workers[w].own.rng);
    }
    hide WorkerOk;
  }

  lemma InitialBoard(k: nat -> int, s: State)
    requires Initial(s)
    ensures BoardOk(s) && GlobalOk(k, s) && SleepersOk(s)
  {
  }

  lemma InitialInv(k: nat -> int, s: State)
    requires Initial(s)
    ensures Inv(k, s)
  {
    hide Counted, Initial, WorkersOk, AgentsOk, BoardOk, GlobalOk, SleepersOk;
    InitialCounted(s);
    InitialWorkers(k, s);
    InitialBoard(k, s);
  }

  lemma {:induction false} EmptySum(bs: seq<multiset<Id>>)
    requires forall i | 0 <= i < |bs| :: bs[i] == multiset{}
    ensures Sum(bs) == multiset{}
  {
    if bs != [] {
      EmptySum(bs[1..]);
    }
  }
}
