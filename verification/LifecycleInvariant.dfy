/** The inductive invariant of the GVThread life cycle and its preservation by every step. */
module LifecycleInvariant {
  import opened Basics
  import opened Bags
  import opened Words
  import opened Lifecycle

  // ── Accounting ──

  function Bag(wk: Worker): multiset<Id> { multiset(wk.local) + multiset(wk.hold) }

  function Slots(cs: seq<Cqe>): seq<Id> { seq(|cs|, i requires 0 <= i < |cs| => cs[i].slot) }

  function Asked(qs: seq<Sqe>): seq<Id> { seq(|qs|, i requires 0 <= i < |qs| => qs[i].slot) }

  /** The slots named by requests and completions on a worker's ring. */
  function Ring(wk: Worker): multiset<Id> {
    multiset(Asked(wk.flight)) + multiset(Slots(wk.cq)) + multiset(Slots(wk.todo))
  }

  function AgentBag(a: Agent): multiset<Id> { if a.Init? || a.Push? then multiset{a.id} else multiset{} }

  function AgentTimer(a: Agent): multiset<Id> { if a.Timer? then multiset{a.id} else multiset{} }

  function WorkerBags(ws: seq<Worker>): seq<multiset<Id>> { seq(|ws|, i requires 0 <= i < |ws| => Bag(ws[i])) }

  function Rings(ws: seq<Worker>): seq<multiset<Id>> { seq(|ws|, i requires 0 <= i < |ws| => Ring(ws[i])) }

  function AgentBags(az: seq<Agent>): seq<multiset<Id>> { seq(|az|, i requires 0 <= i < |az| => AgentBag(az[i])) }

  function AgentTimers(az: seq<Agent>): seq<multiset<Id>> { seq(|az|, i requires 0 <= i < |az| => AgentTimer(az[i])) }

  /** Every place an id can be: the queues, the hands of a worker or agent, or parked. */
  ghost function Places(s: State): multiset<Id> {
    multiset(s.global) + Sum(WorkerBags(s.workers)) + Sum(AgentBags(s.agents)) + multiset(s.board.parked)
  }

  /** Everything that can still wake a blocked thread: requests, completions, sleep entries. */
  ghost function Tickets(s: State): multiset<Id> {
    Sum(Rings(s.workers)) + multiset(s.sleepers) + Sum(AgentTimers(s.agents))
  }

  ghost function Live(b: Board): set<Id> { set i | 0 <= i < |b.life| && b.life[i] != Free }

  // ── Local conditions ──

  /** Not waiting; if inside an I/O call, its result is in the slab. */
  predicate Settled(k: nat -> int, b: Board, id: Id) {
    && id < |b.life| == |b.results| && id !in b.awaiting
    && (id in b.reading ==> b.results[id] == k(b.reading[id]))
  }

  predicate Runnable(k: nat -> int, b: Board, id: Id) {
    Settled(k, b, id) && b.life[id] == Ready && id in b.saved
  }

  /** Waiting, on worker w if for I/O. */
  predicate WaitsOn(b: Board, id: Id, w: nat) {
    id in b.awaiting && (b.awaiting[id].Io? ==> b.awaiting[id].worker == w)
  }

  predicate Empty(stage: Stage) {
    stage in {Top, InRing, Drain, Stored, LookFirst, LookLocal, LookGlobal, LookSteal}
  }

  predicate HandsOk(k: nat -> int, b: Board, wk: Worker, w: nat) {
    && (Empty(wk.stage) <==> wk.hold == [])
    && (|wk.hold| > 1 ==> wk.stage in {Carry, Haul})
    && (wk.hold != [] ==> HeldOk(k, b, wk.stage, wk.hold, w))
  }

  predicate HeldOk(k: nat -> int, b: Board, stage: Stage, hold: seq<Id>, w: nat)
    requires hold != []
  {
    var id := hold[0];
    && id < |b.life|
    && if stage == Loading then Settled(k, b, id) && b.life[id] == Running && id in b.saved
       else if stage == Exec then Settled(k, b, id) && b.life[id] == Running && id !in b.saved
       else if stage == Queued then WaitsOn(b, id, w) && b.life[id] == Running && id !in b.saved
       else if stage == Marked then MarkedOk(b, id, w) && id !in b.saved
       else if stage == Back then MarkedOk(b, id, w) && id in b.saved
       else if stage == Reap then b.life[id] == Finished && id !in b.awaiting && id !in b.reading
       else forall j | 0 <= j < |hold| :: Runnable(k, b, hold[j])
  }

  predicate MarkedOk(b: Board, id: Id, w: nat)
    requires id < |b.life|
  {
    match b.life[id]
    case Blocked => WaitsOn(b, id, w)
    case Ready => id !in b.awaiting && id !in b.reading
    case Finished => id !in b.awaiting && id !in b.reading
    case _ => false
  }

  /** The batch grab starts from an empty local queue. */
  predicate LocalOk(k: nat -> int, b: Board, wk: Worker) {
    && |wk.local| <= LOCAL_CAPACITY
    && (forall j | 0 <= j < |wk.local| :: Runnable(k, b, wk.local[j]))
    && (wk.stage in {LookGlobal, Grab} ==> wk.local == [])
    && (wk.stage == Carry ==> |wk.local| + |wk.hold| <= BATCH + 1)
  }

  predicate CqeOk(k: nat -> int, b: Board, c: Cqe, w: nat) {
    c.slot in b.awaiting && b.awaiting[c.slot] == Io(c.num, w) && c.value == k(c.num)
  }

  predicate RingOk(k: nat -> int, b: Board, wk: Worker, w: nat) {
    && (forall j | 0 <= j < |wk.flight| ::
          wk.flight[j].slot in b.awaiting && b.awaiting[wk.flight[j].slot] == Io(wk.flight[j].num, w))
    && (forall j | 0 <= j < |wk.cq| :: CqeOk(k, b, wk.cq[j], w))
    && (forall j | 0 <= j < |wk.todo| :: CqeOk(k, b, wk.todo[j], w))
    && (wk.todo != [] ==> wk.stage in {Drain, Stored, Waking})
    && (wk.stage == Stored ==> wk.todo != [] && wk.todo[0].slot < |b.results| &&
                               b.results[wk.todo[0].slot] == wk.todo[0].value)
  }

  /** The counter is a machine word, and only queued requests have been flushed. */
  predicate OwnOk(wk: Worker) { wk.own.counter < TWO64 && wk.own.sent <= |wk.flight| }

  predicate WorkerOk(k: nat -> int, b: Board, wk: Worker, w: nat) {
    HandsOk(k, b, wk, w) && LocalOk(k, b, wk) && RingOk(k, b, wk, w) && OwnOk(wk)
  }

  predicate AgentOk(k: nat -> int, b: Board, a: Agent) {
    match a
    case Idle => true
    case Init(id) => id < |b.life| && b.life[id] == Created && id !in b.awaiting && id !in b.reading
    case Push(id) => Runnable(k, b, id)
    case Timer(id) => id in b.awaiting && b.awaiting[id] == Sleep
  }

  /** Worker w is carrying thread id towards its park. */
  predicate Parking(wk: Worker, id: Id) {
    wk.hold == [id] && wk.stage in {Queued, Marked, Back}
  }

  predicate WaitOk(s: State, id: Id)
    requires id in s.board.awaiting
  {
    && id < |s.board.life| && s.board.life[id] in {Running, Blocked}
    && match s.board.awaiting[id]
       case Io(num, u) => && u < |s.workers| && id in s.board.reading && s.board.reading[id] == num
                          && (id in s.board.parked || Parking(s.workers[u], id))
       case Sleep => id !in s.board.reading
  }

  ghost predicate BoardOk(s: State) {
    && |s.board.results| == |s.board.life|
    && (forall id | id in s.board.parked ::
          id < |s.board.life| && s.board.life[id] == Blocked && id in s.board.saved && id in s.board.awaiting)
    && (forall id | id in s.board.awaiting :: WaitOk(s, id))
    && (forall id | id in s.board.reading :: id < |s.board.life| && s.board.life[id] != Free)
  }

  ghost predicate GlobalOk(k: nat -> int, s: State) {
    forall j | 0 <= j < |s.global| :: Runnable(k, s.board, s.global[j])
  }

  ghost predicate SleepersOk(s: State) {
    forall j | 0 <= j < |s.sleepers| :: s.sleepers[j] in s.board.awaiting && s.board.awaiting[s.sleepers[j]] == Sleep
  }

  ghost predicate Counted(s: State) {
    && Places(s) == multiset(Live(s.board))
    && Tickets(s) <= multiset(s.board.awaiting.Keys)
  }

  ghost predicate WorkersOk(k: nat -> int, s: State) {
    forall w | 0 <= w < |s.workers| :: WorkerOk(k, s.board, s.workers[w], w)
  }

  ghost predicate AgentsOk(k: nat -> int, s: State) {
    forall a | 0 <= a < |s.agents| :: AgentOk(k, s.board, s.agents[a])
  }

  ghost predicate Inv(k: nat -> int, s: State) {
    && Counted(s) && BoardOk(s) && GlobalOk(k, s) && SleepersOk(s) && WorkersOk(k, s) && AgentsOk(k, s)
  }

  // ── Consequences of the accounting ──

  lemma CountWorker(s: State, w: nat, wk: Worker)
    requires w < |s.workers|
    ensures var t := Set(s, w, wk);
            && Sum(WorkerBags(t.workers)) + Bag(s.workers[w]) == Sum(WorkerBags(s.workers)) + Bag(wk)
            && Sum(Rings(t.workers)) + Ring(s.workers[w]) == Sum(Rings(s.workers)) + Ring(wk)
  {
    var t := Set(s, w, wk);
    assert WorkerBags(t.workers) == WorkerBags(s.workers)[w := Bag(wk)];
    assert Rings(t.workers) == Rings(s.workers)[w := Ring(wk)];
    SumUpdate(WorkerBags(s.workers), w, Bag(wk));
    SumUpdate(Rings(s.workers), w, Ring(wk));
  }

  lemma CountAgent(s: State, a: nat, g: Agent)
    requires a < |s.agents|
    ensures var az := s.agents[a := g];
            && Sum(AgentBags(az)) + AgentBag(s.agents[a]) == Sum(AgentBags(s.agents)) + AgentBag(g)
            && Sum(AgentTimers(az)) + AgentTimer(s.agents[a]) == Sum(AgentTimers(s.agents)) + AgentTimer(g)
  {
    var az := s.agents[a := g];
    assert AgentBags(az) == AgentBags(s.agents)[a := AgentBag(g)];
    assert AgentTimers(az) == AgentTimers(s.agents)[a := AgentTimer(g)];
    SumUpdate(AgentBags(s.agents), a, AgentBag(g));
    SumUpdate(AgentTimers(s.agents), a, AgentTimer(g));
  }

  /** Nobody else has an id that worker w has. */
  lemma OnlyHere(s: State, w: nat, id: Id)
    requires Counted(s) && w < |s.workers| && id in Bag(s.workers[w])
    ensures Bag(s.workers[w])[id] == 1 && id in Live(s.board)
    ensures forall v | 0 <= v < |s.workers| && v != w :: id !in Bag(s.workers[v])
    ensures forall a | 0 <= a < |s.agents| :: id !in AgentBag(s.agents[a])
    ensures id !in s.global && id !in s.board.parked
  {
    SumUpdate(WorkerBags(s.workers), w, multiset{});
    assert WorkerBags(s.workers)[w] == Bag(s.workers[w]);
    assert Places(s)[id] <= 1;
    forall v | 0 <= v < |s.workers| && v != w ensures id !in Bag(s.workers[v]) {
      SumPair(WorkerBags(s.workers), w, v);
      assert WorkerBags(s.workers)[v] == Bag(s.workers[v]);
    }
    forall a | 0 <= a < |s.agents| ensures id !in AgentBag(s.agents[a]) {
      SumUpdate(AgentBags(s.agents), a, multiset{});
      assert AgentBags(s.agents)[a] == AgentBag(s.agents[a]);
    }
  }

  /** Nobody else has an id that agent a has. */
  lemma OnlyAgent(s: State, a: nat, id: Id)
    requires Counted(s) && a < |s.agents| && id in AgentBag(s.agents[a])
    ensures id in Live(s.board)
    ensures forall v | 0 <= v < |s.workers| :: id !in Bag(s.workers[v])
    ensures forall c | 0 <= c < |s.agents| && c != a :: id !in AgentBag(s.agents[c])
    ensures id !in s.global && id !in s.board.parked
  {
    SumUpdate(AgentBags(s.agents), a, multiset{});
    assert AgentBags(s.agents)[a] == AgentBag(s.agents[a]);
    assert Places(s)[id] <= 1;
    forall v | 0 <= v < |s.workers| ensures id !in Bag(s.workers[v]) {
      SumUpdate(WorkerBags(s.workers), v, multiset{});
      assert WorkerBags(s.workers)[v] == Bag(s.workers[v]);
    }
    forall c | 0 <= c < |s.agents| && c != a ensures id !in AgentBag(s.agents[c]) {
      SumPair(AgentBags(s.agents), a, c);
      assert AgentBags(s.agents)[c] == AgentBag(s.agents[c]);
    }
  }

  /** Nobody holds a parked id or an id of a free slot. */
  lemma Nowhere(s: State, id: Id)
    requires Counted(s) && (id in s.board.parked || id !in Live(s.board))
    ensures forall v | 0 <= v < |s.workers| :: id !in Bag(s.workers[v])
    ensures forall c | 0 <= c < |s.agents| :: id !in AgentBag(s.agents[c])
    ensures id !in s.global && (id in s.board.parked ==> id in Live(s.board))
  {
    assert Places(s)[id] <= 1;
    assert id !in Live(s.board) ==> Places(s)[id] == 0;
    forall v | 0 <= v < |s.workers| ensures id !in Bag(s.workers[v]) {
      SumUpdate(WorkerBags(s.workers), v, multiset{});
      assert WorkerBags(s.workers)[v] == Bag(s.workers[v]);
    }
    forall c | 0 <= c < |s.agents| ensures id !in AgentBag(s.agents[c]) {
      SumUpdate(AgentBags(s.agents), c, multiset{});
      assert AgentBags(s.agents)[c] == AgentBag(s.agents[c]);
    }
  }

  // ── Framing ──

  /** The boards agree on every slot but id. */
  ghost predicate SameBut(b: Board, c: Board, id: Id) {
    && |c.life| == |b.life| && |c.results| == |b.results|
    && (forall j | 0 <= j < |b.life| && j != id :: c.life[j] == b.life[j])
    && (forall j | 0 <= j < |b.results| && j != id :: c.results[j] == b.results[j])
    && (forall j | j != id :: j in c.saved <==> j in b.saved)
    && (forall j | j != id :: j in c.parked <==> j in b.parked)
    && (forall j | j != id :: j in c.awaiting <==> j in b.awaiting)
    && (forall j | j != id && j in b.awaiting :: c.awaiting[j] == b.awaiting[j])
    && (forall j | j != id :: j in c.reading <==> j in b.reading)
    && (forall j | j != id && j in b.reading :: c.reading[j] == b.reading[j])
  }

  lemma HandsFrame(k: nat -> int, b: Board, c: Board, id: Id, wk: Worker, w: nat)
    requires HandsOk(k, b, wk, w) && SameBut(b, c, id) && id !in wk.hold
    ensures HandsOk(k, c, wk, w)
  {
    if wk.hold != [] {
      assert wk.hold[0] != id;
    }
  }

  lemma LocalFrame(k: nat -> int, b: Board, c: Board, id: Id, wk: Worker)
    requires LocalOk(k, b, wk) && SameBut(b, c, id) && id !in wk.local
    ensures LocalOk(k, c, wk)
  {
    forall j | 0 <= j < |wk.local| ensures Runnable(k, c, wk.local[j]) {
      assert wk.local[j] != id;
    }
  }

  /** A worker that does not have id, and whose ring does not wait for it, does not notice a change at id. */
  lemma WorkerFrame(k: nat -> int, b: Board, c: Board, id: Id, wk: Worker, w: nat)
    requires WorkerOk(k, b, wk, w) && SameBut(b, c, id)
    requires id !in Bag(wk)
    requires id in b.awaiting ==> b.awaiting[id] == Sleep || (b.awaiting[id].Io? && b.awaiting[id].worker != w)
    ensures WorkerOk(k, c, wk, w)
  {
    HandsFrame(k, b, c, id, wk, w);
    LocalFrame(k, b, c, id, wk);
  }
}
