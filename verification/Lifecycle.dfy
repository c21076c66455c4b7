/** The GVThread life cycle as an interleaving of small steps.

    Every OS thread of the runtime is a sequence of atomic steps: one metadata store, one locked queue
    operation, one register save, one completion taken from a ring.  `workers` are the scheduler's worker
    threads with their local queues and io_uring instances; `agents` are all other actors that can touch the
    ready queue (threads calling `spawn`, inside or outside a GVThread, and the timer thread that ends sleeps).

    The results the kernel produces are an arbitrary function `kernel` from request numbers to values. */
module Lifecycle {
  import opened Basics
  import ReadyQueue

  const POLL_LIMIT: nat := 256

  type Id = nat

  datatype Life = Free | Created | Ready | Running | Blocked | Finished

  datatype Sqe = Sqe(slot: Id, num: nat)
  datatype Cqe = Cqe(slot: Id, num: nat, value: int)

  /** Program points of a worker thread.
      `Top` .. `Haul`: the worker loop and `SimpleQueue::pop`; `Got` .. `Reap`: `run_gvthread` and the scheduler entry
      points called on the GVThread's stack. */
  datatype Stage =
    | Top        // loop head
    | InRing     // no work found: blocked until the ring has a completion
    | Drain      // going through polled completions
    | Stored     // result of todo[0] is in the slab, its thread not yet looked at
    | Waking     // woken thread marked Ready, not yet pushed
    | LookFirst | LookLocal | LookGlobal | LookSteal
    | Grab       // popped from the global queue, batch not yet taken
    | Carry      // moving the batch to the local queue
    | Haul       // moving stolen ids to the local queue
    | Got | Loading | Exec
    | Queued     // request or sleep entry queued, Blocked not yet stored
    | Marked     // Ready, Blocked or Finished stored, registers not yet saved
    | Back       // registers saved, run_gvthread is about to read the state
    | Requeue | Reap

  /** What no other thread looks at: the worker's pop counter, its random state and the draws left in the current
      steal; how many of its requests have been flushed to the kernel, the first `sent` ones; how many completions its
      polls took without returning them; and whether the completions it goes through come from a wait in the ring. */
  datatype Own = Own(counter: nat, rng: nat, draws: nat, sent: nat, lost: nat, waited: bool)

  /** `hold` are the ids in the worker's hands, hold[0] the current one; `todo` the polled completions left; `flight`
      the requests queued or in the kernel. */
  datatype Worker = Worker(stage: Stage, hold: seq<Id>, local: seq<Id>,
                           todo: seq<Cqe>, flight: seq<Sqe>, cq: seq<Cqe>, own: Own)

  datatype Agent = Idle | Init(id: Id) | Push(id: Id) | Timer(id: Id)

  /** What a blocked thread waits for: a request on some worker's ring, or the timer. */
  datatype Wait = Io(num: nat, worker: nat) | Sleep

  /** Per-slot facts.  `saved`: the register save area is current; `parked`: switched out, marked Blocked and
      let go by its worker; `awaiting`: called a blocking operation and not woken since; `reading`: inside
      `submit_and_park_worker`, with the number of its request. */
  datatype Board = Board(life: seq<Life>, saved: set<Id>, parked: set<Id>, results: seq<int>,
                         awaiting: map<Id, Wait>, reading: map<Id, nat>)

  datatype State = State(board: Board, global: seq<Id>, workers: seq<Worker>, agents: seq<Agent>,
                         sleepers: seq<Id>, next: nat)

  /** Steps of `WorkerReactorPool::poll` and `wait_and_poll` and the wakes they make.  A flush may fail, and its error
      and that of the wait are ignored. */
  datatype LoopStep =
    | PollRing(flushed: bool) | WaitRing(early: bool) | StoreResult | WakeLook | WakePush(hint: bool) | DrainDone

  /** Steps of `SimpleQueue::pop`, and what the worker does when it returns nothing. */
  datatype PopStep =
    | CheckGlobal | SkipCheck | PopLocal | PopGlobal | GrabBatch | Unload
    | StealHalf(victim: nat) | Miss | Unhaul | TakeDone | NoWork(flushed: bool)

  /** Steps of `run_gvthread` and of the GVThread it runs. */
  datatype ThreadStep =
    | MarkRunning | SwitchIn | ReadResult | YieldMark | SubmitIo(accepted: bool) | SleepFor | BlockMark | FinishMark
    | SwitchOut | Inspect | PushBack | Release

  /** Steps of the kernel, of `spawn` and of the timer thread. */
  datatype OutsideStep =
    | Complete(w: nat, i: nat)
    | Allocate(a: nat, id: Id) | InitReady(a: nat) | AgentPush(a: nat) | TimerPop(a: nat, i: nat) | TimerLook(a: nat)

  datatype Step = Loop(w: nat, l: LoopStep) | Pop(w: nat, p: PopStep) | Thread(w: nat,
    t: ThreadStep) | Outside(o: OutsideStep)

  // ── Steps ──

  predicate At(s: State, w: nat, stage: Stage) {
    w < |s.workers| && s.workers[w].stage == stage
  }

  predicate Holds(s: State, w: nat, stage: Stage) {
    At(s, w, stage) && s.workers[w].hold != [] && s.workers[w].hold[0] < |s.board.life| == |s.board.results|
  }

  function Cur(s: State, w: nat): Id
    requires w < |s.workers| && s.workers[w].hold != []
  {
    s.workers[w].hold[0]
  }

  function Set(s: State, w: nat, wk: Worker): State
    requires w < |s.workers|
  {
    s.(workers := s.workers[w := wk])
  }

  function SetLife(b: Board, id: Id, life: Life): Board
    requires id < |b.life|
  {
    b.(life := b.life[id := life])
  }

  /** The ring counts requests as in flight from their flush until a poll returns their completions. */
  predicate HasIo(wk: Worker) { wk.own.sent + |wk.cq| + wk.own.lost > 0 }

  /** Whom worker w draws next. */
  function Victim(s: State, w: nat): nat
    requires w < |s.workers|
  {
    ReadyQueue.Pick(s.workers[w].own.rng, |s.workers|).0
  }

  /** Worker w after that draw. */
  function Drawn(s: State, w: nat): Worker
    requires w < |s.workers| && s.workers[w].own.draws > 0
  {
    var wk := s.workers[w];
    wk.(own := wk.own.(rng := ReadyQueue.Pick(wk.own.rng, |s.workers|).1, draws := wk.own.draws - 1))
  }

  predicate Hits(s: State, w: nat)
    requires w < |s.workers|
  {
    Victim(s, w) != w && |s.workers[Victim(s, w)].local| / 2 > 0
  }

  /** The periodic check is due and finds something. */
  predicate Due(s: State, w: nat)
    requires w < |s.workers|
  {
    ReadyQueue.Check(s.workers[w].own.counter) && s.global != []
  }

  predicate LoopEnabled(s: State, w: nat, st: LoopStep) {
    match st
    case PollRing(_) => At(s, w, Top)
    case WaitRing(early) => At(s, w, InRing) && (early || s.workers[w].cq != [])
    case StoreResult => At(s, w, Drain) && s.workers[w].todo != [] && s.workers[w].todo[0].slot < |s.board.results|
    case WakeLook => At(s, w, Stored) && s.workers[w].todo != [] && s.workers[w].todo[0].slot < |s.board.life|
    case WakePush(_) => Holds(s, w, Waking)
    case DrainDone => At(s, w, Drain) && s.workers[w].todo == []
  }

  predicate PopEnabled(s: State, w: nat, st: PopStep) {
    match st
    case CheckGlobal => At(s, w, LookFirst) && Due(s, w)
    case SkipCheck => At(s, w, LookFirst) && !Due(s, w)
    case PopLocal => At(s, w, LookLocal)
    case PopGlobal => At(s, w, LookGlobal)
    case GrabBatch => Holds(s, w, Grab)
    case Unload => Holds(s, w, Carry) && |s.workers[w].hold| > 1
    case StealHalf(v) => At(s, w, LookSteal) && s.workers[w].own.draws > 0 && Hits(s, w) && v == Victim(s, w)
    case Miss => At(s, w, LookSteal) && s.workers[w].own.draws > 0 && !Hits(s, w)
    case Unhaul => Holds(s, w, Haul) && |s.workers[w].hold| > 1
    case TakeDone => (Holds(s, w, Carry) || Holds(s, w, Haul)) && |s.workers[w].hold| == 1
    case NoWork(_) => At(s, w, LookSteal) && s.workers[w].own.draws == 0
  }

  /** A thread inside `submit_and_park_worker` reads its result before it does anything else. */
  predicate ThreadEnabled(s: State, w: nat, st: ThreadStep) {
    match st
    case MarkRunning => Holds(s, w, Got)
    case SwitchIn => Holds(s, w, Loading)
    case ReadResult => Holds(s, w, Exec) && Cur(s, w) in s.board.reading
    case YieldMark => Holds(s, w, Exec) && Cur(s, w) !in s.board.reading
    case SubmitIo(_) => Holds(s, w, Exec) && Cur(s, w) !in s.board.reading
    case SleepFor => Holds(s, w, Exec) && Cur(s, w) !in s.board.reading
    case BlockMark => Holds(s, w, Queued)
    case FinishMark => Holds(s, w, Exec) && Cur(s, w) !in s.board.reading
    case SwitchOut => Holds(s, w, Marked)
    case Inspect => Holds(s, w, Back)
    case PushBack => Holds(s, w, Requeue)
    case Release => Holds(s, w, Reap)
  }

  predicate OutsideEnabled(s: State, st: OutsideStep) {
    match st
    case Complete(w, i) => w < |s.workers| && i < |s.workers[w].flight| && i < s.workers[w].own.sent
    case Allocate(a, id) => a < |s.agents| && s.agents[a] == Idle && id < |s.board.life| && s.board.life[id] == Free
    case InitReady(a) => a < |s.agents| && s.agents[a].Init? && s.agents[a].id < |s.board.life|
    case AgentPush(a) => a < |s.agents| && s.agents[a].Push?
    case TimerPop(a, i) => a < |s.agents| && s.agents[a] == Idle && i < |s.sleepers|
    case TimerLook(a) => a < |s.agents| && s.agents[a].Timer? && s.agents[a].id < |s.board.life|
  }

  /** Which steps the code can take. */
  predicate Enabled(s: State, st: Step) {
    match st
    case Loop(w, l) => LoopEnabled(s, w, l)
    case Pop(w, p) => PopEnabled(s, w, p)
    case Thread(w, t) => ThreadEnabled(s, w, t)
    case Outside(o) => OutsideEnabled(s, o)
  }

  /** Push with the current worker as hint: the local queue unless it is full, then the global queue. */
  function PushLocal(s: State, w: nat, id: Id, wk: Worker): State
    requires w < |s.workers|
  {
    if |wk.local| < LOCAL_CAPACITY then Set(s, w, wk.(local := wk.local + [id]))
    else Set(s, w, wk).(global := s.global + [id])
  }

  function Flush(wk: Worker, flushed: bool): Worker {
    if flushed then wk.(own := wk.own.(sent := |wk.flight|)) else wk
  }

  /** `poll_completions` copies at most POLL_LIMIT completions, but its loop has already taken one more out of the ring
      when it notices the limit. */
  function Polled(wk: Worker, waited: bool): Worker {
    var n := Least(|wk.cq|, POLL_LIMIT);
    wk.(stage := Drain, todo := wk.cq[..n], cq := wk.cq[Least(|wk.cq|, n + 1)..],
        own := wk.own.(waited := waited, lost := wk.own.lost + One(|wk.cq| > POLL_LIMIT)))
  }

  function LoopApply(s: State, w: nat, st: LoopStep): State
    requires LoopEnabled(s, w, st)
  {
    match st
    case PollRing(flushed) => Set(s, w, Polled(Flush(s.workers[w], flushed), false))
    case WaitRing(_) => Set(s, w, Polled(s.workers[w], true))
    case StoreResult =>
      var wk := s.workers[w];
      var c := wk.todo[0];
      Set(s, w, wk.(stage := Stored)).(board := s.board.(results := s.board.results[c.slot := c.value]))
    case WakeLook =>
      var wk := s.workers[w];
      var id := wk.todo[0].slot;
      if s.board.life[id] == Blocked then
        Set(s, w, wk.(stage := Waking, hold := [id], todo := wk.todo[1..]))
        .(board := Woken(s.board, id))
      else Set(s, w, wk.(stage := Drain, todo := wk.todo[1..]))
    case WakePush(hint) =>
      var wk := s.workers[w].(stage := Drain, hold := []);
      if hint then PushLocal(s, w, Cur(s, w), wk) else Set(s, w, wk).(global := s.global + [Cur(s, w)])
    case DrainDone => Set(s, w, s.workers[w].(stage := if s.workers[w].own.waited then Top else LookFirst))
  }

  /** The pop counter advances once per pop. */
  function Ticked(wk: Worker): Worker {
    wk.(own := wk.own.(counter := ReadyQueue.Next(wk.own.counter)))
  }

  function PopApply(s: State, w: nat, st: PopStep): State
    requires PopEnabled(s, w, st)
  {
    match st
    case CheckGlobal =>
      Set(s, w, Ticked(s.workers[w]).(stage := Got, hold := [s.global[0]])).(global := s.global[1..])
    case SkipCheck => Set(s, w, Ticked(s.workers[w]).(stage := LookLocal))
    case PopLocal =>
      var wk := s.workers[w];
      if wk.local == [] then Set(s, w, wk.(stage := LookGlobal))
      else Set(s, w, wk.(stage := Got, hold := [wk.local[0]], local := wk.local[1..]))
    case PopGlobal =>
      if s.global == [] then
        var wk := s.workers[w];
        Set(s, w, wk.(stage := LookSteal, own := wk.own.(draws := Least(|s.workers|, ReadyQueue.STEAL_TRIES))))
      else Set(s, w, s.workers[w].(stage := Grab, hold := [s.global[0]])).(global := s.global[1..])
    case GrabBatch =>
      var n := Least(|s.global|, BATCH);
      Set(s, w, s.workers[w].(stage := Carry, hold := [Cur(s, w)] + s.global[..n])).(global := s.global[n..])
    case Unload =>
      // the result of the local push is ignored
      var wk := s.workers[w];
      Set(s, w, wk.(hold := [wk.hold[0]] + wk.hold[2..],
                    local := if |wk.local| < LOCAL_CAPACITY then wk.local + [wk.hold[1]] else wk.local))
    case StealHalf(v) =>
      var n := |s.workers[v].local| / 2;
      var taken := s.workers[v].local[..n];
      Set(Set(s, v, s.workers[v].(local := s.workers[v].local[n..])), w, Drawn(s, w).(stage := Haul, hold := taken))
    case Miss => Set(s, w, Drawn(s, w))
    case Unhaul =>
      var wk := s.workers[w];
      PushLocal(s, w, wk.hold[1], wk.(hold := [wk.hold[0]] + wk.hold[2..]))
    case TakeDone => Set(s, w, s.workers[w].(stage := Got))
    case NoWork(flushed) =>
      var wk := s.workers[w];
      Set(s, w, if HasIo(wk) then Flush(wk, flushed).(stage := InRing) else wk.(stage := Top))
  }

  function ThreadApply(s: State, w: nat, st: ThreadStep): State
    requires ThreadEnabled(s, w, st)
  {
    match st
    case MarkRunning => Set(s, w, s.workers[w].(stage := Loading)).(board := SetLife(s.board, Cur(s, w), Running))
    case SwitchIn => Set(s, w, s.workers[w].(stage := Exec)).(board := s.board.(saved := s.board.saved - {Cur(s, w)}))
    case ReadResult => s.(board := s.board.(reading := s.board.reading - {Cur(s, w)}))
    case YieldMark => Set(s, w, s.workers[w].(stage := Marked)).(board := SetLife(s.board, Cur(s, w), Ready))
    case SubmitIo(accepted) =>
      // a rejected submit stores an error and wakes the caller, which is still Running: the wake does nothing
      var wk := s.workers[w];
      var id := Cur(s, w);
      var b := s.board.(awaiting := s.board.awaiting[id := Io(s.next, w)], reading := s.board.reading[id := s.next]);
      Set(s, w, wk.(stage := Queued, flight := if accepted then wk.flight + [Sqe(id, s.next)] else wk.flight))
      .(board := if accepted then b else b.(results := b.results[id := -EAGAIN]), next := s.next + 1)
    case SleepFor =>
      var id := Cur(s, w);
      Set(s, w, s.workers[w].(stage := Queued))
      .(board := s.board.(awaiting := s.board.awaiting[id := Sleep]), sleepers := s.sleepers + [id])
    case BlockMark => Set(s, w, s.workers[w].(stage := Marked)).(board := SetLife(s.board, Cur(s, w), Blocked))
    case FinishMark => Set(s, w, s.workers[w].(stage := Marked)).(board := SetLife(s.board, Cur(s, w), Finished))
    case SwitchOut => Set(s, w, s.workers[w].(stage := Back)).(board := s.board.(saved := s.board.saved + {Cur(s, w)}))
    case Inspect =>
      var wk := s.workers[w];
      (match s.board.life[Cur(s, w)]
       case Ready => Set(s, w, wk.(stage := Requeue))
       case Finished => Set(s, w, wk.(stage := Reap))
       case Blocked => Set(s, w, wk.(stage := Top, hold := []))
                       .(board := s.board.(parked := s.board.parked + {Cur(s, w)}))
       case _ => Set(s, w, wk.(stage := Top, hold := [])))
    case PushBack => PushLocal(s, w, Cur(s, w), s.workers[w].(stage := Top, hold := []))
    case Release =>
      Set(s, w, s.workers[w].(stage := Top, hold := []))
      .(board := SetLife(s.board, Cur(s, w), Free).(saved := s.board.saved - {Cur(s, w)}))
  }

  function OutsideApply(kernel: nat -> int, s: State, st: OutsideStep): State
    requires OutsideEnabled(s, st)
  {
    match st
    case Complete(w, i) =>
      var wk := s.workers[w];
      var q := wk.flight[i];
      Set(s, w, wk.(flight := wk.flight[..i] + wk.flight[i + 1..], cq := wk.cq + [Cqe(q.slot, q.num, kernel(q.num))],
                    own := wk.own.(sent := wk.own.sent - 1)))
    case Allocate(a, id) => s.(agents := s.agents[a := Init(id)], board := SetLife(s.board, id, Created))
    case InitReady(a) =>
      var id := s.agents[a].id;
      s.(agents := s.agents[a := Push(id)], board := SetLife(s.board, id, Ready).(saved := s.board.saved + {id}))
    case AgentPush(a) => s.(agents := s.agents[a := Idle], global := s.global + [s.agents[a].id])
    case TimerPop(a, i) =>
      s.(agents := s.agents[a := Timer(s.sleepers[i])], sleepers := s.sleepers[..i] + s.sleepers[i + 1..])
    case TimerLook(a) =>
      var id := s.agents[a].id;
      if s.board.life[id] == Blocked then s.(agents := s.agents[a := Push(id)], board := Woken(s.board, id))
      else s.(agents := s.agents[a := Idle])
  }

  function Apply(kernel: nat -> int, s: State, st: Step): State
    requires Enabled(s, st)
  {
    match st
    case Loop(w, l) => LoopApply(s, w, l)
    case Pop(w, p) => PopApply(s, w, p)
    case Thread(w, t) => ThreadApply(s, w, t)
    case Outside(o) => OutsideApply(kernel, s, o)
  }

  /** `wake_gvthread` after it has seen Blocked: the thread becomes Ready and stops waiting. */
  function Woken(b: Board, id: Id): Board
    requires id < |b.life|
  {
    SetLife(b, id, Ready).(parked := b.parked - {id}, awaiting := b.awaiting - {id})
  }

  /** A worker before its first turn, with some seed. */
  function Fresh(rng: nat): Worker { Worker(Top, [], [], [], [], [], Own(0, rng, 0, 0, 0, false)) }

  /** No slot in use, all workers at the top of their loop. */
  predicate Initial(s: State) {
    && (forall i | 0 <= i < |s.board.life| :: s.board.life[i] == Free)
    && |s.board.results| == |s.board.life|
    && s.board.saved == {} && s.board.parked == {} && s.board.awaiting == map[] && s.board.reading == map[]
    && s.global == [] && s.sleepers == []
    && (forall i | 0 <= i < |s.workers| :: s.workers[i] == Fresh(s.workers[i].own.rng))
    && (forall i | 0 <= i < |s.agents| :: s.agents[i] == Idle)
  }

  /** The state after running `steps`, each of which must be enabled when its turn comes. */
  ghost predicate Run(kernel: nat -> int, s: State, steps: seq<Step>, t: State)
    decreases |steps|
  {
    if steps == [] then t == s
    else Enabled(s, steps[0]) && Run(kernel, Apply(kernel, s, steps[0]), steps[1..], t)
  }

  /** A timer wake that looks at a thread which has stored Blocked but which its worker has not let go of yet. */
  predicate WakesTooEarly(s: State, st: Step) {
    && st.Outside? && st.o.TimerLook? && Enabled(s, st)
    && var id := s.agents[st.o.a].id;
    s.board.life[id] == Blocked && id !in s.board.parked
  }

  /** No step of the run is a premature timer wake. */
  ghost predicate Timely(kernel: nat -> int, s: State, steps: seq<Step>)
    decreases |steps|
  {
    steps == [] ||
    (Enabled(s, steps[0]) && !WakesTooEarly(s, steps[0]) && Timely(kernel, Apply(kernel, s, steps[0]), steps[1..]))
  }
}
