/** Idle workers and wake-ups: `GlobalQueue::park`, the notifications sent by pushes, and the worker loop between them.

    A step is one locked queue operation, one read or update of the parked counter, or one notification.  The worker
    threads push only to their own local queue; any number of other pushers use the global queue. */
module Parking {
  import opened Basics

  type Id = nat

  /** The checks of the parked counter a push still has to make: `more` further ones after the current one, which
      has found a parked worker (`sure`) and is about to notify, or is yet to read the counter. */
  datatype Tell = Tell(more: nat, sure: bool)

  /** `Grab` .. `Spill` have popped `id` and still move other ids to the local queue; `Run` has it from the pop. */
  datatype Pc =
    | Look | LookLocal | LookGlobal | Grab(id: Id) | Unload(id: Id, batch: seq<Id>) | Steal
    | Haul(id: Id, ids: seq<Id>) | Spill(id: Id, ids: seq<Id>, sure: bool)
    | Run(id: Id)
    | Telling(tell: Tell, running: Option<Id>)
    | Nothing    // pop returned None
    | Counted    // parked counter incremented, lock not yet taken
    | Waiting    // inside the condvar wait
    | Leaving    // wait over or not needed, parked counter not yet decremented
    | IoWait     // blocked in the ring of the worker until a completion arrives

  datatype Pusher = Out | Busy(tell: Tell)

  /** `flying` counts each worker's requests in flight on its ring; without the I/O hooks there are none.  `pushed` and
      `handed` are all ids ever pushed and all ids ever returned by a pop. */
  datatype State = State(locals: seq<seq<Id>>, global: seq<Id>, pcs: seq<Pc>, pushers: seq<Pusher>, parked: nat,
                         flying: seq<nat>, pushed: multiset<Id>, handed: multiset<Id>)

  datatype PopStep = SkipCheck | CheckGlobal | PopLocal | PopGlobal | GrabBatch | UnloadOne | UnloadDone
    | StealHalf(victim: nat) | HaulOne | SpillRead | SpillNotify(v: nat) | HaulDone | NoWork

  datatype IdleStep = Spin | Count | Check | WakeUp | Leave | WaitIo | IoDone(n: nat)

  datatype WorkStep =
    | Push(id: Id, hint: bool) | PushBack | LetGo | SubmitIo | Reap(n: nat) | Read | Notify(v: nat)

  datatype Step =
    | Pop(w: nat, pop: PopStep) | Idle(w: nat, i: IdleStep) | Work(w: nat, k: WorkStep)
    | OutPush(p: nat, id: Id) | OutRead(p: nat) | OutNotify(p: nat, v: nat)

  // ── Steps ──

  predicate Shaped(s: State) { |s.locals| == |s.pcs| == |s.flying| }

  predicate At(s: State, w: nat, pc: Pc) { w < |s.pcs| && s.pcs[w] == pc }

  /** `notify_one` wakes a waiting worker v if there is any, and nobody otherwise. */
  predicate Reaches(s: State, v: nat) {
    At(s, v, Waiting) || forall i | 0 <= i < |s.pcs| :: s.pcs[i] != Waiting
  }

  function Notified(s: State, v: nat): State {
    if At(s, v, Waiting) then s.(pcs := s.pcs[v := Leaving]) else s
  }

  function Goto(s: State, w: nat, pc: Pc): State
    requires w < |s.pcs|
  {
    s.(pcs := s.pcs[w := pc])
  }

  /** The pop returns id. */
  function HandOut(s: State, w: nat, id: Id): State
    requires w < |s.pcs|
  {
    Goto(s, w, Run(id)).(handed := s.handed + multiset{id})
  }

  predicate PopEnabled(s: State, w: nat, st: PopStep) {
    && w < |s.pcs| && Shaped(s)
    && match st
       case SkipCheck => s.pcs[w] == Look
       case CheckGlobal => s.pcs[w] == Look && s.global != []
       case PopLocal => s.pcs[w] == LookLocal
       case PopGlobal => s.pcs[w] == LookGlobal
       case GrabBatch => s.pcs[w].Grab?
       case UnloadOne => s.pcs[w].Unload? && s.pcs[w].batch != []
       case UnloadDone => s.pcs[w].Unload? && s.pcs[w].batch == []
       case StealHalf(v) => s.pcs[w] == Steal && v < |s.pcs| && v != w && |s.locals[v]| / 2 > 0
       case HaulOne => s.pcs[w].Haul? && s.pcs[w].ids != []
       case SpillRead => s.pcs[w].Spill? && !s.pcs[w].sure
       case SpillNotify(v) => s.pcs[w].Spill? && s.pcs[w].sure && Reaches(s, v)
       case HaulDone => s.pcs[w].Haul? && s.pcs[w].ids == []
       case NoWork => s.pcs[w] == Steal
  }

  function PopApply(s: State, w: nat, st: PopStep): State
    requires PopEnabled(s, w, st)
  {
    match st
    case SkipCheck => Goto(s, w, LookLocal)
    case CheckGlobal => HandOut(s, w, s.global[0]).(global := s.global[1..])
    case PopLocal =>
      if s.locals[w] == [] then Goto(s, w, LookGlobal)
      else HandOut(s, w, s.locals[w][0]).(locals := s.locals[w := s.locals[w][1..]])
    case PopGlobal =>
      if s.global == [] then Goto(s, w, Steal) else Goto(s, w, Grab(s.global[0])).(global := s.global[1..])
    case GrabBatch =>
      var n := if |s.global| < BATCH then |s.global| else BATCH;
      Goto(s, w, Unload(s.pcs[w].id, s.global[..n])).(global := s.global[n..])
    case UnloadOne =>
      var b := s.pcs[w].batch;
      Goto(s, w, Unload(s.pcs[w].id, b[1..]))
      .(locals := if |s.locals[w]| < LOCAL_CAPACITY then s.locals[w := s.locals[w] + [b[0]]] else s.locals)
    case UnloadDone => HandOut(s, w, s.pcs[w].id)
    case StealHalf(v) =>
      var n := |s.locals[v]| / 2;
      var taken := s.locals[v][..n];
      Goto(s, w, Haul(taken[0], taken[1..])).(locals := s.locals[v := s.locals[v][n..]])
    case HaulOne =>
      var (id, ids) := (s.pcs[w].id, s.pcs[w].ids);
      if |s.locals[w]| < LOCAL_CAPACITY
      then Goto(s, w, Haul(id, ids[1..])).(locals := s.locals[w := s.locals[w] + [ids[0]]])
      else Goto(s, w, Spill(id, ids[1..], false)).(global := s.global + [ids[0]])
    case SpillRead =>
      var (id, ids) := (s.pcs[w].id, s.pcs[w].ids);
      Goto(s, w, if s.parked > 0 then Spill(id, ids, true) else Haul(id, ids))
    case SpillNotify(v) => Goto(Notified(s, v), w, Haul(s.pcs[w].id, s.pcs[w].ids))
    case HaulDone => HandOut(s, w, s.pcs[w].id)
    case NoWork => Goto(s, w, Nothing)
  }

  predicate IdleEnabled(s: State, w: nat, st: IdleStep) {
    && w < |s.pcs| && Shaped(s)
    && match st
       case Spin => s.pcs[w] == Nothing && s.flying[w] == 0
       case Count => s.pcs[w] == Nothing && s.flying[w] == 0
       case Check => s.pcs[w] == Counted
       case WakeUp => s.pcs[w] == Waiting
       case Leave => s.pcs[w] == Leaving && s.parked > 0
       case WaitIo => s.pcs[w] == Nothing && s.flying[w] > 0
       case IoDone(n) => s.pcs[w] == IoWait && 0 < n <= s.flying[w]
  }

  /** `Check` holds the queue's lock, which the condvar wait gives up atomically; `WakeUp` is the timeout.  A worker
      with requests in flight waits in its ring until some complete, any other spins or parks. */
  function IdleApply(s: State, w: nat, st: IdleStep): State
    requires IdleEnabled(s, w, st)
  {
    match st
    case Spin => Goto(s, w, Look)
    case Count => Goto(s, w, Counted).(parked := s.parked + 1)
    case Check => Goto(s, w, if s.global == [] then Waiting else Leaving)
    case WakeUp => Goto(s, w, Leaving)
    case Leave => Goto(s, w, Look).(parked := s.parked - 1)
    case WaitIo => Goto(s, w, IoWait)
    case IoDone(n) => Goto(s, w, Look).(flying := s.flying[w := s.flying[w] - n])
  }

  predicate WorkEnabled(s: State, w: nat, st: WorkStep) {
    && w < |s.pcs| && Shaped(s)
    && match st
       case Push(_, _) => s.pcs[w].Run? || s.pcs[w] == Look
       case PushBack => s.pcs[w].Run?
       case LetGo => s.pcs[w].Run?
       case SubmitIo => s.pcs[w].Run?
       case Reap(n) => s.pcs[w] == Look && 0 < n <= s.flying[w]
       case Read => s.pcs[w].Telling? && !s.pcs[w].tell.sure
       case Notify(v) => s.pcs[w].Telling? && s.pcs[w].tell.sure && Reaches(s, v)
  }

  /** What remains of a push after one check is done. */
  function Done(t: Tell, running: Option<Id>): Pc {
    if t.more > 0 then Telling(Tell(t.more - 1, false), running)
    else if running.Some? then Run(running.value) else Look
  }

  function Pushing(s: State, w: nat, id: Id, hint: bool, running: Option<Id>): State
    requires w < |s.pcs| == |s.locals|
  {
    var t := s.(pushed := s.pushed + multiset{id});
    if hint && |s.locals[w]| < LOCAL_CAPACITY
    then Goto(t, w, Telling(Tell(0, false), running)).(locals := s.locals[w := s.locals[w] + [id]])
    else Goto(t, w, Telling(Tell(1, false), running)).(global := s.global + [id])
  }

  function WorkApply(s: State, w: nat, st: WorkStep): State
    requires WorkEnabled(s, w, st)
  {
    match st
    case Push(id, hint) => Pushing(s, w, id, hint, if s.pcs[w].Run? then Some(s.pcs[w].id) else None)
    case PushBack => Pushing(s, w, s.pcs[w].id, true, None)
    case LetGo => Goto(s, w, Look)
    case SubmitIo => Goto(s, w, Look).(flying := s.flying[w := s.flying[w] + 1])
    case Reap(n) => s.(flying := s.flying[w := s.flying[w] - n])
    case Read =>
      var t := s.pcs[w].tell;
      Goto(s, w, if s.parked > 0 then s.pcs[w].(tell := t.(sure := true)) else Done(t, s.pcs[w].running))
    case Notify(v) => Goto(Notified(s, v), w, Done(s.pcs[w].tell, s.pcs[w].running))
  }

  predicate Enabled(s: State, st: Step) {
    match st
    case Pop(w, p) => PopEnabled(s, w, p)
    case Idle(w, i) => IdleEnabled(s, w, i)
    case Work(w, k) => WorkEnabled(s, w, k)
    case OutPush(p, _) => p < |s.pushers| && s.pushers[p] == Out
    case OutRead(p) => p < |s.pushers| && s.pushers[p].Busy? && !s.pushers[p].tell.sure
    case OutNotify(p, v) => p < |s.pushers| && s.pushers[p].Busy? && s.pushers[p].tell.sure && Reaches(s, v)
  }

  function OutDone(t: Tell): Pusher {
    if t.more > 0 then Busy(Tell(t.more - 1, false)) else Out
  }

  function Apply(s: State, st: Step): State
    requires Enabled(s, st)
  {
    match st
    case Pop(w, p) => PopApply(s, w, p)
    case Idle(w, i) => IdleApply(s, w, i)
    case Work(w, k) => WorkApply(s, w, k)
    case OutPush(p, id) =>
      s.(global := s.global + [id], pushed := s.pushed + multiset{id}, pushers := s.pushers[p := Busy(Tell(1, false))])
    case OutRead(p) =>
      var t := s.pushers[p].tell;
      s.(pushers := s.pushers[p := if s.parked > 0 then Busy(t.(sure := true)) else OutDone(t)])
    case OutNotify(p, v) =>
      Notified(s, v).(pushers := s.pushers[p := OutDone(s.pushers[p].tell)])
  }

  predicate Initial(s: State) {
    && Shaped(s) && s.global == [] && s.parked == 0 && s.pushed == multiset{} && s.handed == multiset{}
    && (forall w | 0 <= w < |s.pcs| :: s.pcs[w] == Look && s.locals[w] == [] && s.flying[w] == 0)
    && (forall p | 0 <= p < |s.pushers| :: s.pushers[p] == Out)
  }

  ghost predicate Runs(s: State, steps: seq<Step>, t: State)
    decreases |steps|
  {
    if steps == [] then t == s else Enabled(s, steps[0]) && Runs(Apply(s, steps[0]), steps[1..], t)
  }

  // ── The invariant ──

  /** Program points between the parked counter's increment and its decrement. */
  predicate Inside(pc: Pc) { pc == Counted || pc == Waiting || pc == Leaving }

  function CountInside(pcs: seq<Pc>): nat {
    if pcs == [] then 0 else (if Inside(pcs[0]) then 1 else 0) + CountInside(pcs[1..])
  }

  /** Program points that a worker reaches only after finding its own local queue empty. */
  predicate FoundEmpty(pc: Pc) {
    pc in {LookGlobal, Steal, Nothing, Counted, Waiting, IoWait} || pc.Grab?
  }

  /** A push that has not yet finished its first check of the parked counter. */
  predicate Pending(p: Pusher) { p.Busy? && p.tell.more == 1 }

  predicate AllWaiting(s: State) { forall w | 0 <= w < |s.pcs| :: s.pcs[w] == Waiting }

  predicate EmptyLocals(s: State)
    requires Shaped(s)
  {
    forall w | 0 <= w < |s.pcs| :: FoundEmpty(s.pcs[w]) ==> s.locals[w] == []
  }

  predicate SomePending(s: State) { exists p :: 0 <= p < |s.pushers| && Pending(s.pushers[p]) }

  predicate Inv(s: State) {
    && Shaped(s) && |s.pcs| > 0
    && EmptyLocals(s)
    && s.parked == CountInside(s.pcs)
    && (s.global != [] && AllWaiting(s) ==> SomePending(s))
  }

  lemma {:induction false} CountUpdate(pcs: seq<Pc>, w: nat, pc: Pc)
    requires w < |pcs|
    ensures CountInside(pcs[w := pc]) + (if Inside(pcs[w]) then 1 else 0) ==
      CountInside(pcs) + (if Inside(pc) then 1 else 0)
  {
    if w == 0 {
      assert pcs[0 := pc][1..] == pcs[1..];
    } else {
      CountUpdate(pcs[1..], w - 1, pc);
      assert pcs[w := pc][1..] == pcs[1..][w - 1 := pc];
    }
  }

  lemma {:induction false} CountOne(pcs: seq<Pc>, w: nat)
    requires w < |pcs| && Inside(pcs[w])
    ensures CountInside(pcs) > 0
  {
    if w > 0 {
      CountOne(pcs[1..], w - 1);
    }
  }

  lemma StillPending(s: State, t: State, p: nat)
    requires p < |s.pushers| == |t.pushers| && Pending(t.pushers[p])
    ensures SomePending(t)
  {
  }

  /** A worker moving to a place other than the wait keeps the invariant if its local queue allows it. */
  lemma MoveKeeps(s: State, w: nat, t: State)
    requires Inv(s) && w < |s.pcs| == |t.pcs| && t.pcs == s.pcs[w := t.pcs[w]] && Shaped(t)
    requires t.pcs[w] != Waiting
    requires FoundEmpty(t.pcs[w]) ==> t.locals[w] == []
    requires forall v | 0 <= v < |s.pcs| && v != w :: s.locals[v] == [] ==> t.locals[v] == []
    requires t.parked + (if Inside(s.pcs[w]) then 1 else 0) == s.parked + (if Inside(t.pcs[w]) then 1 else 0)
    ensures Inv(t)
  {
    CountUpdate(s.pcs, w, t.pcs[w]);
  }

  /** What MoveKeeps asks of worker w's move. */
  predicate Moves(s: State, t: State, w: nat) {
    && Shaped(s) && Shaped(t) && w < |s.pcs| == |t.pcs| && t.pcs == s.pcs[w := t.pcs[w]] && t.pcs[w] != Waiting
    && (FoundEmpty(t.pcs[w]) ==> t.locals[w] == [])
    && (forall v | 0 <= v < |s.pcs| && v != w :: s.locals[v] == [] ==> t.locals[v] == [])
    && t.parked == s.parked && !Inside(s.pcs[w]) && !Inside(t.pcs[w])
  }

  lemma PopMoves(s: State, w: nat, st: PopStep)
    requires Shaped(s) && EmptyLocals(s) && PopEnabled(s, w, st) && !st.SpillNotify? && !st.StealHalf?
    ensures Moves(s, PopApply(s, w, st), w)
  {
    if st.GrabBatch? || st.UnloadOne? || st.UnloadDone? || st.HaulOne? || st.HaulDone? || st.SpillRead? {
      CarryMoves(s, w, st);
      hide PopApply;
    } else {
      hide FoundEmpty;
      LookMoves(s, w, st);
      hide PopApply;
    }
  }

  lemma LookMoves(s: State, w: nat, st: PopStep)
    requires Shaped(s) && EmptyLocals(s) && PopEnabled(s, w, st)
    requires st.SkipCheck? || st.CheckGlobal? || st.PopLocal? || st.PopGlobal? || st.NoWork?
    ensures Moves(s, PopApply(s, w, st), w)
  {
    assert FoundEmpty(s.pcs[w]) ==> s.locals[w] == [];
    hide EmptyLocals;
  }

  lemma CarryMoves(s: State, w: nat, st: PopStep)
    requires Shaped(s) && PopEnabled(s, w, st)
    requires st.GrabBatch? || st.UnloadOne? || st.UnloadDone? || st.HaulOne? || st.HaulDone? || st.SpillRead?
    ensures Moves(s, PopApply(s, w, st), w)
  {
  }

  lemma StealMoves(s: State, w: nat, v: nat)
    requires Shaped(s) && EmptyLocals(s) && PopEnabled(s, w, StealHalf(v))
    ensures Moves(s, PopApply(s, w, StealHalf(v)), w)
  {
  }

  lemma PopKeeps(s: State, w: nat, st: PopStep)
    requires Inv(s) && PopEnabled(s, w, st) && !st.SpillNotify?
    ensures Inv(PopApply(s, w, st))
  {
    assert Shaped(s) && EmptyLocals(s);
    hide Inv, EmptyLocals, PopApply, PopEnabled;
    if st.StealHalf? {
      StealMoves(s, w, st.victim);
    } else {
      PopMoves(s, w, st);
    }
    MoveKeeps(s, w, PopApply(s, w, st));
  }

  lemma NotifyKeeps(s: State, v: nat)
    requires Inv(s) && Reaches(s, v)
    ensures Inv(Notified(s, v)) && !AllWaiting(Notified(s, v))
  {
    if At(s, v, Waiting) {
      MoveKeeps(s, v, Notified(s, v));
    } else {
      assert s.pcs[0] != Waiting;
    }
  }

  lemma IdleKeeps(s: State, w: nat, st: IdleStep)
    requires Inv(s) && IdleEnabled(s, w, st)
    ensures Inv(IdleApply(s, w, st))
  {
    var t := IdleApply(s, w, st);
    if t.pcs[w] == Waiting {
      CountUpdate(s.pcs, w, Waiting);
    } else {
      MoveKeeps(s, w, t);
      hide Inv;
    }
  }

  lemma WorkKeeps(s: State, w: nat, st: WorkStep)
    requires Inv(s) && WorkEnabled(s, w, st) && !st.Notify?
    ensures Inv(WorkApply(s, w, st))
  {
    MoveKeeps(s, w, WorkApply(s, w, st));
    hide Inv;
  }

  lemma ReadKeeps(s: State, p: nat)
    requires Inv(s) && Enabled(s, OutRead(p))
    ensures Inv(Apply(s, OutRead(p)))
  {
    var t := Apply(s, OutRead(p));
    if s.global != [] && AllWaiting(s) {
      CountOne(s.pcs, 0);
      var k :| 0 <= k < |s.pushers| && Pending(s.pushers[k]);
      StillPending(s, t, k);
    }
  }

  lemma NotifyStepKeeps(s: State, w: nat, v: nat, pc: Pc)
    requires Inv(s) && Reaches(s, v) && w < |s.pcs| && s.pcs[w] != Waiting && !Inside(s.pcs[w])
    requires !Inside(pc) && !FoundEmpty(pc)
    ensures Inv(Goto(Notified(s, v), w, pc))
  {
    NotifyKeeps(s, v);
    MoveKeeps(Notified(s, v), w, Goto(Notified(s, v), w, pc));
    hide Inv;
  }

  /** Every step keeps the invariant. */
  lemma StepKeeps(s: State, st: Step)
    requires Inv(s) && Enabled(s, st)
    ensures Inv(Apply(s, st))
  {
    match st
    case Pop(w, p) =>
      if p.SpillNotify? {
        hide Inv;
        NotifyStepKeeps(s, w, p.v, Haul(s.pcs[w].id, s.pcs[w].ids));
      } else {
        PopKeeps(s, w, p);
      }
    case Idle(w, i) => IdleKeeps(s, w, i);
    case Work(w, k) =>
      if k.Notify? {
        hide Inv;
        NotifyStepKeeps(s, w, k.v, Done(s.pcs[w].tell, s.pcs[w].running));
      } else {
        WorkKeeps(s, w, k);
      }
    case OutPush(p, _) => StillPending(s, Apply(s, st), p);
    case OutRead(p) => ReadKeeps(s, p);
    case OutNotify(p, v) => NotifyKeeps(s, v);
  }

  lemma {:induction false} RunKeeps(s: State, steps: seq<Step>, t: State)
    requires Inv(s) && Runs(s, steps, t)
    ensures Inv(t)
    decreases |steps|
  {
    if steps != [] {
      StepKeeps(s, steps[0]);
      RunKeeps(Apply(s, steps[0]), steps[1..], t);
    }
  }

  ghost predicate Reached(s: State) {
    exists s0, steps :: Initial(s0) && |s0.pcs| > 0 && Runs(s0, steps, s)
  }

  lemma ReachedInv(s: State)
    requires Reached(s)
    ensures Inv(s)
  {
    var s0, steps :| Initial(s0) && |s0.pcs| > 0 && Runs(s0, steps, s);
    NobodyInside(s0.pcs);
    RunKeeps(s0, steps, s);
  }

  lemma {:induction false} NobodyInside(pcs: seq<Pc>)
    requires forall w | 0 <= w < |pcs| :: pcs[w] == Look
    ensures CountInside(pcs) == 0
  {
    if pcs != [] {
      NobodyInside(pcs[1..]);
    }
  }

  // ── What follows ──

  predicate HasWork(s: State) { s.global != [] || exists w :: 0 <= w < |s.locals| && s.locals[w] != [] }

  /** No idle-with-work: while anything is queued, some worker is not in the condvar wait or some push still has its
      first notification ahead of it. */
  lemma NoIdleWithWork(s: State)
    requires Reached(s) && HasWork(s)
    ensures !AllWaiting(s) || SomePending(s)
  {
    ReachedInv(s);
  }

  /** That notification is really sent, and it ends a wait: the pending push cannot find the parked counter at zero,
      and once it has read the counter, its next step takes a worker out of the wait. */
  lemma PendingPushWakes(s: State, p: nat, v: nat)
    requires Reached(s) && AllWaiting(s) && p < |s.pushers| && Pending(s.pushers[p])
    ensures !s.pushers[p].tell.sure ==>
      Enabled(s, OutRead(p)) && Apply(s, OutRead(p)).pushers[p] == Busy(Tell(1, true))
    ensures s.pushers[p].tell.sure && Enabled(s, OutNotify(p, v)) ==>
      v < |s.pcs| && Apply(s, OutNotify(p, v)).pcs[v] == Leaving
  {
    ReachedInv(s);
    CountOne(s.pcs, 0);
    assert s.pcs[0] == Waiting;
  }

  /** A waiting worker has nothing in its own queue, and the parked counter covers every waiter. */
  lemma WaitersAreEmptyAndCounted(s: State, w: nat)
    requires Reached(s) && At(s, w, Waiting)
    ensures w < |s.locals| && s.locals[w] == [] && s.parked > 0
  {
    ReachedInv(s);
    CountOne(s.pcs, w);
  }

  // ── With the I/O hooks ──

  /** Blocked on the condvar or in the ring. */
  predicate Dozes(pc: Pc) { pc == Waiting || pc == IoWait }

  predicate AllDozing(s: State) { forall w | 0 <= w < |s.pcs| :: Dozes(s.pcs[w]) }

  /** Queued work has somebody awake or a notification ahead of it. */
  predicate Covered(s: State) { HasWork(s) && AllDozing(s) ==> SomePending(s) }

  predicate OnlyPending(s: State, p: nat) {
    && p < |s.pushers| && Pending(s.pushers[p])
    && forall q | 0 <= q < |s.pushers| && q != p :: !Pending(s.pushers[q])
  }

  /** The three steps that leave work uncovered: the last worker awake goes to wait in its ring although the global
      queue is not empty and no push is pending; the only pending push finds the parked counter at zero because
      everybody is in a ring; or its notification reaches nobody for that reason. */
  predicate Uncovers(s: State, st: Step) {
    s.global != [] &&
    match st
    case Idle(w, WaitIo) => (forall v | 0 <= v < |s.pcs| && v != w :: Dozes(s.pcs[v])) && !SomePending(s)
    case OutRead(p) => AllDozing(s) && OnlyPending(s, p) && s.parked == 0
    case OutNotify(p, v) => AllDozing(s) && OnlyPending(s, p) && !At(s, v, Waiting)
    case _ => false
  }

  /** While everybody dozes, all work is in the global queue. */
  lemma DozersHaveNone(s: State)
    requires Inv(s) && AllDozing(s)
    ensures HasWork(s) <==> s.global != []
  {
  }

  lemma PendingIff(s: State, t: State, p: nat)
    requires p < |s.pushers| == |t.pushers| && t.pushers == s.pushers[p := t.pushers[p]]
    requires !Pending(t.pushers[p])
    ensures SomePending(t) <==> exists q :: 0 <= q < |s.pushers| && q != p && Pending(s.pushers[q])
  {
    if SomePending(t) {
      var q :| 0 <= q < |t.pushers| && Pending(t.pushers[q]);
      assert Pending(s.pushers[q]);
    }
    if q :| 0 <= q < |s.pushers| && q != p && Pending(s.pushers[q]) {
      assert Pending(t.pushers[q]);
    }
  }

  /** A worker's own steps: only the ring wait can leave work uncovered. */
  lemma WorkerUncoversIff(s: State, st: Step)
    requires Inv(s) && Covered(s) && Enabled(s, st) && (st.Pop? || st.Idle? || st.Work?)
    ensures Covered(Apply(s, st)) <==> !Uncovers(s, st)
  {
    StepKeeps(s, st);
    var t := Apply(s, st);
    assert t.pushers == s.pushers;
    if AllDozing(t) {
      DozersHaveNone(t);
      WorkerDozes(s, st);
    }
    hide Inv, HasWork;
    if st.Idle? && st.i == WaitIo {
      RingWaitDozes(s, st.w);
    }
    hide Apply, Enabled, AllDozing;
  }

  lemma RingWaitDozes(s: State, w: nat)
    requires IdleEnabled(s, w, WaitIo)
    ensures AllDozing(IdleApply(s, w, WaitIo)) <==> forall v | 0 <= v < |s.pcs| && v != w :: Dozes(s.pcs[v])
  {
    var t := IdleApply(s, w, WaitIo);
    assert forall v | 0 <= v < |s.pcs| && v != w :: t.pcs[v] == s.pcs[v];
  }

  /** The steps after which the acting worker dozes. */
  lemma WorkerDozes(s: State, st: Step)
    requires Enabled(s, st) && (st.Pop? || st.Idle? || st.Work?) && AllDozing(Apply(s, st))
    ensures st.Idle? && (st.i == WaitIo || (st.i == Check && s.global == [])) && Apply(s, st).global == s.global
  {
    match st
    case Pop(w, p) => PopStaysAwake(s, w, p);
    case Work(w, k) => WorkStaysAwake(s, w, k);
    case Idle(w, i) => assert Dozes(IdleApply(s, w, i).pcs[w]);
  }

  lemma PopStaysAwake(s: State, w: nat, st: PopStep)
    requires PopEnabled(s, w, st)
    ensures |PopApply(s, w, st).pcs| == |s.pcs| && !Dozes(PopApply(s, w, st).pcs[w])
  {
  }

  lemma WorkStaysAwake(s: State, w: nat, st: WorkStep)
    requires WorkEnabled(s, w, st)
    ensures |WorkApply(s, w, st).pcs| == |s.pcs| && !Dozes(WorkApply(s, w, st).pcs[w])
  {
  }

  lemma PusherUncoversIff(s: State, st: Step)
    requires Inv(s) && Covered(s) && Enabled(s, st) && (st.OutPush? || st.OutRead? || st.OutNotify?)
    ensures Covered(Apply(s, st)) <==> !Uncovers(s, st)
  {
    var t := Apply(s, st);
    if st.OutPush? {
      StillPending(s, t, st.p);
    } else {
      StepKeeps(s, st);
      if AllDozing(t) {
        DozersHaveNone(t);
        assert AllDozing(s) by { NotifiedIsAwake(s, st); }
        DozersHaveNone(s);
        hide Inv;
        if Pending(t.pushers[st.p]) {
          StillPending(s, t, st.p);
        } else {
          PendingIff(s, t, st.p);
        }
      } else {
        NotifiedIsAwake(s, st);
      }
    }
  }

  /** A notification that reaches a worker wakes it; nothing else a pusher does moves a worker. */
  lemma NotifiedIsAwake(s: State, st: Step)
    requires Inv(s) && Enabled(s, st) && (st.OutRead? || st.OutNotify?)
    ensures AllDozing(Apply(s, st)) <==> AllDozing(s) && (st.OutNotify? ==> !At(s, st.v, Waiting))
  {
    hide Inv;
    if st.OutNotify? && At(s, st.v, Waiting) {
      assert !Dozes(Apply(s, st).pcs[st.v]);
    }
  }

  /** From a reachable state in which queued work is covered, a step leaves work uncovered if and only if it is one of
      those three. */
  lemma UncoversIff(s: State, st: Step)
    requires Reached(s) && Covered(s) && Enabled(s, st)
    ensures Covered(Apply(s, st)) <==> !Uncovers(s, st)
  {
    ReachedInv(s);
    hide Reached, Inv, Covered, Uncovers, Apply;
    if st.Pop? || st.Idle? || st.Work? {
      WorkerUncoversIff(s, st);
    } else {
      PusherUncoversIff(s, st);
    }
  }

  ghost predicate AlwaysCovered(s: State, steps: seq<Step>)
    decreases |steps|
  {
    Covered(s) && (steps == [] || (Enabled(s, steps[0]) && AlwaysCovered(Apply(s, steps[0]), steps[1..])))
  }

  ghost predicate NeverUncovers(s: State, steps: seq<Step>)
    decreases |steps|
  {
    steps == [] || (Enabled(s, steps[0]) && !Uncovers(s, steps[0]) && NeverUncovers(Apply(s, steps[0]), steps[1..]))
  }

  /** Work is covered throughout a run if and only if the run contains none of those steps. */
  lemma {:induction false} CoveredIff(s: State, steps: seq<Step>, t: State)
    requires Reached(s) && Covered(s) && Runs(s, steps, t)
    ensures AlwaysCovered(s, steps) <==> NeverUncovers(s, steps)
    decreases |steps|
  {
    hide Reached, Covered, Uncovers, Apply, Enabled;
    if steps != [] {
      UncoversIff(s, steps[0]);
      ReachedOn(s, steps[0], Apply(s, steps[0]));
      if !Uncovers(s, steps[0]) {
        CoveredIff(Apply(s, steps[0]), steps[1..], t);
      }
    }
  }

  lemma {:induction false} RunsOn(s: State, steps: seq<Step>, t: State, st: Step)
    requires Runs(s, steps, t) && Enabled(t, st)
    ensures Runs(s, steps + [st], Apply(t, st))
    decreases |steps|
  {
    hide Enabled, Apply;
    if steps == [] {
      assert ([] + [st])[1..] == [];
      assert Runs(Apply(t, st), [], Apply(t, st));
    } else {
      RunsOn(Apply(s, steps[0]), steps[1..], t, st);
      assert (steps + [st])[1..] == steps[1..] + [st];
    }
  }

  lemma ReachedOn(s: State, st: Step, t: State)
    requires Reached(s) && Enabled(s, st) && Apply(s, st) == t
    ensures Reached(t)
  {
    hide Enabled, Apply;
    var s0, steps :| Initial(s0) && |s0.pcs| > 0 && Runs(s0, steps, s);
    RunsOn(s0, steps, s, st);
  }

  lemma ReachedFirst(s: State)
    requires Initial(s) && |s.pcs| > 0
    ensures Reached(s)
  {
    assert Runs(s, [], s);
  }

  /** A sole worker that has run thread 3, which submitted a request. */
  function Sole(pc: Pc): State { State([[]], [], [pc], [Out], 0, [1], multiset{3}, multiset{3}) }

  /** It then finds no work and waits in its ring. */
  lemma SoleWorkerInRing()
    ensures Reached(Sole(IoWait))
  {
    hide Reached;
    SoleThreadRuns();
    SoleLooks();
    ReachedOn(Sole(Steal), Pop(0, NoWork), Sole(Nothing));
    ReachedOn(Sole(Nothing), Idle(0, WaitIo), Sole(IoWait));
  }

  /** A thread is pushed, taken by the worker and submits a request. */
  lemma SoleThreadRuns()
    ensures Reached(Sole(Look))
  {
    hide Reached;
    var s := State([[]], [], [Look], [Out], 0, [0], multiset{}, multiset{});
    ReachedFirst(s);
    SolePush(s, 3);
    var a := s.(global := [3], pushed := multiset{3});
    var b := s.(pcs := [Run(3)], pushed := multiset{3}, handed := multiset{3});
    assert a.global[1..] == [] && multiset{} + multiset{3} == multiset{3};
    ReachedOn(a, Pop(0, CheckGlobal), b);
    ReachedOn(b, Work(0, SubmitIo), Sole(Look));
  }

  /** A push that finds nobody parked. */
  lemma SolePush(s: State, id: Id)
    requires s.pushers == [Out] && s.global == [] && s.parked == 0 && Reached(s)
    ensures Reached(s.(global := [id], pushed := s.pushed + multiset{id}))
  {
    hide Reached;
    var t := s.(global := [id], pushed := s.pushed + multiset{id});
    assert [] + [id] == [id];
    ReachedOn(s, OutPush(0, id), t.(pushers := [Busy(Tell(1, false))]));
    ReachedOn(t.(pushers := [Busy(Tell(1, false))]), OutRead(0), t.(pushers := [Busy(Tell(0, false))]));
    ReachedOn(t.(pushers := [Busy(Tell(0, false))]), OutRead(0), t);
  }

  lemma SoleLooks()
    requires Reached(Sole(Look))
    ensures Reached(Sole(Steal))
  {
    hide Reached;
    ReachedOn(Sole(Look), Pop(0, SkipCheck), Sole(LookLocal));
    ReachedOn(Sole(LookLocal), Pop(0, PopLocal), Sole(LookGlobal));
    ReachedOn(Sole(LookGlobal), Pop(0, PopGlobal), Sole(Steal));
  }

  /** A run of the code that leaves work uncovered: the only worker waits in its ring for the request of a thread it
      ran, is not counted as parked, and so a push finds nobody to notify. */
  lemma RingWaitersAreNotNotified()
    ensures exists s :: Reached(s) && s.global == [7] && s.pcs == [IoWait] && !Covered(s)
  {
    hide Reached;
    SoleWorkerInRing();
    SolePush(Sole(IoWait), 7);
    var s := Sole(IoWait).(global := [7], pushed := multiset{3} + multiset{7});
    assert Reached(s) && !Covered(s);
  }
}
