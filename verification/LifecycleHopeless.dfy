/** Waiting threads that no continuation whatever can wake: those without a request, completion or sleep entry, and
    those whose completion sits where a later poll will take it out of the ring without returning it. */
module LifecycleHopeless {
  import opened Basics
  import opened Bags
  import opened Lifecycle
  import opened LifecycleInvariant
  import opened LifecycleLost
  import opened LifecycleRuns

  /** The completion at this position of a ring is the surplus one of some poll: each poll that finds more than
      POLL_LIMIT takes POLL_LIMIT and drops the next. */
  predicate Surplus(i: nat) { i % (POLL_LIMIT + 1) == POLL_LIMIT }

  ghost predicate OnlySurplus(cq: seq<Cqe>, id: Id) {
    forall i | 0 <= i < |cq| && cq[i].slot == id :: Surplus(i)
  }

  ghost predicate NotAsked(flight: seq<Sqe>, id: Id) {
    forall i | 0 <= i < |flight| :: flight[i].slot != id
  }

  ghost predicate NotAmong(cs: seq<Cqe>, id: Id) {
    forall i | 0 <= i < |cs| :: cs[i].slot != id
  }

  /** Nothing on this worker's ring will wake id. */
  ghost predicate RingHopeless(wk: Worker, id: Id) {
    NotAsked(wk.flight, id) && NotAmong(wk.todo, id) && OnlySurplus(wk.cq, id)
  }

  /** Nothing will wake id: no request in flight, no polled completion, no sleep entry, and completions in the rings
      only at positions that will be dropped. */
  ghost predicate Hopeless(s: State, id: Id) {
    && id !in s.sleepers
    && (forall a | 0 <= a < |s.agents| :: s.agents[a] != Timer(id))
    && (forall w | 0 <= w < |s.workers| :: RingHopeless(s.workers[w], id))
  }

  /** A worker has a waiting thread at most on the way to its park. */
  predicate Carries(life: Life, wk: Worker, id: Id) {
    && id !in wk.local
    && (id in wk.hold ==> wk.hold == [id] && wk.stage in {Queued, Marked, Back})
    && (id in wk.hold && wk.stage != Queued ==> life == Blocked)
  }

  /** Where a waiting thread can be: in no queue and in no hand but the one that is parking it. */
  ghost predicate Adrift(s: State, id: Id) {
    && id in s.board.awaiting && id < |s.board.life| && s.board.life[id] in {Running, Blocked}
    && id !in s.global
    && (forall a | 0 <= a < |s.agents| :: s.agents[a] != Init(id) && s.agents[a] != Push(id))
    && (forall w | 0 <= w < |s.workers| :: Carries(s.board.life[id], s.workers[w], id))
  }

  lemma WaitingIsAdrift(k: nat -> int, s: State, id: Id)
    requires Inv(k, s) && id in s.board.awaiting
    ensures Adrift(s, id)
  {
    hide Counted, SleepersOk, GlobalOk, AgentsOk, WorkersOk, Carries;
    assert WaitOk(s, id);
    hide BoardOk;
    NotQueued(k, s, id);
    CarriedEverywhere(k, s, id);
  }

  lemma CarriedEverywhere(k: nat -> int, s: State, id: Id)
    requires WorkersOk(k, s) && id in s.board.awaiting && id < |s.board.life|
    ensures forall w | 0 <= w < |s.workers| :: Carries(s.board.life[id], s.workers[w], id)
  {
    hide WorkerOk, Carries;
    forall w | 0 <= w < |s.workers| ensures Carries(s.board.life[id], s.workers[w], id) {
      WaiterIsCarried(k, s.board, s.workers[w], w, id);
    }
  }

  lemma NotQueued(k: nat -> int, s: State, id: Id)
    requires GlobalOk(k, s) && AgentsOk(k, s) && id in s.board.awaiting
    ensures id !in s.global
    ensures forall a | 0 <= a < |s.agents| :: s.agents[a] != Init(id) && s.agents[a] != Push(id)
  {
    forall a | 0 <= a < |s.agents| ensures s.agents[a] != Init(id) && s.agents[a] != Push(id) {
      assert AgentOk(k, s.board, s.agents[a]);
    }
  }

  lemma WaiterIsCarried(k: nat -> int, b: Board, wk: Worker, w: nat, id: Id)
    requires WorkerOk(k, b, wk, w) && id in b.awaiting && id < |b.life|
    ensures Carries(b.life[id], wk, id)
  {
    hide RingOk;
    assert id !in wk.local by { hide HandsOk; }
    hide LocalOk;
    assert wk.stage in {Carry, Haul} ==> id !in wk.hold;
  }

  // ── Nothing brings such a thread back ──

  /** Only worker w, the board's other threads and the end of the global queue change. */
  ghost predicate Aside(s: State, t: State, w: nat, id: Id) {
    && w < |s.workers| == |t.workers| && t.workers == s.workers[w := t.workers[w]]
    && t.agents == s.agents && id !in t.sleepers
    && id !in t.global
    && id in t.board.awaiting && id < |t.board.life| && t.board.life[id] in {Running, Blocked}
  }

  lemma AsideKeeps(s: State, t: State, w: nat, id: Id)
    requires Adrift(s, id) && Hopeless(s, id) && |t.workers| > w && Aside(s, t, w, id)
    requires t.board.life[id] == s.board.life[id] || t.board.life[id] == Blocked
    requires Carries(t.board.life[id], t.workers[w], id) && RingHopeless(t.workers[w], id)
    ensures Adrift(t, id) && Hopeless(t, id)
  {
    hide RingHopeless;
    forall v | 0 <= v < |t.workers|
      ensures RingHopeless(t.workers[v], id) && Carries(t.board.life[id], t.workers[v], id)
    {
      if v != w {
        assert t.workers[v] == s.workers[v];
        assert RingHopeless(s.workers[v], id) && Carries(s.board.life[id], s.workers[v], id);
      }
    }
  }

  lemma PollKeepsHopeless(wk: Worker, id: Id)
    requires RingHopeless(wk, id)
    ensures var n := Least(|wk.cq|, POLL_LIMIT);
      NotAmong(wk.cq[..n], id) && OnlySurplus(wk.cq[Least(|wk.cq|, n + 1)..], id)
  {
    var n := Least(|wk.cq|, POLL_LIMIT);
    var m := Least(|wk.cq|, n + 1);
    forall i | 0 <= i < n ensures wk.cq[..n][i].slot != id {
      assert !Surplus(i);
      assert wk.cq[..n][i] == wk.cq[i];
    }
    forall i | 0 <= i < |wk.cq[m..]| && wk.cq[m..][i].slot == id ensures Surplus(i) {
      assert wk.cq[m..][i] == wk.cq[m + i];
      assert Surplus(m + i);
    }
  }

  lemma LoopKeepsHopeless(s: State, w: nat, st: LoopStep, id: Id)
    requires Adrift(s, id) && Hopeless(s, id) && LoopEnabled(s, w, st)
    ensures var t := LoopApply(s, w, st); Adrift(t, id) && Hopeless(t, id)
  {
    var t := LoopApply(s, w, st);
    assert RingHopeless(s.workers[w], id) && Carries(s.board.life[id], s.workers[w], id);
    if IsPoll(st) {
      PollKeepsHopeless(s.workers[w], id);
    }
    hide Hopeless, Surplus;
    assert id !in s.global && id !in s.sleepers && Aside(s, t, w, id) by {
      assert id !in s.sleepers;
    }
    AsideKeeps(s, t, w, id);
  }

  lemma PopKeepsHopeless(s: State, w: nat, st: PopStep, id: Id)
    requires Adrift(s, id) && Hopeless(s, id) && PopEnabled(s, w, st) && !st.StealHalf?
    ensures var t := PopApply(s, w, st); Adrift(t, id) && Hopeless(t, id)
  {
    assert RingHopeless(s.workers[w], id) && Carries(s.board.life[id], s.workers[w], id);
    assert id !in s.sleepers;
    hide Hopeless, Carries;
    PopLeaves(s, w, st, id, s.board.life[id]);
    hide PopApply;
    AsideKeeps(s, PopApply(s, w, st), w, id);
  }

  lemma PopLeaves(s: State, w: nat, st: PopStep, id: Id, life: Life)
    requires PopEnabled(s, w, st) && !st.StealHalf? && id !in s.global && Carries(life, s.workers[w], id)
    ensures var t := PopApply(s, w, st);
      && w < |s.workers| == |t.workers| && t.workers == s.workers[w := t.workers[w]] && t.board == s.board
      && t.agents == s.agents && t.sleepers == s.sleepers && id !in t.global && Carries(life, t.workers[w], id)
      && t.workers[w].flight == s.workers[w].flight && t.workers[w].todo == s.workers[w].todo &&
      t.workers[w].cq == s.workers[w].cq
  {
  }

  lemma StealKeepsHopeless(s: State, w: nat, v: nat, id: Id)
    requires Adrift(s, id) && Hopeless(s, id) && PopEnabled(s, w, StealHalf(v))
    ensures var t := PopApply(s, w, StealHalf(v)); Adrift(t, id) && Hopeless(t, id)
  {
    assert forall u | 0 <= u < |s.workers| ::
      RingHopeless(s.workers[u], id) && Carries(s.board.life[id], s.workers[u], id);
    var m := Set(s, v, s.workers[v].(local := s.workers[v].local[|s.workers[v].local| / 2..]));
    var t := PopApply(s, w, StealHalf(v));
    assert id !in s.sleepers;
    assert RingHopeless(m.workers[v], id) && RingHopeless(t.workers[w], id);
    hide Hopeless, RingHopeless;
    AsideKeeps(s, m, v, id);
    AsideKeeps(m, t, w, id);
  }

  lemma ThreadKeepsHopeless(s: State, w: nat, st: ThreadStep, id: Id)
    requires Adrift(s, id) && Hopeless(s, id) && ThreadEnabled(s, w, st)
    ensures var t := ThreadApply(s, w, st); Adrift(t, id) && Hopeless(t, id)
  {
    var t := ThreadApply(s, w, st);
    assert RingHopeless(s.workers[w], id) && Carries(s.board.life[id], s.workers[w], id);
    assert RingHopeless(t.workers[w], id) by { hide OnlySurplus, NotAmong; }
    assert id !in s.sleepers;
    hide Hopeless, RingHopeless;
    AsideKeeps(s, t, w, id);
  }

  lemma CompleteKeepsHopeless(k: nat -> int, s: State, w: nat, i: nat, id: Id)
    requires Adrift(s, id) && Hopeless(s, id) && OutsideEnabled(s, Complete(w, i))
    ensures var t := OutsideApply(k, s, Complete(w, i)); Adrift(t, id) && Hopeless(t, id)
  {
    var t := OutsideApply(k, s, Complete(w, i));
    assert RingHopeless(s.workers[w], id) && Carries(s.board.life[id], s.workers[w], id);
    assert id !in s.sleepers;
    hide Hopeless;
    AsideKeeps(s, t, w, id);
  }

  lemma OutsideKeepsHopeless(k: nat -> int, s: State, st: OutsideStep, id: Id)
    requires Adrift(s, id) && Hopeless(s, id) && OutsideEnabled(s, st) && !st.Complete?
    ensures var t := OutsideApply(k, s, st); Adrift(t, id) && Hopeless(t, id)
  {
    var t := OutsideApply(k, s, st);
    assert t.workers == s.workers && t.board.life[id] == s.board.life[id];
    assert id !in t.sleepers && id !in t.global;
    hide RingHopeless, Carries;
  }

  lemma StepKeepsHopeless(k: nat -> int, s: State, st: Step, id: Id)
    requires Adrift(s, id) && Hopeless(s, id) && Enabled(s, st)
    ensures var t := Apply(k, s, st); Adrift(t, id) && Hopeless(t, id)
  {
    hide Adrift, Hopeless, LoopEnabled, PopEnabled, ThreadEnabled, OutsideEnabled, LoopApply, PopApply, ThreadApply,
      OutsideApply;
    match st
    case Loop(w, l) => LoopKeepsHopeless(s, w, l, id);
    case Pop(w, p) =>
      if p.StealHalf? {
        StealKeepsHopeless(s, w, p.victim, id);
      } else {
        PopKeepsHopeless(s, w, p, id);
      }
    case Thread(w, t) => ThreadKeepsHopeless(s, w, t, id);
    case Outside(o) =>
      if o.Complete? {
        CompleteKeepsHopeless(k, s, o.w, o.i, id);
      } else {
        OutsideKeepsHopeless(k, s, o, id);
      }
  }

  lemma {:induction false} RunKeepsHopeless(k: nat -> int, s: State, steps: seq<Step>, t: State, id: Id)
    requires Adrift(s, id) && Hopeless(s, id) && Run(k, s, steps, t)
    ensures Adrift(t, id) && Hopeless(t, id)
    decreases |steps|
  {
    hide Adrift, Hopeless, Enabled, Apply;
    if steps != [] {
      StepKeepsHopeless(k, s, steps[0], id);
      RunKeepsHopeless(k, Apply(k, s, steps[0]), steps[1..], t, id);
    }
  }

  /** In no queue and not executing. */
  ghost predicate Idles(s: State, id: Id) {
    && id !in s.global
    && (forall w | 0 <= w < |s.workers| ::
          id !in s.workers[w].local && !(s.workers[w].stage == Exec && id in s.workers[w].hold))
  }

  /** At the end of every continuation, premature wakes included, a hopeless thread still waits, is still hopeless, is
      in no queue and does not execute. */
  lemma HopelessForever(k: nat -> int, s: State, steps: seq<Step>, t: State, id: Id)
    requires Inv(k, s) && id in s.board.awaiting && Hopeless(s, id) && Run(k, s, steps, t)
    ensures id in t.board.awaiting && Hopeless(t, id) && Idles(t, id)
  {
    WaitingIsAdrift(k, s, id);
    hide Inv, Hopeless, Run;
    RunKeepsHopeless(k, s, steps, t, id);
    forall w | 0 <= w < |t.workers|
      ensures id !in t.workers[w].local && !(t.workers[w].stage == Exec && id in t.workers[w].hold)
    {
      assert Carries(t.board.life[id], t.workers[w], id);
    }
  }

  // ── Forgotten threads ──

  /** No completion in a ring names id. */
  ghost predicate Silent(s: State, id: Id) {
    forall w | 0 <= w < |s.workers| :: NotAmong(s.workers[w].cq, id)
  }

  lemma RingNames(wk: Worker, id: Id)
    ensures id !in Ring(wk) <==> RingHopeless(wk, id) && NotAmong(wk.cq, id)
  {
    assert id in multiset(Asked(wk.flight)) <==> !NotAsked(wk.flight, id) by {
      assert forall i | 0 <= i < |wk.flight| :: Asked(wk.flight)[i] == wk.flight[i].slot;
    }
    SlotsName(wk.cq, id);
    SlotsName(wk.todo, id);
  }

  lemma SlotsName(cs: seq<Cqe>, id: Id)
    ensures id in multiset(Slots(cs)) <==> !NotAmong(cs, id)
  {
    assert forall i | 0 <= i < |cs| :: Slots(cs)[i] == cs[i].slot;
  }

  lemma {:induction false} InSum(bs: seq<multiset<Id>>, id: Id)
    ensures id in Sum(bs) <==> exists i :: 0 <= i < |bs| && id in bs[i]
  {
    if i :| 0 <= i < |bs| && id in bs[i] {
      SumSplit(bs, i);
    } else {
      NoneInSum(bs, id);
    }
  }

  lemma RingsName(s: State, id: Id)
    ensures id !in Sum(Rings(s.workers)) <==>
      forall w | 0 <= w < |s.workers| :: RingHopeless(s.workers[w], id) && NotAmong(s.workers[w].cq, id)
  {
    hide Ring, RingHopeless, NotAmong, Sum;
    InSum(Rings(s.workers), id);
    forall w | 0 <= w < |s.workers|
      ensures id !in Rings(s.workers)[w] <==>
        RingHopeless(s.workers[w], id) && NotAmong(s.workers[w].cq, id)
    {
      RingNames(s.workers[w], id);
    }
  }

  lemma TimersName(s: State, id: Id)
    ensures id !in Sum(AgentTimers(s.agents)) <==> forall a | 0 <= a < |s.agents| :: s.agents[a] != Timer(id)
  {
    hide Sum;
    InSum(AgentTimers(s.agents), id);
    forall a | 0 <= a < |s.agents| ensures id !in AgentTimers(s.agents)[a] <==> s.agents[a] != Timer(id) {
    }
  }

  lemma TicketlessIff(s: State, id: Id)
    ensures id !in Tickets(s) <==> Hopeless(s, id) && Silent(s, id)
  {
    RingsName(s, id);
    TimersName(s, id);
    hide Sum, Rings, AgentTimers, RingHopeless, NotAmong;
  }

  /** A completion in a ring was there before or completes a request in flight. */
  ghost predicate Drawn(wk: Worker, cq: seq<Cqe>) {
    forall i | 0 <= i < |cq| ::
      cq[i] in wk.cq || exists j :: 0 <= j < |wk.flight| && wk.flight[j].slot == cq[i].slot
  }

  lemma LoopDraws(s: State, u: nat, st: LoopStep, w: nat)
    requires LoopEnabled(s, u, st) && w < |s.workers|
    ensures |LoopApply(s, u, st).workers| == |s.workers| && Drawn(s.workers[w], LoopApply(s, u, st).workers[w].cq)
  {
  }

  lemma PopDraws(s: State, u: nat, st: PopStep, w: nat)
    requires PopEnabled(s, u, st) && w < |s.workers|
    ensures |PopApply(s, u, st).workers| == |s.workers| && PopApply(s, u, st).workers[w].cq == s.workers[w].cq
  {
  }

  lemma ThreadDraws(s: State, u: nat, st: ThreadStep, w: nat)
    requires ThreadEnabled(s, u, st) && w < |s.workers|
    ensures |ThreadApply(s, u, st).workers| == |s.workers| && ThreadApply(s, u, st).workers[w].cq == s.workers[w].cq
  {
  }

  lemma OutsideDraws(k: nat -> int, s: State, st: OutsideStep, w: nat)
    requires OutsideEnabled(s, st) && w < |s.workers|
    ensures |OutsideApply(k, s, st).workers| == |s.workers|
    ensures Drawn(s.workers[w], OutsideApply(k, s, st).workers[w].cq)
  {
  }

  lemma CqGrows(k: nat -> int, s: State, st: Step, w: nat)
    requires Enabled(s, st) && w < |s.workers|
    ensures |Apply(k, s, st).workers| == |s.workers| && Drawn(s.workers[w], Apply(k, s, st).workers[w].cq)
  {
    assert Drawn(s.workers[w], s.workers[w].cq);
    hide Drawn, LoopEnabled, PopEnabled, ThreadEnabled, OutsideEnabled, LoopApply, PopApply, ThreadApply, OutsideApply;
    match st
    case Loop(u, l) => LoopDraws(s, u, l, w);
    case Pop(u, p) => PopDraws(s, u, p, w);
    case Thread(u, t) => ThreadDraws(s, u, t, w);
    case Outside(o) => OutsideDraws(k, s, o, w);
  }

  lemma StepKeepsSilent(k: nat -> int, s: State, st: Step, id: Id)
    requires Hopeless(s, id) && Silent(s, id) && Enabled(s, st)
    ensures Silent(Apply(k, s, st), id)
  {
    hide Enabled, Apply;
    SameWorkers(k, s, st);
    forall w | 0 <= w < |s.workers| ensures NotAmong(Apply(k, s, st).workers[w].cq, id) {
      assert NotAmong(s.workers[w].cq, id) && RingHopeless(s.workers[w], id);
      CqGrows(k, s, st, w);
    }
  }

  lemma SameWorkers(k: nat -> int, s: State, st: Step)
    requires Enabled(s, st)
    ensures |Apply(k, s, st).workers| == |s.workers|
  {
    if |s.workers| > 0 {
      hide *;
      CqGrows(k, s, st, 0);
    } else {
      assert st.Outside?;
    }
  }

  lemma {:induction false} RunKeepsTicketless(k: nat -> int, s: State, steps: seq<Step>, t: State, id: Id)
    requires Adrift(s, id) && Hopeless(s, id) && Silent(s, id) && Run(k, s, steps, t)
    ensures Silent(t, id)
    decreases |steps|
  {
    hide Adrift, Hopeless, Silent, Enabled, Apply;
    if steps != [] {
      StepKeepsHopeless(k, s, steps[0], id);
      StepKeepsSilent(k, s, steps[0], id);
      RunKeepsTicketless(k, Apply(k, s, steps[0]), steps[1..], t, id);
    }
  }

  /** A forgotten thread never runs again: at the end of every continuation, premature wakes included, it is still
      waiting, still without anything that could wake it, in no queue and not executing. */
  lemma ForgottenForever(k: nat -> int, s: State, steps: seq<Step>, t: State, id: Id)
    requires Inv(k, s) && Forgotten(s, id) && Run(k, s, steps, t)
    ensures Forgotten(t, id) && Idles(t, id)
  {
    hide Inv, Run, Tickets, Hopeless, Silent, Idles, Adrift;
    TicketlessIff(s, id);
    WaitingIsAdrift(k, s, id);
    HopelessForever(k, s, steps, t, id);
    RunKeepsTicketless(k, s, steps, t, id);
    TicketlessIff(t, id);
  }

  // ── The two kinds of hopeless threads ──

  /** The thread's completion will be dropped. */
  ghost predicate WillDrop(s: State, id: Id) {
    exists w, i :: DropsAt(s, w, i, id)
  }

  predicate DropsAt(s: State, w: nat, i: nat, id: Id) {
    w < |s.workers| && i < |s.workers[w].cq| && s.workers[w].cq[i].slot == id && Surplus(i)
  }

  lemma Twice(q: seq<Id>, i: nat, j: nat)
    requires i < j < |q| && q[i] == q[j]
    ensures multiset(q)[q[i]] >= 2
  {
    assert q == q[..j] + [q[j]] + q[j + 1..];
    assert q[i] in q[..j];
  }

  lemma OneCompletion(wk: Worker, i: nat, id: Id)
    requires i < |wk.cq| && wk.cq[i].slot == id && Surplus(i) && Ring(wk)[id] <= 1
    ensures RingHopeless(wk, id)
  {
    var q := Slots(wk.cq);
    assert q[i] == id;
    assert id in multiset(q);
    hide Surplus;
    forall j | 0 <= j < |wk.cq| && wk.cq[j].slot == id ensures Surplus(j) {
      assert q[j] == id;
      if i < j {
        Twice(q, i, j);
      } else if j < i {
        Twice(q, j, i);
      }
    }
    assert id !in multiset(Asked(wk.flight)) && id !in multiset(Slots(wk.todo));
    SlotsName(wk.todo, id);
    assert forall j | 0 <= j < |wk.flight| :: Asked(wk.flight)[j] == wk.flight[j].slot;
  }

  lemma DroppedIsHopeless(k: nat -> int, s: State, w: nat, i: nat, id: Id)
    requires Inv(k, s) && DropsAt(s, w, i, id)
    ensures Hopeless(s, id)
  {
    assert id in Ring(s.workers[w]) by { assert Slots(s.workers[w].cq)[i] == id; }
    RingHolder(k, s, w, id);
    hide Inv, Ring;
    TimersName(s, id);
    OneCompletion(s.workers[w], i, id);
    forall v | 0 <= v < |s.workers| ensures RingHopeless(s.workers[v], id) {
      if v != w {
        RingNames(s.workers[v], id);
      }
    }
  }

  /** A ring that names id is the only thing that does. */
  lemma RingHolder(k: nat -> int, s: State, w: nat, id: Id)
    requires Inv(k, s) && w < |s.workers| && id in Ring(s.workers[w])
    ensures Ring(s.workers[w])[id] <= 1 && id !in s.sleepers && id !in Sum(AgentTimers(s.agents))
    ensures forall v | 0 <= v < |s.workers| && v != w :: id !in Ring(s.workers[v])
  {
    hide BoardOk, GlobalOk, SleepersOk, WorkersOk, AgentsOk, Places, Live, Ring, AgentTimers;
    assert Tickets(s)[id] <= 1;
    hide Counted;
    SumUpdate(Rings(s.workers), w, multiset{});
    assert Rings(s.workers)[w] == Ring(s.workers[w]);
    forall v | 0 <= v < |s.workers| && v != w ensures id !in Ring(s.workers[v]) {
      SumPair(Rings(s.workers), w, v);
      assert Rings(s.workers)[v] == Ring(s.workers[v]);
    }
  }

  /** A waiting thread is hopeless if and only if it is forgotten or its completion will be dropped. */
  lemma HopelessIff(k: nat -> int, s: State, id: Id)
    requires Inv(k, s) && id in s.board.awaiting
    ensures Hopeless(s, id) <==> Forgotten(s, id) || WillDrop(s, id)
  {
    hide Inv, Tickets;
    TicketlessIff(s, id);
    if w, i :| DropsAt(s, w, i, id) {
      hide Hopeless, Silent;
      DroppedIsHopeless(k, s, w, i, id);
    } else if Hopeless(s, id) {
      forall w | 0 <= w < |s.workers| ensures NotAmong(s.workers[w].cq, id) {
        assert RingHopeless(s.workers[w], id);
        forall i | 0 <= i < |s.workers[w].cq| ensures s.workers[w].cq[i].slot != id {
          assert !DropsAt(s, w, i, id);
        }
      }
    }
  }
}
