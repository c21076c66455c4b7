/** Threads that nothing will wake any more, and the three ways the code produces them. */
module LifecycleLost {
  import opened Basics
  import opened Bags
  import opened Lifecycle
  import opened LifecycleInvariant
  import opened LifecycleSteps
  import opened LifecycleTheorems

  /** Waiting, but no request, completion or sleep entry names the thread. */
  ghost predicate Forgotten(s: State, id: Id) {
    id in s.board.awaiting && id !in Tickets(s)
  }

  /** A wake that acts on thread id. */
  predicate Wakes(s: State, st: Step, id: Id) {
    Enabled(s, st) && id < |s.board.life| && s.board.life[id] == Blocked &&
    match st
    case Loop(w, WakeLook) => s.workers[w].todo[0].slot == id
    case Outside(TimerLook(a)) => s.agents[a].id == id
    case _ => false
  }

  /** A step that uses up what could wake thread id without waking it: a poll that finds more completions than it may
      return and takes the one for id out of the ring as the surplus one, or a timer that finds id not yet Blocked. */
  predicate Loses(s: State, st: Step, id: Id) {
    Enabled(s, st) &&
    match st
    case Loop(w, PollRing(_)) => |s.workers[w].cq| > POLL_LIMIT && s.workers[w].cq[POLL_LIMIT].slot == id
    case Loop(w, WaitRing(_)) => |s.workers[w].cq| > POLL_LIMIT && s.workers[w].cq[POLL_LIMIT].slot == id
    case Outside(TimerLook(a)) => s.agents[a].id == id && s.board.life[id] != Blocked
    case _ => false
  }

  lemma TicketsTurn(s: State, t: State, w: nat, id: Id)
    requires Turn(s, t, w) && t.agents == s.agents
    requires Ring(t.workers[w])[id] + multiset(t.sleepers)[id] == Ring(s.workers[w])[id] + multiset(s.sleepers)[id]
    ensures Tickets(t)[id] == Tickets(s)[id]
  {
    hide Ring, Bag, Rings, AgentTimers, Sum, WorkerBags;
    CountWorker(s, w, t.workers[w]);
    assert Set(s, w, t.workers[w]).workers == t.workers;
    SameCount(Sum(Rings(s.workers)), multiset(s.sleepers), Sum(AgentTimers(s.agents)), Ring(s.workers[w]),
              Sum(Rings(t.workers)), multiset(t.sleepers), Ring(t.workers[w]), id);
  }

  lemma TicketsAgentTurn(s: State, t: State, a: nat, id: Id)
    requires AgentTurn(s, t, a)
    requires AgentTimer(t.agents[a])[id] + multiset(t.sleepers)[id] ==
      AgentTimer(s.agents[a])[id] + multiset(s.sleepers)[id]
    ensures Tickets(t)[id] == Tickets(s)[id]
  {
    hide AgentTimer, AgentTimers, AgentBag, AgentBags, Sum, Rings;
    CountAgent(s, a, t.agents[a]);
    SameCount(Sum(AgentTimers(s.agents)), multiset(s.sleepers), Sum(Rings(s.workers)), AgentTimer(s.agents[a]),
              Sum(AgentTimers(t.agents)), multiset(t.sleepers), AgentTimer(t.agents[a]), id);
  }

  lemma PolledOthers(wk: Worker, wk': Worker, id: Id)
    requires wk.todo == [] && wk'.flight == wk.flight
    requires wk'.todo == wk.cq[..Least(|wk.cq|, POLL_LIMIT)]
    requires wk'.cq == wk.cq[Least(|wk.cq|, Least(|wk.cq|, POLL_LIMIT) + 1)..]
    requires |wk.cq| > POLL_LIMIT ==> wk.cq[POLL_LIMIT].slot != id
    ensures Ring(wk')[id] == Ring(wk)[id]
  {
    if |wk.cq| > POLL_LIMIT {
      PollDrops(wk, wk');
    } else {
      assert wk'.todo == wk.cq && wk'.cq == [];
    }
  }

  lemma PollDrops(wk: Worker, wk': Worker)
    requires |wk.cq| > POLL_LIMIT && wk.todo == [] && wk'.flight == wk.flight
    requires wk'.todo == wk.cq[..POLL_LIMIT] && wk'.cq == wk.cq[POLL_LIMIT + 1..]
    ensures Ring(wk) == Ring(wk') + multiset{wk.cq[POLL_LIMIT].slot}
  {
    var n := POLL_LIMIT;
    var a, c := Slots(wk.cq[..n]), Slots(wk.cq[n + 1..]);
    assert Slots(wk.cq) == a + [wk.cq[n].slot] + c;
    assert multiset(Slots(wk.cq)) == multiset(a) + multiset{wk.cq[n].slot} + multiset(c);
  }

  lemma NextTodo(wk: Worker, wk': Worker)
    requires wk.todo != [] && wk'.flight == wk.flight && wk'.cq == wk.cq && wk'.todo == wk.todo[1..]
    ensures Ring(wk) == Ring(wk') + multiset{wk.todo[0].slot}
  {
    assert Slots(wk.todo) == [wk.todo[0].slot] + Slots(wk.todo[1..]);
  }

  predicate IsPoll(st: LoopStep) { st.PollRing? || st.WaitRing? }

  lemma PollTickets(k: nat -> int, s: State, w: nat, st: LoopStep, id: Id)
    requires Inv(k, s) && LoopEnabled(s, w, st) && IsPoll(st) && !Loses(s, Loop(w, st), id)
    ensures Tickets(LoopApply(s, w, st))[id] == Tickets(s)[id]
  {
    hide Counted, BoardOk, GlobalOk, SleepersOk, AgentsOk, LocalOk, Tickets, Ring;
    var t := LoopApply(s, w, st);
    assert WorkerOk(k, s.board, s.workers[w], w);
    hide WorkersOk;
    PolledOthers(s.workers[w], t.workers[w], id);
    TicketsTurn(s, t, w, id);
  }

  lemma WakeTickets(k: nat -> int, s: State, w: nat, id: Id)
    requires Inv(k, s) && LoopEnabled(s, w, WakeLook) && id in s.board.awaiting && !Wakes(s, Loop(w, WakeLook), id)
    ensures id in LoopApply(s, w, WakeLook).board.awaiting
    ensures Tickets(LoopApply(s, w, WakeLook))[id] == Tickets(s)[id]
  {
    hide Inv, Tickets, Ring;
    TargetParked(k, s, w);
    var t := LoopApply(s, w, WakeLook);
    assert s.workers[w].todo[0].slot != id;
    NextTodo(s.workers[w], t.workers[w]);
    TicketsTurn(s, t, w, id);
  }

  lemma LoopTickets(k: nat -> int, s: State, w: nat, st: LoopStep, id: Id)
    requires Inv(k, s) && LoopEnabled(s, w, st) && id in s.board.awaiting
    requires !Wakes(s, Loop(w, st), id) && !Loses(s, Loop(w, st), id)
    ensures id in LoopApply(s, w, st).board.awaiting && Tickets(LoopApply(s, w, st))[id] == Tickets(s)[id]
  {
    hide Inv, Tickets, Ring, Wakes, Loses;
    if IsPoll(st) {
      PollTickets(k, s, w, st, id);
    } else if st == WakeLook {
      WakeTickets(k, s, w, id);
    } else {
      RingSame(s.workers[w], LoopApply(s, w, st).workers[w]);
      TicketsTurn(s, LoopApply(s, w, st), w, id);
    }
  }

  lemma PopTickets(s: State, w: nat, st: PopStep, id: Id)
    requires PopEnabled(s, w, st) && id in s.board.awaiting
    ensures id in PopApply(s, w, st).board.awaiting && Tickets(PopApply(s, w, st))[id] == Tickets(s)[id]
  {
    hide Tickets, Ring;
    var t := PopApply(s, w, st);
    RingSame(s.workers[w], t.workers[w]);
    if st.StealHalf? {
      StealTickets(s, w, st.victim, id);
    } else {
      TicketsTurn(s, t, w, id);
    }
  }

  lemma StealTickets(s: State, w: nat, v: nat, id: Id)
    requires PopEnabled(s, w, StealHalf(v)) && id in s.board.awaiting
    ensures Tickets(PopApply(s, w, StealHalf(v)))[id] == Tickets(s)[id]
  {
    hide Tickets, Ring;
    var m := Set(s, v, s.workers[v].(local := s.workers[v].local[|s.workers[v].local| / 2..]));
    var t := PopApply(s, w, StealHalf(v));
    RingSame(s.workers[v], m.workers[v]);
    RingSame(s.workers[w], t.workers[w]);
    TicketsTurn(s, m, v, id);
    TicketsTurn(m, t, w, id);
  }

  /** A thread that executes is not waiting. */
  lemma NotCurrent(k: nat -> int, s: State, w: nat, st: ThreadStep, id: Id)
    requires ThreadEnabled(s, w, st) && Inv(k, s) && id in s.board.awaiting
    ensures s.workers[w].stage == Exec ==> Cur(s, w) != id
  {
    hide Counted, BoardOk, GlobalOk, SleepersOk, AgentsOk;
    assert WorkerOk(k, s.board, s.workers[w], w);
    hide WorkersOk, RingOk, LocalOk;
  }

  lemma ThreadTickets(k: nat -> int, s: State, w: nat, st: ThreadStep, id: Id)
    requires Inv(k, s) && ThreadEnabled(s, w, st) && id in s.board.awaiting
    ensures id in ThreadApply(s, w, st).board.awaiting && Tickets(ThreadApply(s, w, st))[id] == Tickets(s)[id]
  {
    hide Inv, Tickets, Ring;
    NotCurrent(k, s, w, st, id);
    var wk, t := s.workers[w], ThreadApply(s, w, st);
    if st == SubmitIo(true) {
      AskedMore(wk, t.workers[w], Sqe(Cur(s, w), s.next));
    } else {
      RingSame(wk, t.workers[w]);
    }
    assert multiset(t.sleepers)[id] == multiset(s.sleepers)[id];
    TicketsTurn(s, t, w, id);
  }

  lemma CompleteTickets(k: nat -> int, s: State, w: nat, i: nat, id: Id)
    requires OutsideEnabled(s, Complete(w, i))
    ensures Tickets(OutsideApply(k, s, Complete(w, i)))[id] == Tickets(s)[id]
  {
    hide Ring, Tickets;
    var wk, t := s.workers[w], OutsideApply(k, s, Complete(w, i));
    var q := wk.flight[i];
    Completed(wk, t.workers[w], i, Cqe(q.slot, q.num, k(q.num)));
    TicketsTurn(s, t, w, id);
  }

  lemma TimerPopTickets(k: nat -> int, s: State, a: nat, i: nat, id: Id)
    requires OutsideEnabled(s, TimerPop(a, i))
    ensures Tickets(OutsideApply(k, s, TimerPop(a, i)))[id] == Tickets(s)[id]
  {
    hide Tickets;
    var t := OutsideApply(k, s, TimerPop(a, i));
    assert s.sleepers == s.sleepers[..i] + [s.sleepers[i]] + s.sleepers[i + 1..];
    TicketsAgentTurn(s, t, a, id);
  }

  lemma TimerLookTickets(k: nat -> int, s: State, a: nat, id: Id)
    requires OutsideEnabled(s, TimerLook(a)) && id in s.board.awaiting && s.agents[a].id != id
    ensures id in OutsideApply(k, s, TimerLook(a)).board.awaiting &&
      Tickets(OutsideApply(k, s, TimerLook(a)))[id] == Tickets(s)[id]
  {
    hide Tickets;
    TicketsAgentTurn(s, OutsideApply(k, s, TimerLook(a)), a, id);
  }

  lemma SpawnTickets(k: nat -> int, s: State, st: OutsideStep, id: Id)
    requires OutsideEnabled(s, st) && (st.Allocate? || st.InitReady? || st.AgentPush?)
    ensures Tickets(OutsideApply(k, s, st))[id] == Tickets(s)[id] &&
      OutsideApply(k, s, st).board.awaiting == s.board.awaiting
  {
    hide Tickets;
    TicketsAgentTurn(s, OutsideApply(k, s, st), st.a, id);
  }

  lemma OutsideTickets(k: nat -> int, s: State, st: OutsideStep, id: Id)
    requires OutsideEnabled(s, st) && id in s.board.awaiting
    requires !Wakes(s, Outside(st), id) && !Loses(s, Outside(st), id)
    ensures id in OutsideApply(k, s, st).board.awaiting && Tickets(OutsideApply(k, s, st))[id] == Tickets(s)[id]
  {
    hide Tickets;
    if st.Complete? {
      hide Wakes, Loses;
      CompleteTickets(k, s, st.w, st.i, id);
    } else if st.TimerPop? {
      hide Wakes, Loses;
      TimerPopTickets(k, s, st.a, st.i, id);
    } else if st.TimerLook? {
      assert s.agents[st.a].id != id;
      hide Wakes, Loses;
      TimerLookTickets(k, s, st.a, id);
    } else {
      hide Wakes, Loses;
      SpawnTickets(k, s, st, id);
    }
  }

  /** A step that neither wakes a waiting thread nor loses its ticket leaves both its wait and its ticket alone. */
  lemma StepTickets(k: nat -> int, s: State, st: Step, id: Id)
    requires Inv(k, s) && Enabled(s, st) && id in s.board.awaiting && !Wakes(s, st, id) && !Loses(s, st, id)
    ensures id in Apply(k, s, st).board.awaiting && Tickets(Apply(k, s, st))[id] == Tickets(s)[id]
  {
    hide Inv, LoopEnabled, PopEnabled, ThreadEnabled, OutsideEnabled, LoopApply, PopApply, ThreadApply, OutsideApply,
         Wakes, Loses, Tickets;
    match st
    case Loop(w, l) => LoopTickets(k, s, w, l, id);
    case Pop(w, p) => PopTickets(s, w, p, id);
    case Thread(w, t) => ThreadTickets(k, s, w, t, id);
    case Outside(o) => OutsideTickets(k, s, o, id);
  }

  /** Waking and losing need a ticket. */
  lemma NeedsTicket(s: State, st: Step, id: Id)
    requires Wakes(s, st, id) || Loses(s, st, id)
    ensures id in Tickets(s)
  {
    hide Sum, Places, Live;
    if st.Outside? {
      SumUpdate(AgentTimers(s.agents), st.o.a, multiset{});
      assert AgentTimers(s.agents)[st.o.a] == AgentTimer(s.agents[st.o.a]);
    } else {
      var wk := s.workers[st.w];
      SumUpdate(Rings(s.workers), st.w, multiset{});
      assert Rings(s.workers)[st.w] == Ring(wk);
      if IsPoll(st.l) {
        assert Slots(wk.cq)[POLL_LIMIT] == id;
      } else {
        assert Slots(wk.todo)[0] == id;
      }
    }
  }

  /** Exactly the losing steps make a waiting thread with a ticket forgotten. */
  lemma ForgottenIffLost(k: nat -> int, s: State, st: Step, id: Id)
    requires Inv(k, s) && Enabled(s, st) && id in s.board.awaiting && id in Tickets(s)
    ensures Forgotten(Apply(k, s, st), id) <==> Loses(s, st, id)
  {
    if Loses(s, st, id) {
      match st
      case Outside(TimerLook(a)) => MissedSleepForgets(k, s, a);
      case Loop(w, l) => PollOverflowForgets(k, s, w, l);
    } else if Wakes(s, st, id) {
      hide Inv, Tickets;
    } else {
      hide Inv, Wakes, Loses, Enabled, Apply, Tickets;
      StepTickets(k, s, st, id);
    }
  }

  lemma StepKeepsForgotten(k: nat -> int, s: State, st: Step, id: Id)
    requires Inv(k, s) && Enabled(s, st) && Forgotten(s, id)
    ensures Forgotten(Apply(k, s, st), id)
  {
    hide Inv, Wakes, Loses, Enabled, Apply, Tickets;
    if Wakes(s, st, id) || Loses(s, st, id) {
      NeedsTicket(s, st, id);
    } else {
      StepTickets(k, s, st, id);
    }
  }

  // ── How threads get forgotten ──

  /** The failing branch of submit: the immediate wake finds the thread Running and does nothing, then it parks. */
  lemma RejectedSubmitForgets(k: nat -> int, s: State, w: nat)
    requires Inv(k, s) && ThreadEnabled(s, w, SubmitIo(false))
    ensures Forgotten(ThreadApply(s, w, SubmitIo(false)), Cur(s, w))
  {
    hide Counted, BoardOk, GlobalOk, SleepersOk, AgentsOk, RingOk, LocalOk, Ring, Tickets;
    var t := ThreadApply(s, w, SubmitIo(false));
    var id := Cur(s, w);
    assert WorkerOk(k, s.board, s.workers[w], w);
    hide WorkersOk, WorkerOk;
    NoTicket(s, id);
    RingSame(s.workers[w], t.workers[w]);
    TicketsTurn(s, t, w, id);
  }

  /** An accepted submit is not forgotten: the request names the thread. */
  lemma AcceptedSubmitCounts(k: nat -> int, s: State, w: nat)
    requires Inv(k, s) && ThreadEnabled(s, w, SubmitIo(true))
    ensures Tickets(ThreadApply(s, w, SubmitIo(true)))[Cur(s, w)] == 1
  {
    SubmitAccepted(k, s, w);
    hide BoardOk, GlobalOk, SleepersOk, AgentsOk, WorkersOk;
    var t := ThreadApply(s, w, SubmitIo(true));
    AskedMore(s.workers[w], t.workers[w], Sqe(Cur(s, w), s.next));
    SumUpdate(Rings(t.workers), w, multiset{});
    assert Rings(t.workers)[w] == Ring(t.workers[w]);
    hide Ring, Rings, Sum, AgentTimers, Places;
    assert Cur(s, w) in Ring(t.workers[w]);
  }

  /** A timer wake that comes before the thread has stored Blocked is lost. */
  lemma MissedSleepForgets(k: nat -> int, s: State, a: nat)
    requires Inv(k, s) && OutsideEnabled(s, TimerLook(a)) && s.board.life[s.agents[a].id] != Blocked
    ensures Forgotten(OutsideApply(k, s, TimerLook(a)), s.agents[a].id)
  {
    var id := s.agents[a].id;
    var t := OutsideApply(k, s, TimerLook(a));
    hide BoardOk, GlobalOk, SleepersOk, WorkersOk;
    assert AgentOk(k, s.board, s.agents[a]);
    hide AgentsOk;
    TimerSpent(s, t, a, id);
  }

  lemma TimerSpent(s: State, t: State, a: nat, id: Id)
    requires Counted(s) && AgentTurn(s, t, a) && s.agents[a] == Timer(id) && t.agents[a] == Idle &&
      t.sleepers == s.sleepers
    ensures id !in Tickets(t)
  {
    CountAgent(s, a, Idle);
    hide AgentTimers, AgentBags, Sum, Rings, Places, Live;
    assert Tickets(s)[id] <= 1;
    UsedUp(Sum(AgentTimers(s.agents)), multiset(s.sleepers), Sum(Rings(s.workers)), multiset{id},
           Sum(AgentTimers(t.agents)), multiset{}, id);
  }

  /** With more completions ready than the limit, the poll takes one more out of the ring than it returns. */
  lemma PollOverflowForgets(k: nat -> int, s: State, w: nat, st: LoopStep)
    requires Inv(k, s) && LoopEnabled(s, w, st) && IsPoll(st) && |s.workers[w].cq| > POLL_LIMIT
    ensures Forgotten(LoopApply(s, w, st), s.workers[w].cq[POLL_LIMIT].slot)
  {
    hide LoopApply, Counted, BoardOk, GlobalOk, SleepersOk, AgentsOk, Tickets, Ring, HandsOk, LocalOk;
    var wk, t := s.workers[w], LoopApply(s, w, st);
    OverflowTaken(s, w, st);
    assert WorkerOk(k, s.board, wk, w) && CqeOk(k, s.board, wk.cq[POLL_LIMIT], w);
    assert wk.todo == [];
    hide WorkersOk, WorkerOk;
    PollDrops(wk, t.workers[w]);
    RingSpent(s, t, w, wk.cq[POLL_LIMIT].slot);
  }

  lemma OverflowTaken(s: State, w: nat, st: LoopStep)
    requires LoopEnabled(s, w, st) && IsPoll(st) && |s.workers[w].cq| > POLL_LIMIT
    ensures s.workers[w].stage in {Top, InRing}
    ensures var (wk, t) := (s.workers[w], LoopApply(s, w, st));
      && Turn(s, t, w) && t.agents == s.agents && t.sleepers == s.sleepers && t.board == s.board
      && t.workers[w].flight == wk.flight && t.workers[w].todo == wk.cq[..POLL_LIMIT]
      && t.workers[w].cq == wk.cq[POLL_LIMIT + 1..]
  {
  }

  lemma RingSpent(s: State, t: State, w: nat, id: Id)
    requires Counted(s) && Turn(s, t, w) && t.agents == s.agents && t.sleepers == s.sleepers
    requires Ring(s.workers[w]) == Ring(t.workers[w]) + multiset{id}
    ensures id !in Tickets(t)
  {
    CountWorker(s, w, t.workers[w]);
    assert Set(s, w, t.workers[w]).workers == t.workers;
    hide Ring, Bag, Rings, AgentTimers, Sum, Places, Live, WorkerBags;
    assert Tickets(s)[id] <= 1;
    UsedUp(Sum(Rings(s.workers)), multiset(s.sleepers), Sum(AgentTimers(s.agents)), Ring(s.workers[w]),
           Sum(Rings(t.workers)), Ring(t.workers[w]), id);
  }
}
