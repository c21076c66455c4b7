/** Which threads of a whole run are still to be woken: exactly one request, completion or sleep entry per waiting
    thread, unless a rejected submit or a losing step hit its current wait. */
module LifecycleRuns {
  import opened Bags
  import opened Lifecycle
  import opened LifecycleInvariant
  import opened LifecycleSteps
  import opened LifecycleTheorems
  import opened LifecycleLost

  /** The step in which thread id begins to wait. */
  predicate Begins(s: State, st: Step, id: Id) {
    Enabled(s, st) && st.Thread? && (st.t.SubmitIo? || st.t.SleepFor?) && Cur(s, st.w) == id
  }

  /** Whether a rejected submit or a losing step has hit the wait that thread id is in after the step; `missed` says
      whether one had before it. */
  predicate MissedStep(s: State, st: Step, id: Id, missed: bool) {
    if Begins(s, st, id) then st.t == SubmitIo(false) else missed || Loses(s, st, id)
  }

  ghost predicate Missed(k: nat -> int, s: State, steps: seq<Step>, id: Id, missed: bool)
    decreases |steps|
  {
    if steps == [] then missed
    else Enabled(s, steps[0]) && Missed(k, Apply(k, s, steps[0]), steps[1..], id, MissedStep(s, steps[0], id, missed))
  }

  /** A sleeping thread has its entry. */
  lemma SleepCounts(s: State, w: nat)
    requires ThreadEnabled(s, w, SleepFor)
    ensures Cur(s, w) in Tickets(ThreadApply(s, w, SleepFor))
  {
    var t := ThreadApply(s, w, SleepFor);
    hide Rings, AgentTimers, Sum;
    assert t.sleepers[|t.sleepers| - 1] == Cur(s, w);
  }

  lemma ThreadBegins(s: State, w: nat, st: ThreadStep, id: Id)
    requires ThreadEnabled(s, w, st) && id !in s.board.awaiting && id in ThreadApply(s, w, st).board.awaiting
    ensures Begins(s, Thread(w, st), id)
  {
  }

  /** Only those steps begin a wait. */
  lemma OnlyBegins(k: nat -> int, s: State, st: Step, id: Id)
    requires Enabled(s, st) && id !in s.board.awaiting && id in Apply(k, s, st).board.awaiting
    ensures Begins(s, st, id)
  {
    if st.Thread? {
      ThreadBegins(s, st.w, st.t, id);
    } else if st.Pop? {
      hide Begins;
      PopKeepsBoard(s, st.w, st.p);
    }
  }

  lemma PopKeepsBoard(s: State, w: nat, st: PopStep)
    requires PopEnabled(s, w, st)
    ensures PopApply(s, w, st).board == s.board
  {
  }

  /** The record agrees with the thread's tickets. */
  ghost predicate Tracks(s: State, id: Id, missed: bool) {
    id in s.board.awaiting ==> (missed <==> id !in Tickets(s))
  }

  lemma BeginTracks(k: nat -> int, s: State, st: Step, id: Id)
    requires Inv(k, s) && Begins(s, st, id)
    ensures Tracks(Apply(k, s, st), id, st.t == SubmitIo(false))
  {
    hide Inv, Tickets, ThreadApply;
    match st.t
    case SleepFor => SleepCounts(s, st.w);
    case SubmitIo(b) =>
      if b {
        AcceptedSubmitCounts(k, s, st.w);
      } else {
        RejectedSubmitForgets(k, s, st.w);
      }
  }

  lemma StepTracks(k: nat -> int, s: State, st: Step, id: Id, missed: bool)
    requires Inv(k, s) && Enabled(s, st) && Tracks(s, id, missed)
    ensures Tracks(Apply(k, s, st), id, MissedStep(s, st, id, missed))
  {
    hide Inv, Enabled, Apply, Tickets, Begins, Loses;
    if Begins(s, st, id) {
      BeginTracks(k, s, st, id);
    } else if id in s.board.awaiting {
      if Forgotten(s, id) {
        StepKeepsForgotten(k, s, st, id);
      } else {
        ForgottenIffLost(k, s, st, id);
      }
    } else if id in Apply(k, s, st).board.awaiting {
      OnlyBegins(k, s, st, id);
    }
  }

  lemma {:induction false} RunTracks(k: nat -> int, s: State, steps: seq<Step>, t: State, id: Id, missed: bool)
    requires Inv(k, s) && Run(k, s, steps, t) && Timely(k, s, steps) && Tracks(s, id, missed)
    ensures Tracks(t, id, Missed(k, s, steps, id, missed))
    decreases |steps|
  {
    hide Inv, Enabled, Apply, WakesTooEarly, Tracks, MissedStep;
    if steps != [] {
      StepKeepsInv(k, s, steps[0]);
      StepTracks(k, s, steps[0], id, missed);
      RunTracks(k, Apply(k, s, steps[0]), steps[1..], t, id, MissedStep(s, steps[0], id, missed));
    }
  }

  /** At the end of a run, a waiting thread is forgotten if and only if a rejected submit began its current wait or a
      losing step hit it. */
  lemma ForgottenIffMissed(k: nat -> int, s: State, steps: seq<Step>, t: State, id: Id)
    requires Reached(k, s, steps, t)
    ensures Forgotten(t, id) <==> id in t.board.awaiting && Missed(k, s, steps, id, false)
  {
    assert Tracks(s, id, false);
    InitialInv(k, s);
    hide Inv, Initial, Run, Timely, Tickets, Missed;
    RunTracks(k, s, steps, t, id, false);
  }

  /** The one thing that will wake a waiting thread is where it belongs: a request or completion on the ring of the
      worker the thread blocked on, or a sleep entry. */
  ghost predicate TicketInPlace(s: State, id: Id)
    requires id in s.board.awaiting
  {
    match s.board.awaiting[id]
    case Io(_, u) => u < |s.workers| && Ring(s.workers[u])[id] == 1 &&
      (id in s.board.parked || Parking(s.workers[u], id))
    case Sleep => multiset(s.sleepers)[id] + Sum(AgentTimers(s.agents))[id] == 1
  }

  /** A thread that waits has exactly one request, completion or sleep entry, in its place, unless its current wait was
      hit; then it has none. */
  lemma OneRequestOnOwnRing(k: nat -> int, s: State, steps: seq<Step>, t: State, id: Id)
    requires Reached(k, s, steps, t) && id in t.board.awaiting
    ensures Tickets(t)[id] == if Missed(k, s, steps, id, false) then 0 else 1
    ensures !Missed(k, s, steps, id, false) ==> TicketInPlace(t, id)
  {
    ForgottenIffMissed(k, s, steps, t, id);
    ReachedInv(k, s, steps, t);
    hide Reached, Missed, Inv, Tickets, TicketInPlace;
    AtMostOne(k, t, id);
    if !Missed(k, s, steps, id, false) {
      TicketFound(k, t, id);
    }
  }

  lemma AtMostOne(k: nat -> int, s: State, id: Id)
    requires Inv(k, s) && id in s.board.awaiting
    ensures Tickets(s)[id] <= 1
  {
    hide Tickets, Places, Live, BoardOk, GlobalOk, SleepersOk, AgentsOk, WorkersOk;
  }

  lemma TicketFound(k: nat -> int, s: State, id: Id)
    requires Inv(k, s) && id in s.board.awaiting && Tickets(s)[id] == 1
    ensures TicketInPlace(s, id)
  {
    assert WaitOk(s, id);
    if s.board.awaiting[id].Io? {
      NoSleepEntry(k, s, id);
      hide Counted, BoardOk, GlobalOk, SleepersOk, AgentsOk;
      RingFound(k, s, id, s.board.awaiting[id].worker);
    } else {
      hide Counted, BoardOk, GlobalOk, SleepersOk, AgentsOk, Ring;
      NotOnRings(k, s, id);
    }
  }

  lemma NoSleepEntry(k: nat -> int, s: State, id: Id)
    requires SleepersOk(s) && AgentsOk(k, s) && id in s.board.awaiting && s.board.awaiting[id].Io?
    ensures multiset(s.sleepers)[id] == 0 && Sum(AgentTimers(s.agents))[id] == 0
  {
    forall a | 0 <= a < |s.agents| ensures AgentTimers(s.agents)[a][id] == 0 {
      assert AgentOk(k, s.board, s.agents[a]);
    }
    NoneInSum(AgentTimers(s.agents), id);
    assert id !in s.sleepers;
  }

  lemma {:induction false} NoneInSum(bs: seq<multiset<Id>>, id: Id)
    requires forall i | 0 <= i < |bs| :: bs[i][id] == 0
    ensures Sum(bs)[id] == 0
  {
    if bs != [] {
      NoneInSum(bs[1..], id);
    }
  }

  lemma NotOnRing(k: nat -> int, s: State, id: Id, v: nat)
    requires WorkersOk(k, s) && v < |s.workers| && id in s.board.awaiting
    requires s.board.awaiting[id].Io? ==> s.board.awaiting[id].worker != v
    ensures Ring(s.workers[v])[id] == 0
  {
    hide Ring;
    assert WorkerOk(k, s.board, s.workers[v], v);
    hide WorkerOk;
    if id in Ring(s.workers[v]) {
      RingMeans(k, s.board, s.workers[v], v, id);
    }
  }

  lemma NotOnRings(k: nat -> int, s: State, id: Id)
    requires WorkersOk(k, s) && id in s.board.awaiting && s.board.awaiting[id] == Sleep
    ensures Sum(Rings(s.workers))[id] == 0
  {
    hide WorkersOk, Ring;
    forall v | 0 <= v < |s.workers| ensures Rings(s.workers)[v][id] == 0 {
      NotOnRing(k, s, id, v);
    }
    NoneInSum(Rings(s.workers), id);
  }

  lemma RingFound(k: nat -> int, s: State, id: Id, u: nat)
    requires WorkersOk(k, s) && u < |s.workers| && id in s.board.awaiting
    requires s.board.awaiting[id].Io? && s.board.awaiting[id].worker == u
    ensures Sum(Rings(s.workers))[id] == Ring(s.workers[u])[id]
  {
    hide WorkersOk, Ring;
    var bs := Rings(s.workers);
    assert bs[u] == Ring(s.workers[u]);
    forall v | 0 <= v < |bs| && v != u ensures bs[v][id] == 0 {
      NotOnRing(k, s, id, v);
    }
    hide Rings;
    OneInSum(bs, u, id);
  }

  lemma OneInSum(bs: seq<multiset<Id>>, u: nat, id: Id)
    requires u < |bs| && forall v | 0 <= v < |bs| && v != u :: bs[v][id] == 0
    ensures Sum(bs)[id] == bs[u][id]
  {
    var rest := bs[..u] + bs[u + 1..];
    NoneInSum(rest, id);
    SumSplit(bs, u);
  }

  /** No step of the run is a rejected submit or loses a ticket. */
  ghost predicate Lossless(k: nat -> int, s: State, steps: seq<Step>)
    decreases |steps|
  {
    steps == [] ||
    (Enabled(s, steps[0]) && !(steps[0].Thread? && steps[0].t == SubmitIo(false)) &&
     (forall id :: !Loses(s, steps[0], id)) && Lossless(k, Apply(k, s, steps[0]), steps[1..]))
  }

  lemma {:induction false} LosslessMissesNone(k: nat -> int, s: State, steps: seq<Step>, t: State, id: Id)
    requires Run(k, s, steps, t) && Lossless(k, s, steps)
    ensures !Missed(k, s, steps, id, false)
    decreases |steps|
  {
    hide Enabled, Apply, Loses;
    if steps != [] {
      LosslessMissesNone(k, Apply(k, s, steps[0]), steps[1..], t, id);
    }
  }

  /** In a run without losing steps every waiting thread has exactly one request, completion or sleep entry, in its
      place. */
  lemma LosslessRunsKeepAll(k: nat -> int, s: State, steps: seq<Step>, t: State)
    requires Reached(k, s, steps, t) && Lossless(k, s, steps)
    ensures forall id | id in t.board.awaiting :: Tickets(t)[id] == 1 && TicketInPlace(t, id)
  {
    forall id | id in t.board.awaiting ensures Tickets(t)[id] == 1 && TicketInPlace(t, id) {
      LosslessMissesNone(k, s, steps, t, id);
      OneRequestOnOwnRing(k, s, steps, t, id);
    }
  }
}
