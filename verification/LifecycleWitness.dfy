/** Runs from the start in which the code does what the life-cycle theorems single out: a thread in two places, and
    threads that nothing will wake. */
module LifecycleWitness {
  import opened Basics
  import opened Bags
  import opened Lifecycle
  import opened LifecycleInvariant
  import opened LifecycleLost
  import opened LifecycleRoundTrips

  /** One worker, one other thread, one slot. */
  function Start(): State {
    State(Board([Free], {}, {}, [0], map[], map[]), [], [Fresh(0)], [Idle], [], 0)
  }

  /** The worker at some point with thread 0. */
  function With0(stage: Stage): Worker { Ticked(Drained(Fresh(0))).(stage := stage, hold := [0]) }

  /** The worker executes thread 0. */
  function Executing(): State {
    Start().(workers := [With0(Exec)], board := Board([Running], {}, {}, [0], map[], map[]))
  }

  /** It has queued its sleep entry. */
  function Dozing(): State {
    Executing().(workers := [With0(Queued)], sleepers := [0], board := Executing().board.(awaiting := map[0 := Sleep]))
  }

  /** The timer thread has taken the entry. */
  function Sleeping(): State { Dozing().(agents := [Timer(0)], sleepers := []) }

  lemma ReachesExec(k: nat -> int)
    ensures Initial(Start()) && Leads(k, Start(), Executing())
  {
    var s := Start();
    hide Leads;
    Spawns(k, s, 0, 0);
    Starts(k, s, 0, 0);
    assert With(s, 0, With0(Exec), RunBoard(ReadyBoard(s.board, 0), 0)) == Executing();
    hide With, Spawned, ReadyBoard, RunBoard, SetLife;
    LeadsOn(k, s, Spawned(s, 0), Executing());
  }

  lemma QueuesEntry(k: nat -> int)
    ensures Leads(k, Executing(), Dozing())
  {
    hide Leads;
    assert Executing().sleepers + [0] == [0];
    LeadsBy(k, Executing(), Thread(0, SleepFor), Dozing());
  }

  lemma TakesEntry(k: nat -> int)
    ensures Leads(k, Dozing(), Sleeping())
  {
    hide Leads;
    assert [0][..0] + [0][1..] == [];
    LeadsBy(k, Dozing(), Outside(TimerPop(0, 0)), Sleeping());
  }

  lemma ReachesSleeping(k: nat -> int)
    ensures Leads(k, Start(), Sleeping())
  {
    hide Leads, Executing, Dozing, Sleeping;
    ReachesExec(k);
    QueuesEntry(k);
    TakesEntry(k);
    LeadsThrice(k, Start(), Executing(), Dozing(), Sleeping());
  }

  lemma Extends(k: nat -> int, s: State, m: State, a: Step, t: State) returns (steps: seq<Step>)
    requires Leads(k, s, m) && Enabled(m, a) && Apply(k, m, a) == t
    ensures Run(k, s, steps, t)
  {
    var first :| Run(k, s, first, m);
    steps := first + [a];
    assert Run(k, t, [], t) && [a] + [] == [a];
    hide Run, Enabled, Apply;
    RunOne(k, m, a, [], t);
    RunThen(k, s, first, m, [a], t);
  }

  /** A timer wake right after the store of Blocked leaves the thread both with its worker, which has not saved its
      registers, and in the hands of the timer thread, which is about to queue it. */
  lemma ThreadInTwoPlaces(k: nat -> int)
    ensures exists steps, t :: Run(k, Start(), steps, t) && Places(t)[0] == 2 && 0 !in t.board.saved
  {
    hide Run, Leads, With0;
    ReachesSleeping(k);
    var m := Sleeping().(workers := [With0(Marked)], board := Sleeping().board.(life := [Blocked]));
    var t := m.(agents := [Push(0)], board := m.board.(life := [Ready], awaiting := map[]));
    Marks(k);
    LeadsOn(k, Start(), Sleeping(), m);
    WakesEarly(k, m, t);
    var steps := Extends(k, Start(), m, Outside(TimerLook(0)), t);
    TwoPlaces(t);
  }

  lemma Marks(k: nat -> int)
    ensures Leads(k, Sleeping(), Sleeping().(workers := [With0(Marked)], board := Sleeping().board.(life := [Blocked])))
  {
    hide Leads;
    LeadsBy(k, Sleeping(), Thread(0, BlockMark),
            Sleeping().(workers := [With0(Marked)], board := Sleeping().board.(life := [Blocked])));
  }

  lemma WakesEarly(k: nat -> int, m: State, t: State)
    requires m == Sleeping().(workers := [With0(Marked)], board := Sleeping().board.(life := [Blocked]))
    requires t == m.(agents := [Push(0)], board := m.board.(life := [Ready], awaiting := map[]))
    ensures Enabled(m, Outside(TimerLook(0))) && Apply(k, m, Outside(TimerLook(0))) == t
  {
    hide With0;
  }

  lemma TwoPlaces(t: State)
    requires t.global == [] && t.workers == [With0(Marked)] && t.agents == [Push(0)]
    requires t.board.parked == {}
    ensures Places(t)[0] == 2
  {
    OneBag(WorkerBags(t.workers));
    OneBag(AgentBags(t.agents));
    hide Sum;
  }

  lemma OneBag(bs: seq<multiset<Id>>)
    requires |bs| == 1
    ensures Sum(bs) == bs[0]
  {
    assert Sum(bs[1..]) == multiset{};
  }

  lemma NoTickets(t: State)
    requires t.sleepers == [] && t.agents == [Idle] && |t.workers| == 1
    requires t.workers[0].flight == [] && t.workers[0].cq == [] && t.workers[0].todo == []
    ensures Tickets(t) == multiset{}
  {
    OneBag(Rings(t.workers));
    OneBag(AgentTimers(t.agents));
    hide Sum;
  }

  /** A timer wake just before the store of Blocked is lost, and the sleeper is never woken. */
  lemma SleeperIsForgotten(k: nat -> int)
    ensures exists steps, t :: Run(k, Start(), steps, t) && Forgotten(t, 0) && t.board.awaiting[0] == Sleep
  {
    hide Run, Leads;
    ReachesSleeping(k);
    var t := Sleeping().(agents := [Idle]);
    var steps := Extends(k, Start(), Sleeping(), Outside(TimerLook(0)), t);
    NoTickets(t);
  }

  /** So is the wake of a rejected submit. */
  lemma RejectedCallerIsForgotten(k: nat -> int)
    ensures exists steps, t :: Run(k, Start(), steps, t) && Forgotten(t, 0) && t.board.results == [-EAGAIN]
  {
    hide Run, Leads;
    ReachesExec(k);
    var s := Executing();
    var t := Apply(k, s, Thread(0, SubmitIo(false)));
    var steps := Extends(k, Start(), s, Thread(0, SubmitIo(false)), t);
    NoTickets(t);
  }
}
