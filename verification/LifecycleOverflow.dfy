/** A run from the start in which more completions are ready than one poll returns, and what becomes of the thread whose
    completion is the surplus one and of the worker that polled. */
module LifecycleOverflow {
  import opened Lifecycle
  import opened LifecycleInvariant
  import opened LifecycleTheorems
  import opened LifecycleLost
  import opened LifecycleHopeless
  import opened LifecycleResume
  import RT = LifecycleRoundTrips

  // ── The states ──

  function Below(n: nat): (r: set<Id>)
    ensures forall i: Id :: i in r <==> i < n
  {
    if n == 0 then {} else Below(n - 1) + {n - 1}
  }

  function CrowdBoard(size: nat, n: nat): Board
    requires n <= size
  {
    Board(seq(size, i => if i < n then Blocked else Free), Below(n), Below(n), seq(size, _ => 0),
          map i: Id | i in Below(n) :: Io(i, 0), map i: Id | i in Below(n) :: i)
  }

  /** The pop counter after n pops. */
  function Pops(n: nat): nat { if n == 0 then 0 else ReadyQueue.Next(Pops(n - 1)) }

  function Requests(from: nat, to: nat): (r: seq<Sqe>)
    requires from <= to
  {
    seq(to - from, i requires 0 <= i => Sqe(from + i, from + i))
  }

  function Answers(k: nat -> int, n: nat): seq<Cqe> { seq(n, i requires 0 <= i => Cqe(i, i, k(i))) }

  /** The worker after n threads have parked: the last request is not flushed yet. */
  function Host(n: nat): Worker {
    Worker(Top, [], [], [], Requests(0, n), [], Own(Pops(n), 0, 0, if n == 0 then 0 else n - 1, 0, false))
  }

  /** One worker; threads 0 .. n - 1 of `size` are parked in I/O. */
  function Crowd(size: nat, n: nat): State
    requires n <= size
  {
    State(CrowdBoard(size, n), [], [Host(n)], [Idle], [], n)
  }

  /** All threads are parked, the worker waits in its ring, and the first `done` requests are complete. */
  function Ward(k: nat -> int, size: nat, done: nat): State
    requires done <= size
  {
    var own := RT.InVain(RT.Drained(Host(size)).own, 1);
    State(CrowdBoard(size, size), [],
          [Worker(InRing, [], [], [], Requests(done, size), Answers(k, done), own.(sent := size - done))],
          [Idle], [], size)
  }

  // ── One more thread parks ──

  lemma JoinedBoard(size: nat, n: nat)
    requires n < size
    ensures RT.ParkedBoard(RT.RunBoard(RT.ReadyBoard(CrowdBoard(size, n), n), n), n, n, 0) == CrowdBoard(size, n + 1)
  {
    var b := RT.RunBoard(RT.ReadyBoard(CrowdBoard(size, n), n), n);
    var c := CrowdBoard(size, n + 1);
    assert Below(n + 1) == Below(n) + {n};
    assert b.saved + {n} == Below(n + 1);
    assert b.awaiting[n := Io(n, 0)] == c.awaiting;
    assert b.reading[n := n] == c.reading;
    assert b.life[n := Blocked] == c.life;
  }

  lemma JoinedWorker(n: nat)
    ensures var wk := Ticked(RT.Drained(Host(n))).(stage := Exec, hold := [n]);
      wk.(stage := Top, hold := [], flight := wk.flight + [Sqe(n, n)]) == Host(n + 1)
  {
    hide ReadyQueue.Next;
    assert Requests(0, n) + [Sqe(n, n)] == Requests(0, n + 1);
  }

  lemma Joins(k: nat -> int, size: nat, n: nat)
    requires n < size
    ensures RT.Leads(k, Crowd(size, n), Crowd(size, n + 1))
  {
    hide RT.Leads, Host, Ticked, RT.Drained;
    var s := Crowd(size, n);
    var wk := Ticked(RT.Drained(Host(n))).(stage := Exec, hold := [n]);
    var b := RT.RunBoard(RT.ReadyBoard(s.board, n), n);
    RT.Spawns(k, s, 0, n);
    HostRests(n);
    RT.Starts(k, s, 0, n);
    RT.Parks(k, s, 0, wk, b, n);
    JoinedBoard(size, n);
    JoinedWorker(n);
    hide CrowdBoard, RT.RunBoard, RT.ReadyBoard, RT.ParkedBoard;
    assert [Host(n)][0 := Host(n + 1)] == [Host(n + 1)];
    assert RT.With(s.(next := n + 1), 0, Host(n + 1), CrowdBoard(size, n + 1)) == Crowd(size, n + 1);
    hide RT.With, RT.Spawned, Crowd;
    RT.LeadsThrice(k, s, RT.Spawned(s, n), RT.With(s, 0, wk, b), Crowd(size, n + 1));
  }

  lemma HostRests(n: nat)
    ensures RT.AtRest(Host(n))
  {
  }

  lemma {:induction false} Gathers(k: nat -> int, size: nat, n: nat)
    requires n <= size
    ensures RT.Leads(k, Crowd(size, 0), Crowd(size, n))
  {
    hide RT.Leads, Crowd;
    if n == 0 {
      RT.Stays(k, Crowd(size, 0));
    } else {
      Gathers(k, size, n - 1);
      Joins(k, size, n - 1);
      RT.LeadsOn(k, Crowd(size, 0), Crowd(size, n - 1), Crowd(size, n));
    }
  }

  // ── Their requests complete ──

  /** The worker flushes the last request, finds nothing to do and waits. */
  lemma GoesToWait(k: nat -> int, size: nat)
    requires size > 0
    ensures RT.Leads(k, Crowd(size, size), Ward(k, size, 0))
  {
    hide RT.Leads, CrowdBoard, Pops;
    var s, b := Crowd(size, size), CrowdBoard(size, size);
    var w0 := Host(size);
    var w1 := RT.Drained(w0).(stage := LookFirst);
    var w2 := w1.(stage := InRing, own := RT.InVain(w1.own, 1));
    RT.PollsNothing(k, s, 0, w0, b);
    RT.FindsNothing(k, s, 0, w1, b);
    assert w2 == Ward(k, size, 0).workers[0] by {
      assert Answers(k, 0) == [] && RT.InVain(RT.Drained(w0).own, 1).sent == size;
    }
    assert RT.With(s, 0, w0, b) == s && RT.With(s, 0, w2, b) == Ward(k, size, 0);
    hide RT.With, Ward, Crowd;
    RT.LeadsOn(k, s, RT.With(s, 0, w1, b), Ward(k, size, 0));
  }

  lemma OneCompletes(k: nat -> int, size: nat, done: nat)
    requires done < size
    ensures RT.Leads(k, Ward(k, size, done), Ward(k, size, done + 1))
  {
    hide CrowdBoard, RT.InVain, RT.Drained;
    var s, t := Ward(k, size, done), Ward(k, size, done + 1);
    var wk := s.workers[0];
    assert wk.flight[..0] + wk.flight[1..] == t.workers[0].flight;
    assert wk.cq + [Cqe(done, done, k(done))] == t.workers[0].cq;
    var st := Outside(Complete(0, 0));
    assert Apply(k, s, st) == t;
    hide Ward, RT.Leads;
    RT.LeadsBy(k, s, st, t);
  }

  lemma CrowdStarts(size: nat)
    ensures Initial(Crowd(size, 0))
  {
    assert Requests(0, 0) == [];
  }

  /** Any number of threads can be parked on one worker with all their completions ready. */
  lemma {:induction false} CompletionsPileUp(k: nat -> int, size: nat, done: nat)
    requires done <= size && size > 0
    ensures Initial(Crowd(size, 0)) && RT.Leads(k, Crowd(size, 0), Ward(k, size, done))
  {
    hide RT.Leads, Crowd, Ward, Initial;
    CrowdStarts(size);
    if done == 0 {
      Gathers(k, size, size);
      GoesToWait(k, size);
      RT.LeadsOn(k, Crowd(size, 0), Crowd(size, size), Ward(k, size, 0));
    } else {
      CompletionsPileUp(k, size, done - 1);
      OneCompletes(k, size, done - 1);
      RT.LeadsOn(k, Crowd(size, 0), Ward(k, size, done - 1), Ward(k, size, done));
    }
  }

  // ── One completion too many ──

  lemma {:induction false} SmoothIsTimely(k: nat -> int, s: State, steps: seq<Step>, t: State)
    requires Run(k, s, steps, t) && Smooth(k, s, steps)
    ensures Timely(k, s, steps)
    decreases |steps|
  {
    hide Enabled, Apply, WakesTooEarly, Plain;
    if steps != [] {
      SmoothIsTimely(k, Apply(k, s, steps[0]), steps[1..], t);
    }
  }

  /** The state with one completion more than the limit ready. */
  lemma WardDrops(k: nat -> int)
    ensures var s := Ward(k, POLL_LIMIT + 1, POLL_LIMIT + 1);
      && POLL_LIMIT in s.board.awaiting && DropsAt(s, 0, POLL_LIMIT, POLL_LIMIT) && |s.agents| > 0
      && LoopEnabled(s, 0, WaitRing(false))
  {
    hide RT.InVain, RT.Drained;
    assert Answers(k, POLL_LIMIT + 1)[POLL_LIMIT].slot == POLL_LIMIT;
  }

  lemma DroppedMeans(k: nat -> int, s: State)
    requires Good(k, s) && DropsAt(s, 0, POLL_LIMIT, POLL_LIMIT) && POLL_LIMIT in s.board.awaiting
    requires |s.agents| > 0 && LoopEnabled(s, 0, WaitRing(false))
    ensures !Forgotten(s, POLL_LIMIT) && !CanResume(k, s, POLL_LIMIT)
    ensures Forgotten(LoopApply(s, 0, WaitRing(false)), POLL_LIMIT)
  {
    hide Inv, Flushed, Tickets, Hopeless, CanResume, LoopApply;
    PollOverflowForgets(k, s, 0, WaitRing(false));
    DroppedIsHopeless(k, s, 0, POLL_LIMIT, POLL_LIMIT);
    ResumesIff(k, s, POLL_LIMIT);
    TicketlessIff(s, POLL_LIMIT);
    assert !NotAmong(s.workers[0].cq, POLL_LIMIT);
  }

  /** Thread POLL_LIMIT waits and is not forgotten, but cannot run again; worker 0's poll forgets it. */
  ghost predicate Surplused(k: nat -> int, s: State) {
    && POLL_LIMIT in s.board.awaiting && !Forgotten(s, POLL_LIMIT) && !CanResume(k, s, POLL_LIMIT)
    && LoopEnabled(s, 0, WaitRing(false)) && Forgotten(LoopApply(s, 0, WaitRing(false)), POLL_LIMIT)
  }

  /** With one completion more than the limit ready, the thread of the last one is still named by it, but it is hopeless
      already: no continuation runs it, and the next poll forgets it. */
  lemma SurplusIsHopeless(k: nat -> int)
    ensures exists s0, steps, s :: Reached(k, s0, steps, s) && Surplused(k, s)
  {
    hide Run, Timely, Smooth, Crowd, Ward, Initial, Good, Forgotten, CanResume, LoopApply, LoopEnabled, DropsAt;
    var n := POLL_LIMIT + 1;
    var s0, s := Crowd(n, 0), Ward(k, n, n);
    CompletionsPileUp(k, n, n);
    var steps :| Run(k, s0, steps, s) && Smooth(k, s0, steps);
    WardDrops(k);
    SmoothIsTimely(k, s0, steps, s);
    InitialGood(k, s0);
    SmoothStaysGood(k, s0, steps, s);
    DroppedMeans(k, s);
    assert Reached(k, s0, steps, s) && Surplused(k, s);
  }
}
