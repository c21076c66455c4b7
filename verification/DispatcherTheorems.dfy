/** What follows for every run of the dispatcher. */
module DispatcherTheorems {
  import opened Basics
  import opened Dispatcher
  import opened DispatcherFacts

  // ── When a completion is lost ──

  /** The step pushes a completion into the completion ring. */
  predicate Answers(c: World, s: State, st: Step) {
    && st.Loop? && Enabled(c, s, st)
    && match st.l
       case PushOneIo => s.ioBuf != []
       case PushOneWork => s.workBuf != []
       case RouteOne(answer) =>
         (match c.router(s.batch[0].nr)
          case IoUring => answer != Accepted
          case WorkerPool => |s.work| >= c.queueDepth
          case SharedPage => true
          case Legacy => true)
       case _ => false
  }

  /** A step drops a completion if and only if it answers into a full completion ring, or a pool thread has used up its
      tries on a full result queue. */
  lemma LosesIffNoRoom(c: World, s: State, st: Step)
    requires Enabled(c, s, st)
    ensures Apply(c, s, st).lost != s.lost <==>
      (Answers(c, s, st) && |s.unread| + |s.unpub| >= c.ringSize)
      || (st.WorkerPush? && |s.results| >= c.queueDepth && s.hands[st.w].tries >= RETRIES)
  {
    if st.Loop? && st.l.RouteOne? {
      RouteLoses(c, s, st.l.answer);
      hide RouteApply;
    }
  }

  lemma RouteLoses(c: World, s: State, answer: Answer)
    requires LoopEnabled(c, s, RouteOne(answer))
    ensures RouteApply(c, s, answer).lost != s.lost <==>
      Answers(c, s, Loop(RouteOne(answer))) && |s.unread| + |s.unpub| >= c.ringSize
  {
  }

  lemma {:induction false} SomeHand(hs: seq<Hand>, w: nat)
    requires w < |hs| && !hs[w].Free?
    ensures Occupied(hs) > 0
  {
    if w > 0 {
      SomeHand(hs[1..], w - 1);
    }
  }

  /** With a modest caller no step drops anything. */
  lemma ModestStep(c: World, s: State, st: Step)
    requires Inv(c, s) && Modest(c, s) && s.lost == [] && Enabled(c, s, st)
    ensures Apply(c, s, st).lost == []
  {
    LosesIffNoRoom(c, s, st);
    if st.WorkerPush? {
      SomeHand(s.hands, st.w);
    }
    assert Counted(s);
    hide Apply, Inv, Occupied;
  }

  lemma {:induction false} ModestRun(c: World, s: State, steps: seq<Step>, t: State)
    requires Inv(c, s) && s.lost == [] && Runs(c, s, steps, t) && AlwaysModest(c, s, steps)
    ensures Inv(c, t) && t.lost == []
    decreases |steps|
  {
    if steps != [] {
      ModestStep(c, s, steps[0]);
      StepInv(c, s, steps[0]);
      hide Inv, Apply, Enabled;
      ModestRun(c, Apply(c, s, steps[0]), steps[1..], t);
    }
  }

  // ── Exactly once ──

  /** x is the number and correlation id of some submitted request. */
  predicate Issued(s: State, x: Tag) { x.0 < |s.issued| && s.issued[x.0].corr == x.1 }

  /** In every run at all: a submitted request is at exactly one place, delivered once, or dropped once; nothing else
      is ever delivered; and each delivered result is the one its request is owed. */
  lemma EveryRunConserves(c: World, s0: State, steps: seq<Step>, s: State, x: Tag)
    requires Initial(s0) && Runs(c, s0, steps, s)
    ensures OnTheWay(s, x) + Comps(s.got, x) + Comps(s.lost, x) == One(Issued(s, x))
    ensures AllLegit(c, s.issued, s.refused, s.got)
  {
    hide Inv, Initial, Runs, Reqs, Comps, OnTheWay, Legit;
    InitialInv(c, s0);
    RunInv(c, s0, steps, s);
    InvMeans(c, s, x);
    ReqsCount(s.issued, 0, x);
  }

  lemma InvMeans(c: World, s: State, x: Tag)
    requires Inv(c, s)
    ensures Accounted(s, x) && Numbered(s) && AllLegit(c, s.issued, s.refused, s.got)
  {
    hide Tidy, Placed, Counted, Legit, OnTheWay, Reqs, Comps;
  }

  // ── Which result ──

  /** A step refuses a request if and only if it routes one to a backend that does not take it, or to a pool whose queue
      is full; no other step changes the log. */
  lemma RefusesIffNotTaken(c: World, s: State, st: Step)
    requires Enabled(c, s, st)
    ensures var t := Apply(c, s, st);
      if st.Loop? && st.l.RouteOne? && c.router(s.batch[0].nr) == WorkerPool && |s.work| >= c.queueDepth then
        t.refused == s.refused[s.batch[0].num := Full]
      else if st.Loop? && st.l.RouteOne? && c.router(s.batch[0].nr) == IoUring && st.l.answer != Accepted then
        t.refused == s.refused[s.batch[0].num := st.l.answer]
      else t.refused == s.refused
  {
    if st.Loop? && st.l.RouteOne? {
      RefusedAfter(c, s, st.l.answer);
      hide RouteApply;
    }
  }

  /** In every run: a delivered completion carries the result of the kernel or of the pool for exactly its request,
      unless that request was refused, and then the error for that refusal. */
  lemma DeliveredResults(c: World, s0: State, steps: seq<Step>, s: State, i: nat)
    requires Initial(s0) && Runs(c, s0, steps, s) && i < |s.got|
    ensures s.got[i].num < |s.issued|
    ensures var (x, r) := (s.got[i], s.issued[s.got[i].num]);
      && x.corr == r.corr
      && (c.router(r.nr) == WorkerPool && x.num !in s.refused ==> x.result == c.pool(x.num))
      && (c.router(r.nr) == WorkerPool && x.num in s.refused ==> x.result == -EAGAIN)
      && (c.router(r.nr) == IoUring && x.num !in s.refused ==> x.result == c.io(x.num))
      && (c.router(r.nr) == IoUring && x.num in s.refused ==>
            x.result == if s.refused[x.num] == Full then -EAGAIN else -ENOSYS)
      && (c.router(r.nr) == SharedPage || c.router(r.nr) == Legacy ==> x.result == -ENOSYS)
  {
    hide Inv, Initial, Runs, OnTheWay;
    EveryRunConserves(c, s0, steps, s, (0, 0));
    DeliveredMeans(c, s, i);
  }

  lemma DeliveredMeans(c: World, s: State, i: nat)
    requires AllLegit(c, s.issued, s.refused, s.got) && i < |s.got|
    ensures Legit(c, s.issued, s.refused, s.got[i])
  {
    hide Legit;
  }

  /** The pool has refused nothing. */
  predicate PoolTakesAll(c: World, s: State) {
    forall n | n in s.refused :: n < |s.issued| && c.router(s.issued[n].nr) == IoUring
  }

  lemma ModestTakes(c: World, s: State, st: Step)
    requires Inv(c, s) && Modest(c, s) && PoolTakesAll(c, s) && Enabled(c, s, st)
    ensures PoolTakesAll(c, Apply(c, s, st))
  {
    RefusesIffNotTaken(c, s, st);
    IssuedGrows(c, s, st);
    assert Counted(s);
    assert s.batch != [] ==> Known(s.issued, s.refused, s.batch[0]);
    hide Apply, Inv, Occupied;
  }

  lemma IssuedGrows(c: World, s: State, st: Step)
    requires Enabled(c, s, st)
    ensures s.issued <= Apply(c, s, st).issued
  {
  }

  lemma {:induction false} ModestTakesAll(c: World, s: State, steps: seq<Step>, t: State)
    requires Inv(c, s) && PoolTakesAll(c, s) && Runs(c, s, steps, t) && AlwaysModest(c, s, steps)
    ensures PoolTakesAll(c, t)
    decreases |steps|
  {
    if steps != [] {
      ModestTakes(c, s, steps[0]);
      StepInv(c, s, steps[0]);
      hide Inv, Apply, Enabled, PoolTakesAll;
      ModestTakesAll(c, Apply(c, s, steps[0]), steps[1..], t);
    }
  }

  /** With a modest caller every delivered completion of a pool request carries the pool's result for it. */
  lemma ModestPoolResults(c: World, s0: State, steps: seq<Step>, s: State, i: nat)
    requires Initial(s0) && Runs(c, s0, steps, s) && AlwaysModest(c, s0, steps) && i < |s.got|
    ensures s.got[i].num < |s.issued|
    ensures c.router(s.issued[s.got[i].num].nr) == WorkerPool ==> s.got[i].result == c.pool(s.got[i].num)
  {
    InitialInv(c, s0);
    assert PoolTakesAll(c, s0);
    hide Inv, Initial, Runs, AlwaysModest;
    ModestTakesAll(c, s0, steps, s);
    DeliveredResults(c, s0, steps, s, i);
  }

  /** Exactly-once completion: if outstanding requests never exceed the completion ring and the pool's queue depth,
      nothing is ever dropped, so every submitted request is either still on its way or has been delivered exactly
      once.  A backend here delivers every completion it has; BasicIoUring keeps that contract only while no more are
      ready than one poll may return, since above that its poll drops one
      (crates/ksvc-module/src/basic_iouring.rs:355-371). */
  lemma ExactlyOnce(c: World, s0: State, steps: seq<Step>, s: State, x: Tag)
    requires Initial(s0) && Runs(c, s0, steps, s) && AlwaysModest(c, s0, steps)
    ensures s.lost == []
    ensures OnTheWay(s, x) + Comps(s.got, x) == One(Issued(s, x))
  {
    InitialInv(c, s0);
    ModestRun(c, s0, steps, s);
    EveryRunConserves(c, s0, steps, s, x);
    hide OnTheWay, Runs, AlwaysModest, Inv;
    assert Comps(s.lost, x) == 0;
  }

  /** While the bound holds, the pool has room for whatever the dispatcher has dequeued. */
  lemma PoolNeverRefuses(c: World, s0: State, steps: seq<Step>, s: State)
    requires Initial(s0) && Runs(c, s0, steps, s) && Modest(c, s) && s.batch != []
    ensures |s.work| < c.queueDepth
  {
    InitialInv(c, s0);
    RunInv(c, s0, steps, s);
    assert Counted(s);
  }

  /** At the end of every iteration all completions are published and notified, everything dequeued has been routed and
      everything routed to the backend has been kicked. */
  lemma IterationsEndClean(c: World, s0: State, steps: seq<Step>, s: State)
    requires Initial(s0) && Runs(c, s0, steps, s) && s.phase == PollIo
    ensures s.unpub == [] && s.untold == 0 && s.batch == [] && s.queued == [] && s.ioBuf == [] && s.workBuf == []
  {
    InitialInv(c, s0);
    RunInv(c, s0, steps, s);
    hide Runs;
  }

  // ── The bound is needed ──

  lemma {:induction false} RunsOn(c: World, s: State, steps: seq<Step>, t: State, st: Step)
    requires Runs(c, s, steps, t) && Enabled(c, t, st)
    ensures Runs(c, s, steps + [st], Apply(c, t, st))
    decreases |steps|
  {
    hide Enabled, Apply;
    if steps == [] {
      assert ([] + [st])[1..] == [];
      assert Runs(c, Apply(c, t, st), [], Apply(c, t, st));
    } else {
      RunsOn(c, Apply(c, s, steps[0]), steps[1..], t, st);
      assert (steps + [st])[1..] == steps[1..] + [st];
    }
  }

  ghost predicate Reached(c: World, s: State) { exists s0, steps :: Initial(s0) && Runs(c, s0, steps, s) }

  lemma ReachedOn(c: World, s: State, st: Step, t: State)
    requires Reached(c, s) && Enabled(c, s, st) && Apply(c, s, st) == t
    ensures Reached(c, t)
  {
    hide Enabled, Apply;
    var s0, steps :| Initial(s0) && Runs(c, s0, steps, s);
    RunsOn(c, s0, steps, s, st);
  }

  function Blank(): State { State(PollIo, [], [], [], [], [], [], [], [], [], [], [], [], [], [], [], 0, map[]) }

  /** m requests of kind nr have been submitted and answered, and no answer has been consumed. */
  function Filled(nr: nat, m: nat): State {
    Blank().(issued := seq(m, i requires 0 <= i => Req(i, i, nr)),
             unread := seq(m, i requires 0 <= i => Comp(i, i, -ENOSYS)))
  }

  /** Another request on its way through one iteration of the loop. */
  function Coming(nr: nat, m: nat, phase: Phase): State {
    Filled(nr, m).(phase := phase, issued := Filled(nr, m + 1).issued)
  }

  lemma Arrives(c: World, nr: nat, m: nat)
    requires Reached(c, Filled(nr, m))
    ensures Reached(c, Coming(nr, m, PushIo).(submitq := [Req(m, m, nr)]))
  {
    hide Reached;
    var s, t := Filled(nr, m), Coming(nr, m, PollIo).(submitq := [Req(m, m, nr)]);
    assert s.issued + [Req(m, m, nr)] == t.issued && [] + [Req(m, m, nr)] == [Req(m, m, nr)];
    ReachedOn(c, s, Submit(m, nr), t);
    ReachedOn(c, t, Loop(TakeIo(0)), t.(phase := PushIo));
  }

  lemma ToDequeue(c: World, t: State)
    requires t.ioBuf == [] && t.workBuf == [] && t.results == [] && t.unpub == [] && Reached(c, t.(phase := PushIo))
    ensures Reached(c, t.(phase := Dequeue))
  {
    hide Reached;
    ReachedOn(c, t.(phase := PushIo), Loop(PushOneIo), t.(phase := PollWork));
    ReachedOn(c, t.(phase := PollWork), Loop(PopEnough), t.(phase := PushWork));
    ReachedOn(c, t.(phase := PushWork), Loop(PushOneWork), t.(phase := Flush1));
    ReachedOn(c, t.(phase := Flush1), Loop(Publish), t.(phase := Dequeue));
  }

  /** The request comes to the router. */
  lemma ToRoute(c: World, nr: nat, m: nat)
    requires Reached(c, Filled(nr, m)) && c.maxBatch >= 1
    ensures Reached(c, Coming(nr, m, Route).(batch := [Req(m, m, nr)]))
  {
    hide Reached;
    Arrives(c, nr, m);
    var r := Req(m, m, nr);
    var t := Coming(nr, m, Dequeue).(submitq := [r]);
    ToDequeue(c, t);
    assert [r][..1] == [r] && [r][1..] == [];
    ReachedOn(c, t, Loop(TakeBatch), Coming(nr, m, Route).(batch := [r]));
  }

  /** There is room for its answer, and the iteration ends. */
  lemma Answered(c: World, nr: nat, m: nat)
    requires Reached(c, Coming(nr, m, Route).(batch := [Req(m, m, nr)])) && m < c.ringSize && c.router(nr) == Legacy
    ensures Reached(c, Coming(nr, m, Flush2).(unpub := [Comp(m, m, -ENOSYS)]))
  {
    hide Reached;
    var r, x := Req(m, m, nr), Comp(m, m, -ENOSYS);
    var t := Coming(nr, m, Route);
    assert [r][1..] == [] && [] + [x] == [x];
    ReachedOn(c, t.(batch := [r]), Loop(RouteOne(Accepted)), t.(unpub := [x]));
    ReachedOn(c, t.(unpub := [x]), Loop(RouteDone), t.(phase := Kick, unpub := [x]));
    ReachedOn(c, t.(phase := Kick, unpub := [x]), Loop(KickIo), t.(phase := Flush2, unpub := [x]));
  }

  lemma OneMoreFilled(c: World, nr: nat, m: nat)
    requires Reached(c, Filled(nr, m)) && m < c.ringSize && c.maxBatch >= 1 && c.router(nr) == Legacy
    ensures Reached(c, Filled(nr, m + 1))
  {
    hide Reached;
    ToRoute(c, nr, m);
    Answered(c, nr, m);
    var x, t := Comp(m, m, -ENOSYS), Filled(nr, m + 1);
    var s := Coming(nr, m, Flush2).(unpub := [x]);
    assert s.unread + [x] == t.unread;
    ReachedOn(c, s, Loop(Publish), t.(phase := Notify2, untold := 1));
    ReachedOn(c, t.(phase := Notify2, untold := 1), Loop(Tell), t);
  }

  lemma {:induction false} Fills(c: World, nr: nat, m: nat)
    requires m <= c.ringSize && c.maxBatch >= 1 && c.router(nr) == Legacy
    ensures Reached(c, Filled(nr, m))
  {
    if m == 0 {
      var b := Blank();
      assert Filled(nr, 0) == b;
      assert Initial(b) && Runs(c, b, [], b);
    } else {
      hide Reached, Filled;
      Fills(c, nr, m - 1);
      OneMoreFilled(c, nr, m - 1);
    }
  }

  /** The bound is tight: for every size of the completion ring, one request more than it has entries can be outstanding
      and a completion be dropped. */
  lemma CrowdedRingDrops(c: World, nr: nat)
    requires c.maxBatch >= 1 && c.router(nr) == Legacy
    ensures exists s :: Reached(c, s) && Outstanding(s) == c.ringSize + 1 && |s.lost| == 1
  {
    hide Reached;
    var n := c.ringSize;
    Fills(c, nr, n);
    ToRoute(c, nr, n);
    var r, x := Req(n, n, nr), Comp(n, n, -ENOSYS);
    var t := Coming(nr, n, Route);
    assert [r][1..] == [] && [] + [x] == [x];
    ReachedOn(c, t.(batch := [r]), Loop(RouteOne(Accepted)), t.(lost := [x]));
  }
}
