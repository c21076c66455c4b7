/** Complete trips through the scheduler end where they began, but for the worker's own counts: a blocking call returns
    with its result, a yield resumes, a spawned thread that finishes leaves nothing behind. */
module LifecycleRoundTrips {
  import opened Basics
  import opened Lifecycle
  import opened LifecycleResume

  // ── Runs ──

  /** A smooth run leads from s to t. */
  ghost predicate Leads(k: nat -> int, s: State, t: State) {
    exists steps :: Run(k, s, steps, t) && Smooth(k, s, steps)
  }

  lemma RunOne(k: nat -> int, s: State, st: Step, rest: seq<Step>, t: State)
    requires Enabled(s, st) && Run(k, Apply(k, s, st), rest, t)
    ensures Run(k, s, [st] + rest, t)
  {
    hide Enabled, Apply;
    assert ([st] + rest)[1..] == rest;
  }

  lemma {:induction false} RunThen(k: nat -> int, s: State, first: seq<Step>, m: State, rest: seq<Step>, t: State)
    requires Run(k, s, first, m) && Run(k, m, rest, t)
    ensures Run(k, s, first + rest, t)
    decreases |first|
  {
    hide Enabled, Apply;
    if first == [] {
      assert first + rest == rest;
    } else {
      RunThen(k, Apply(k, s, first[0]), first[1..], m, rest, t);
      RunOne(k, s, first[0], first[1..] + rest, t);
      assert [first[0]] + (first[1..] + rest) == first + rest;
    }
  }

  lemma {:induction false} SmoothThen(k: nat -> int, s: State, first: seq<Step>, m: State, rest: seq<Step>)
    requires Run(k, s, first, m) && Smooth(k, s, first) && Smooth(k, m, rest)
    ensures Smooth(k, s, first + rest)
    decreases |first|
  {
    hide Enabled, Apply, WakesTooEarly, Plain;
    if first == [] {
      assert first + rest == rest;
    } else {
      SmoothThen(k, Apply(k, s, first[0]), first[1..], m, rest);
      assert (first + rest)[1..] == first[1..] + rest;
    }
  }

  lemma Stays(k: nat -> int, s: State)
    ensures Leads(k, s, s)
  {
    assert Run(k, s, [], s) && Smooth(k, s, []);
  }

  lemma LeadsOn(k: nat -> int, s: State, m: State, t: State)
    requires Leads(k, s, m) && Leads(k, m, t)
    ensures Leads(k, s, t)
  {
    hide Run, Smooth;
    var a :| Run(k, s, a, m) && Smooth(k, s, a);
    var b :| Run(k, m, b, t) && Smooth(k, m, b);
    RunThen(k, s, a, m, b, t);
    SmoothThen(k, s, a, m, b);
  }

  /** Not a timer wake, which could be premature. */
  predicate Quiet(st: Step) { Plain(st) && !(st.Outside? && st.o.TimerLook?) }

  lemma LeadsBy(k: nat -> int, s: State, st: Step, t: State)
    requires Enabled(s, st) && Quiet(st) && Apply(k, s, st) == t
    ensures Leads(k, s, t)
  {
    assert !WakesTooEarly(s, st);
    hide Enabled, Apply, WakesTooEarly, Plain;
    assert Run(k, t, [], t) && Smooth(k, t, []);
    RunOne(k, s, st, [], t);
    assert [st] + [] == [st] && [st][1..] == [];
    assert Smooth(k, s, [st]);
  }

  lemma LeadsThrice(k: nat -> int, s: State, s1: State, s2: State, t: State)
    requires Leads(k, s, s1) && Leads(k, s1, s2) && Leads(k, s2, t)
    ensures Leads(k, s, t)
  {
    hide Leads;
    LeadsOn(k, s, s1, s2);
    LeadsOn(k, s, s2, t);
  }

  /** The state with worker w and the board replaced. */
  function With(s: State, w: nat, wk: Worker, b: Board): State
    requires w < |s.workers|
  {
    Set(s, w, wk).(board := b)
  }

  lemma SetTwice(ws: seq<Worker>, w: nat, a: Worker, b: Worker)
    requires w < |ws|
    ensures ws[w := a][w := b] == ws[w := b]
  {}

  /** One step of worker w between two states that differ from s only in that worker and the board. */
  lemma OneTurn(k: nat -> int, s: State, w: nat, a: Worker, b: Board, st: Step, a': Worker, b': Board)
    requires w < |s.workers| && Enabled(With(s, w, a, b), st) && Quiet(st)
    requires Apply(k, With(s, w, a, b), st) == With(With(s, w, a, b), w, a', b')
    ensures Leads(k, With(s, w, a, b), With(s, w, a', b'))
  {
    SetTwice(s.workers, w, a, a');
    hide Apply, Enabled, Leads, Quiet;
    LeadsBy(k, With(s, w, a, b), st, With(s, w, a', b'));
  }

  /** Two steps of worker w in a row. */
  lemma TwoTurns(k: nat -> int, s: State, w: nat, a: Worker, b: Board, st: Step, a': Worker, b': Board,
                 st': Step, a'': Worker, b'': Board)
    requires w < |s.workers| && Enabled(With(s, w, a, b), st) && Enabled(With(s, w, a', b'), st')
    requires Quiet(st) && Quiet(st')
    requires Apply(k, With(s, w, a, b), st) == With(With(s, w, a, b), w, a', b')
    requires Apply(k, With(s, w, a', b'), st') == With(With(s, w, a', b'), w, a'', b'')
    ensures Leads(k, With(s, w, a, b), With(s, w, a'', b''))
  {
    hide Apply, Enabled, Leads, Quiet, With;
    OneTurn(k, s, w, a, b, st, a', b');
    OneTurn(k, s, w, a', b', st', a'', b'');
    LeadsOn(k, With(s, w, a, b), With(s, w, a', b'), With(s, w, a'', b''));
  }

  // ── The worker loop ──

  /** After a poll at the top that found nothing. */
  function Drained(wk: Worker): Worker { wk.(own := wk.own.(sent := |wk.flight|, waited := false)) }

  lemma PollsNothing(k: nat -> int, s: State, w: nat, wk: Worker, b: Board)
    requires w < |s.workers| && wk.stage == Top && wk.cq == [] && wk.todo == []
    ensures Leads(k, With(s, w, wk, b), With(s, w, Drained(wk).(stage := LookFirst), b))
  {
    assert wk.cq[..0] == [] && wk.cq[0..] == [];
    var a := Drained(wk);
    TwoTurns(k, s, w, wk, b, Loop(w, PollRing(true)), a.(stage := Drain), b, Loop(w, DrainDone),
             a.(stage := LookFirst), b);
  }

  lemma Loads(k: nat -> int, s: State, w: nat, wk: Worker, b: Board, id: Id)
    requires w < |s.workers| && wk.stage == Got && wk.hold == [id] && id < |b.life| == |b.results|
    ensures Leads(k, With(s, w, wk, b), With(s, w, wk.(stage := Exec), RunBoard(b, id)))
  {
    TwoTurns(k, s, w, wk, b, Thread(w, MarkRunning), wk.(stage := Loading), SetLife(b, id, Running),
             Thread(w, SwitchIn), wk.(stage := Exec), RunBoard(b, id));
  }

  /** The boards of a life. */
  function ReadyBoard(b: Board, id: Id): Board
    requires id < |b.life|
  {
    SetLife(b, id, Ready).(saved := b.saved + {id})
  }

  function RunBoard(b: Board, id: Id): Board
    requires id < |b.life|
  {
    SetLife(b, id, Running).(saved := b.saved - {id})
  }

  function DoneBoard(b: Board, id: Id): Board
    requires id < |b.life|
  {
    SetLife(b, id, Finished).(saved := b.saved + {id})
  }

  /** A worker whose check is not due takes the thread in its own queue. */
  lemma TakesLocal(k: nat -> int, s: State, w: nat, wk: Worker, b: Board, id: Id)
    requires w < |s.workers| && wk.stage == LookFirst && wk.local == [id] && wk.hold == []
    requires s.global == [] || !ReadyQueue.Check(wk.own.counter)
    ensures Leads(k, With(s, w, wk, b), With(s, w, Ticked(wk).(stage := Got, hold := [id], local := []), b))
  {
    hide ReadyQueue.Check;
    assert wk.local[1..] == [];
    TwoTurns(k, s, w, wk, b, Pop(w, SkipCheck), Ticked(wk).(stage := LookLocal), b,
             Pop(w, PopLocal), Ticked(wk).(stage := Got, hold := [id], local := []), b);
  }

  /** The state with only thread id in the global queue. */
  function Waiting(s: State, id: Id): State { s.(global := [id]) }

  lemma ChecksGlobal(k: nat -> int, s: State, w: nat, wk: Worker, b: Board, id: Id)
    requires w < |s.workers| && s.global == [] && wk.stage == LookFirst && ReadyQueue.Check(wk.own.counter)
    ensures Leads(k, With(Waiting(s, id), w, wk, b), With(s, w, Ticked(wk).(stage := Got, hold := [id]), b))
  {
    hide ReadyQueue.Check, ReadyQueue.Next, Leads;
    SetTwice(s.workers, w, wk, Ticked(wk).(stage := Got, hold := [id]));
    assert [id][1..] == [];
    LeadsBy(k, With(Waiting(s, id), w, wk, b), Pop(w, CheckGlobal),
            With(s, w, Ticked(wk).(stage := Got, hold := [id]), b));
  }

  lemma LooksGlobal(k: nat -> int, s: State, w: nat, wk: Worker, b: Board, id: Id)
    requires w < |s.workers| && s.global == [] && wk.stage == LookGlobal && wk.hold == [] && wk.local == []
    requires id < |b.life| == |b.results|
    ensures Leads(k, With(Waiting(s, id), w, wk, b), With(s, w, wk.(stage := Got, hold := [id]), b))
  {
    hide Leads;
    var a := wk.(stage := Grab, hold := [id]);
    SetTwice(s.workers, w, wk, a);
    assert [id][1..] == [];
    LeadsBy(k, With(Waiting(s, id), w, wk, b), Pop(w, PopGlobal), With(s, w, a, b));
    assert [id] + s.global[..0] == [id] && s.global[0..] == [];
    TwoTurns(k, s, w, a, b, Pop(w, GrabBatch), a.(stage := Carry), b, Pop(w, TakeDone), a.(stage := Got), b);
    hide With;
    LeadsOn(k, With(Waiting(s, id), w, wk, b), With(s, w, a, b), With(s, w, a.(stage := Got), b));
  }

  lemma SkipsToGlobal(k: nat -> int, s: State, w: nat, wk: Worker, b: Board)
    requires w < |s.workers| && wk.stage == LookFirst && wk.local == []
    requires s.global == [] || !ReadyQueue.Check(wk.own.counter)
    ensures Leads(k, With(s, w, wk, b), With(s, w, Ticked(wk).(stage := LookGlobal), b))
  {
    hide ReadyQueue.Check, ReadyQueue.Next;
    TwoTurns(k, s, w, wk, b, Pop(w, SkipCheck), Ticked(wk).(stage := LookLocal), b,
             Pop(w, PopLocal), Ticked(wk).(stage := LookGlobal), b);
  }

  /** A worker with nothing of its own takes the only thread in the global queue, whether its check is due or not. */
  lemma TakesGlobal(k: nat -> int, s: State, w: nat, wk: Worker, b: Board, id: Id)
    requires w < |s.workers| && s.global == [] && wk.stage == LookFirst && wk.hold == [] && wk.local == []
    requires id < |b.life| == |b.results|
    ensures Leads(k, With(Waiting(s, id), w, wk, b), With(s, w, Ticked(wk).(stage := Got, hold := [id]), b))
  {
    hide ReadyQueue.Check, ReadyQueue.Next, Leads;
    if ReadyQueue.Check(wk.own.counter) {
      ChecksGlobal(k, s, w, wk, b, id);
    } else {
      SkipsToGlobal(k, Waiting(s, id), w, wk, b);
      LooksGlobal(k, s, w, Ticked(wk).(stage := LookGlobal), b, id);
      hide With, Ticked;
      LeadsOn(k, With(Waiting(s, id), w, wk, b), With(Waiting(s, id), w, Ticked(wk).(stage := LookGlobal), b),
              With(s, w, Ticked(wk).(stage := Got, hold := [id]), b));
    }
  }

  // ── A pop that finds nothing ──

  /** The random state after some draws. */
  function Spun(rng: nat, n: nat, draws: nat): nat
    decreases draws
  {
    if draws == 0 then rng else Spun(ReadyQueue.Pick(rng, n).1, n, draws - 1)
  }

  /** No other worker has two threads queued, so that half of them could be stolen. */
  ghost predicate NothingToSteal(s: State, w: nat) {
    forall v | 0 <= v < |s.workers| && v != w :: |s.workers[v].local| < 2
  }

  lemma {:induction false} MissesAll(k: nat -> int, s: State, w: nat, wk: Worker, b: Board)
    requires w < |s.workers| && wk.stage == LookSteal && NothingToSteal(s, w)
    ensures Leads(k, With(s, w, wk, b),
                  With(s, w, wk.(own := wk.own.(rng := Spun(wk.own.rng, |s.workers|, wk.own.draws), draws := 0)), b))
    decreases wk.own.draws
  {
    hide Leads, ReadyQueue.Pick;
    if wk.own.draws == 0 {
      Stays(k, With(s, w, wk, b));
    } else {
      var a := wk.(own := wk.own.(rng := ReadyQueue.Pick(wk.own.rng, |s.workers|).1, draws := wk.own.draws - 1));
      OneTurn(k, s, w, wk, b, Pop(w, Miss), a, b);
      MissesAll(k, s, w, a, b);
      hide With;
      LeadsOn(k, With(s, w, wk, b), With(s, w, a, b),
              With(s, w, wk.(own := wk.own.(rng := Spun(wk.own.rng, |s.workers|, wk.own.draws), draws := 0)), b));
    }
  }

  /** The worker's own counts after a pop among n workers that found nothing. */
  function InVain(own: Own, n: nat): Own {
    own.(counter := ReadyQueue.Next(own.counter), rng := Spun(own.rng, n, Least(n, ReadyQueue.STEAL_TRIES)),
         draws := 0)
  }

  /** A worker with flushed requests that finds nothing to do waits in its ring. */
  lemma FindsNothing(k: nat -> int, s: State, w: nat, wk: Worker, b: Board)
    requires w < |s.workers| && s.global == [] && wk.stage == LookFirst && wk.local == [] && NothingToSteal(s, w)
    requires wk.own.sent == |wk.flight| > 0
    ensures Leads(k, With(s, w, wk, b), With(s, w, wk.(stage := InRing, own := InVain(wk.own, |s.workers|)), b))
  {
    hide Leads, ReadyQueue.Check, ReadyQueue.Next, ReadyQueue.Pick, Spun, NothingToSteal;
    var n := |s.workers|;
    var a := Ticked(wk).(stage := LookGlobal);
    var c := a.(stage := LookSteal, own := a.own.(draws := Least(n, ReadyQueue.STEAL_TRIES)));
    var d := c.(own := c.own.(rng := Spun(c.own.rng, n, c.own.draws), draws := 0));
    SkipsToGlobal(k, s, w, wk, b);
    OneTurn(k, s, w, a, b, Pop(w, PopGlobal), c, b);
    MissesAll(k, s, w, c, b);
    OneTurn(k, s, w, d, b, Pop(w, NoWork(true)), d.(stage := InRing), b);
    assert d.(stage := InRing) == wk.(stage := InRing, own := InVain(wk.own, n));
    hide With, InVain;
    LeadsThrice(k, With(s, w, wk, b), With(s, w, a, b), With(s, w, c, b), With(s, w, d, b));
    LeadsOn(k, With(s, w, wk, b), With(s, w, d, b), With(s, w, d.(stage := InRing), b));
  }

  // ── Yield ──

  /** Worker w runs a thread outside I/O and has nothing else: empty local queue, empty ring. */
  predicate Resting(s: State, w: nat)
    requires w < |s.workers| && s.workers[w].hold != [] && Cur(s, w) < |s.board.life|
  {
    var wk := s.workers[w];
    && wk.stage == Exec && |wk.hold| == 1 && wk.local == [] && wk.cq == [] && wk.todo == [] && wk.flight == []
    && s.board.life[Cur(s, w)] == Running && Cur(s, w) !in s.board.saved && Cur(s, w) !in s.board.awaiting
    && Cur(s, w) !in s.board.parked && Cur(s, w) !in s.board.reading
  }

  lemma YieldLeaves(k: nat -> int, s: State, w: nat, wk: Worker, b: Board, id: Id)
    requires w < |s.workers| && wk.stage == Exec && wk.hold == [id] && id < |b.life| == |b.results| && id !in b.reading
    ensures Leads(k, With(s, w, wk, b), With(s, w, wk.(stage := Back), ReadyBoard(b, id)))
  {
    TwoTurns(k, s, w, wk, b, Thread(w, YieldMark), wk.(stage := Marked), SetLife(b, id, Ready),
             Thread(w, SwitchOut), wk.(stage := Back), ReadyBoard(b, id));
  }

  lemma YieldRequeues(k: nat -> int, s: State, w: nat, wk: Worker, b: Board, id: Id)
    requires w < |s.workers| && wk.stage == Back && wk.hold == [id] && wk.local == []
    requires id < |b.life| == |b.results| && b.life[id] == Ready
    ensures Leads(k, With(s, w, wk, b), With(s, w, wk.(stage := Top, hold := [], local := [id]), b))
  {
    assert wk.local + [id] == [id];
    TwoTurns(k, s, w, wk, b, Thread(w, Inspect), wk.(stage := Requeue), b,
             Thread(w, PushBack), wk.(stage := Top, hold := [], local := [id]), b);
  }

  /** A thread that yields on a worker with nothing else to do is resumed there, in the state it left but for the
      worker's counts, if and as soon as the worker's next pop does not take another thread from the global queue. */
  lemma YieldRoundTrip(k: nat -> int, s: State, w: nat)
    requires ThreadEnabled(s, w, YieldMark) && Resting(s, w) && !Due(s, w)
    ensures Leads(k, s, Set(s, w, Ticked(Drained(s.workers[w]))))
  {
    var wk, b, id := s.workers[w], s.board, Cur(s, w);
    assert wk.hold == [id];
    assert With(s, w, wk, b) == s && With(s, w, Ticked(Drained(wk)), b) == Set(s, w, Ticked(Drained(wk)));
    hide Leads, ThreadEnabled, Resting, ReadyQueue.Check;
    YieldTrip(k, s, w, wk, b, id);
  }

  lemma YieldTrip(k: nat -> int, s: State, w: nat, wk: Worker, b: Board, id: Id)
    requires w < |s.workers| && wk.stage == Exec && wk.hold == [id] && wk.local == [] && wk.cq == [] && wk.todo == []
    requires id < |b.life| == |b.results| && id !in b.reading && b.life[id] == Running && id !in b.saved
    requires s.global == [] || !ReadyQueue.Check(wk.own.counter)
    ensures Leads(k, With(s, w, wk, b), With(s, w, Ticked(Drained(wk)), b))
  {
    hide Leads, With, ReadyQueue.Check, ReadyQueue.Next;
    var c := ReadyBoard(b, id);
    var w3, w4 := wk.(stage := Back), wk.(stage := Top, hold := [], local := [id]);
    var w5 := Drained(w4).(stage := LookFirst);
    var w6 := Ticked(w5).(stage := Got, hold := [id], local := []);
    YieldLeaves(k, s, w, wk, b, id);
    YieldRequeues(k, s, w, w3, c, id);
    PollsNothing(k, s, w, w4, c);
    TakesLocal(k, s, w, w5, c, id);
    Loads(k, s, w, w6, c, id);
    assert RunBoard(c, id) == b;
    assert w6.(stage := Exec) == Ticked(Drained(wk));
    hide SetLife, ReadyBoard, RunBoard, Ticked, Drained;
    LeadsThrice(k, With(s, w, wk, b), With(s, w, w3, c), With(s, w, w4, c), With(s, w, w5, c));
    LeadsThrice(k, With(s, w, wk, b), With(s, w, w5, c), With(s, w, w6, c), With(s, w, w6.(stage := Exec), b));
  }

  // ── Blocking call ──

  /** The board while the thread is parked. */
  function ParkedBoard(b: Board, id: Id, num: nat, w: nat): Board
    requires id < |b.life|
  {
    SetLife(b, id, Blocked).(saved := b.saved + {id}, parked := b.parked + {id},
                             awaiting := b.awaiting[id := Io(num, w)], reading := b.reading[id := num])
  }

  lemma Submits(k: nat -> int, s: State, w: nat, wk: Worker, b: Board, id: Id)
    requires w < |s.workers| && wk.stage == Exec && wk.hold == [id] && id < |b.life| == |b.results| && id !in b.reading
    ensures Leads(k, With(s, w, wk, b),
                  With(s.(next := s.next + 1), w, wk.(stage := Queued, flight := wk.flight + [Sqe(id, s.next)]),
                       b.(awaiting := b.awaiting[id := Io(s.next, w)], reading := b.reading[id := s.next])))
  {
    hide Leads;
    var wk' := wk.(stage := Queued, flight := wk.flight + [Sqe(id, s.next)]);
    SetTwice(s.workers, w, wk, wk');
    LeadsBy(k, With(s, w, wk, b), Thread(w, SubmitIo(true)),
            With(s.(next := s.next + 1), w, wk',
                 b.(awaiting := b.awaiting[id := Io(s.next, w)], reading := b.reading[id := s.next])));
  }

  lemma Blocks(k: nat -> int, s: State, w: nat, wk: Worker, b: Board, id: Id)
    requires w < |s.workers| && wk.stage == Queued && wk.hold == [id] && id < |b.life| == |b.results|
    ensures Leads(k, With(s, w, wk, b),
                  With(s, w, wk.(stage := Back), SetLife(b, id, Blocked).(saved := b.saved + {id})))
  {
    TwoTurns(k, s, w, wk, b, Thread(w, BlockMark), wk.(stage := Marked), SetLife(b, id, Blocked),
             Thread(w, SwitchOut), wk.(stage := Back), SetLife(b, id, Blocked).(saved := b.saved + {id}));
  }

  lemma LetsGo(k: nat -> int, s: State, w: nat, wk: Worker, b: Board, id: Id)
    requires w < |s.workers| && wk.stage == Back && wk.hold == [id] && id < |b.life| == |b.results|
    requires b.life[id] == Blocked
    ensures Leads(k, With(s, w, wk, b), With(s, w, wk.(stage := Top, hold := []), b.(parked := b.parked + {id})))
  {
    hide Leads;
    OneTurn(k, s, w, wk, b, Thread(w, Inspect), wk.(stage := Top, hold := []), b.(parked := b.parked + {id}));
  }

  /** A thread submits a request and parks. */
  lemma Parks(k: nat -> int, s: State, w: nat, wk: Worker, b: Board, id: Id)
    requires w < |s.workers| && wk.stage == Exec && wk.hold == [id] && id < |b.life| == |b.results| && id !in b.reading
    ensures Leads(k, With(s, w, wk, b),
                  With(s.(next := s.next + 1), w,
                       wk.(stage := Top, hold := [], flight := wk.flight + [Sqe(id, s.next)]),
                       ParkedBoard(b, id, s.next, w)))
  {
    hide Leads, With;
    var u := s.(next := s.next + 1);
    var w1 := wk.(stage := Queued, flight := wk.flight + [Sqe(id, s.next)]);
    var b1 := b.(awaiting := b.awaiting[id := Io(s.next, w)], reading := b.reading[id := s.next]);
    var b2 := SetLife(b1, id, Blocked).(saved := b.saved + {id});
    Submits(k, s, w, wk, b, id);
    Blocks(k, u, w, w1, b1, id);
    LetsGo(k, u, w, w1.(stage := Back), b2, id);
    assert b2.(parked := b2.parked + {id}) == ParkedBoard(b, id, s.next, w);
    hide SetLife, ParkedBoard;
    LeadsThrice(k, With(s, w, wk, b), With(u, w, w1, b1), With(u, w, w1.(stage := Back), b2),
                With(u, w, w1.(stage := Top, hold := []), b2.(parked := b2.parked + {id})));
  }

  /** The worker waits in its ring, the request completes, and the wait ends. */
  lemma WaitsForIt(k: nat -> int, s: State, w: nat, wk: Worker, b: Board, q: Sqe)
    requires w < |s.workers| && wk.stage == InRing && wk.flight == [q] && wk.cq == [] && wk.own.sent == 1
    ensures var own := wk.own.(sent := 0, waited := true);
      Leads(k, With(s, w, wk, b),
            With(s, w, wk.(stage := Drain, flight := [], todo := [Cqe(q.slot, q.num, k(q.num))], own := own), b))
  {
    var c := Cqe(q.slot, q.num, k(q.num));
    assert wk.flight[..0] + wk.flight[1..] == [] && wk.cq + [c] == [c] && [c][..1] == [c] && [c][1..] == [];
    var a := wk.(flight := [], cq := [c], own := wk.own.(sent := 0));
    TwoTurns(k, s, w, wk, b, Outside(Complete(w, 0)), a, b, Loop(w, WaitRing(false)),
             a.(stage := Drain, cq := [], todo := [c], own := a.own.(waited := true)), b);
  }

  lemma StoresAndWakes(k: nat -> int, s: State, w: nat, wk: Worker, b: Board, c: Cqe)
    requires w < |s.workers| && wk.stage == Drain && wk.todo == [c] && wk.hold == []
    requires c.slot < |b.life| == |b.results| && b.life[c.slot] == Blocked
    ensures Leads(k, With(s, w, wk, b), With(s, w, wk.(stage := Waking, hold := [c.slot], todo := []),
                                             Woken(b.(results := b.results[c.slot := c.value]), c.slot)))
  {
    assert wk.todo[1..] == [];
    var b' := b.(results := b.results[c.slot := c.value]);
    TwoTurns(k, s, w, wk, b, Loop(w, StoreResult), wk.(stage := Stored), b',
             Loop(w, WakeLook), wk.(stage := Waking, hold := [c.slot], todo := []), Woken(b', c.slot));
  }

  /** The woken thread goes to the global queue, and the worker, which had waited, back to the top. */
  lemma PushesAndReturns(k: nat -> int, s: State, w: nat, wk: Worker, b: Board, id: Id)
    requires w < |s.workers| && s.global == [] && wk.stage == Waking && wk.hold == [id] && wk.todo == []
    requires wk.own.waited && id < |b.life| == |b.results|
    ensures Leads(k, With(s, w, wk, b), With(Waiting(s, id), w, wk.(stage := Top, hold := []), b))
  {
    hide Leads;
    var a := wk.(stage := Drain, hold := []);
    SetTwice(s.workers, w, wk, a);
    assert s.global + [id] == [id];
    LeadsBy(k, With(s, w, wk, b), Loop(w, WakePush(false)), With(Waiting(s, id), w, a, b));
    OneTurn(k, Waiting(s, id), w, a, b, Loop(w, DrainDone), wk.(stage := Top, hold := []), b);
    hide With;
    LeadsOn(k, With(s, w, wk, b), With(Waiting(s, id), w, a, b),
            With(Waiting(s, id), w, wk.(stage := Top, hold := []), b));
  }

  lemma Reads(k: nat -> int, s: State, w: nat, wk: Worker, b: Board, id: Id)
    requires w < |s.workers| && wk.stage == Exec && wk.hold == [id] && id < |b.life| == |b.results| && id in b.reading
    ensures Leads(k, With(s, w, wk, b), With(s, w, wk, b.(reading := b.reading - {id})))
  {
    hide Leads;
    OneTurn(k, s, w, wk, b, Thread(w, ReadResult), wk, b.(reading := b.reading - {id}));
  }

  /** The worker's own counts after the whole call: two pops, the first in vain. */
  function CallOwn(own: Own, n: nat): Own {
    var first := InVain(own, n);
    first.(counter := ReadyQueue.Next(first.counter), sent := 0, waited := false)
  }

  lemma Unparked(b: Board, id: Id, num: nat, w: nat, v: int)
    requires id < |b.life| == |b.results| && b.life[id] == Running
    requires id !in b.saved && id !in b.parked && id !in b.awaiting && id !in b.reading
    ensures var p := ParkedBoard(b, id, num, w);
            var r := Woken(p.(results := p.results[id := v]), id);
            RunBoard(r, id) == b.(results := b.results[id := v], reading := b.reading[id := num])
  {
    var p := ParkedBoard(b, id, num, w);
    var r := Woken(p.(results := p.results[id := v]), id);
    assert r.awaiting == b.awaiting && r.parked == b.parked;
    assert r.saved - {id} == b.saved;
    assert SetLife(r, id, Running).life == b.life;
  }

  /** From the park to the wake. */
  lemma IoWakes(k: nat -> int, u: State, w: nat, wk: Worker, b: Board, id: Id, num: nat)
    requires w < |u.workers| && u.global == [] && wk.stage == Top && wk.hold == [] && NothingToSteal(u, w)
    requires wk.local == [] && wk.cq == [] && wk.todo == [] && wk.flight == [Sqe(id, num)]
    requires id < |b.life| == |b.results| && b.life[id] == Blocked
    ensures var own := InVain(wk.own, |u.workers|).(sent := 0, waited := true);
      Leads(k, With(u, w, wk, b),
            With(Waiting(u, id), w, wk.(flight := [], own := own),
                 Woken(b.(results := b.results[id := k(num)]), id)))
  {
    hide Leads, With, NothingToSteal, ReadyQueue.Next, Spun;
    var n, c := |u.workers|, Cqe(id, num, k(num));
    var w1 := Drained(wk).(stage := LookFirst);
    var w2 := w1.(stage := InRing, own := InVain(w1.own, n));
    var own := w2.own.(sent := 0, waited := true);
    var w3 := w2.(stage := Drain, flight := [], todo := [c], own := own);
    var w4 := w3.(stage := Waking, hold := [id], todo := []);
    var b' := Woken(b.(results := b.results[id := c.value]), id);
    PollsNothing(k, u, w, wk, b);
    FindsNothing(k, u, w, w1, b);
    WaitsForIt(k, u, w, w2, b, Sqe(id, num));
    StoresAndWakes(k, u, w, w3, b, c);
    PushesAndReturns(k, u, w, w4, b', id);
    assert own == InVain(wk.own, n).(sent := 0, waited := true);
    assert w4.(stage := Top, hold := []) == wk.(flight := [], own := own);
    hide Woken, Drained, InVain;
    LeadsThrice(k, With(u, w, wk, b), With(u, w, w1, b), With(u, w, w2, b), With(u, w, w3, b));
    LeadsThrice(k, With(u, w, wk, b), With(u, w, w3, b), With(u, w, w4, b'),
                With(Waiting(u, id), w, w4.(stage := Top, hold := []), b'));
  }

  /** From the wake to the return of the call. */
  lemma IoReturns(k: nat -> int, u: State, w: nat, wk: Worker, b: Board, id: Id)
    requires w < |u.workers| && u.global == [] && wk.stage == Top && wk.hold == []
    requires wk.local == [] && wk.cq == [] && wk.todo == [] && wk.flight == []
    requires id < |b.life| == |b.results| && id in b.reading
    ensures Leads(k, With(Waiting(u, id), w, wk, b),
                  With(u, w, Ticked(Drained(wk)).(stage := Exec, hold := [id]),
                       RunBoard(b, id).(reading := b.reading - {id})))
  {
    hide Leads, With, ReadyQueue.Next;
    var w1 := Drained(wk).(stage := LookFirst);
    var w2 := Ticked(w1).(stage := Got, hold := [id]);
    var w3, b3 := w2.(stage := Exec), RunBoard(b, id);
    PollsNothing(k, Waiting(u, id), w, wk, b);
    TakesGlobal(k, u, w, w1, b, id);
    Loads(k, u, w, w2, b, id);
    Reads(k, u, w, w3, b3, id);
    assert w3 == Ticked(Drained(wk)).(stage := Exec, hold := [id]);
    hide RunBoard, Drained, Ticked;
    LeadsThrice(k, With(Waiting(u, id), w, wk, b), With(Waiting(u, id), w, w1, b), With(u, w, w2, b),
                With(u, w, w3, b3));
    LeadsOn(k, With(Waiting(u, id), w, wk, b), With(u, w, w3, b3), With(u, w, w3, b3.(reading := b3.reading - {id})));
  }

  /** A thread that makes a blocking worker-local call on a worker with nothing else to do parks, its worker waits in
      the ring, the completion wakes it through the global queue, and it returns in the state it left, except for the
      kernel's result in the slab and the worker's counts. */
  lemma IoRoundTrip(k: nat -> int, s: State, w: nat)
    requires ThreadEnabled(s, w, SubmitIo(true)) && Resting(s, w) && s.global == [] && NothingToSteal(s, w)
    ensures var t := Set(s, w, s.workers[w].(own := CallOwn(s.workers[w].own, |s.workers|)));
      Leads(k, s, t.(board := s.board.(results := s.board.results[Cur(s, w) := k(s.next)]), next := s.next + 1))
  {
    var wk, b, id := s.workers[w], s.board, Cur(s, w);
    assert wk.hold == [id];
    assert With(s, w, wk, b) == s;
    var u := s.(next := s.next + 1);
    assert NothingToSteal(u, w);
    assert With(u, w, wk.(own := CallOwn(wk.own, |s.workers|)), b.(results := b.results[id := k(s.next)])) ==
      Set(s, w, wk.(own := CallOwn(wk.own, |s.workers|)))
      .(board := b.(results := b.results[id := k(s.next)]), next := s.next + 1);
    hide Leads, ThreadEnabled, NothingToSteal;
    IoTrip(k, s, w, wk, b, id);
  }

  lemma IoTrip(k: nat -> int, s: State, w: nat, wk: Worker, b: Board, id: Id)
    requires w < |s.workers| && s.global == [] && NothingToSteal(s.(next := s.next + 1), w)
    requires wk.stage == Exec && wk.hold == [id]
    requires wk.local == [] && wk.cq == [] && wk.todo == [] && wk.flight == []
    requires id < |b.life| == |b.results| && b.life[id] == Running
    requires id !in b.saved && id !in b.parked && id !in b.awaiting && id !in b.reading
    ensures Leads(k, With(s, w, wk, b),
                  With(s.(next := s.next + 1), w, wk.(own := CallOwn(wk.own, |s.workers|)),
                       b.(results := b.results[id := k(s.next)])))
  {
    hide Leads, With, NothingToSteal, ReadyQueue.Next, Spun;
    var u, num := s.(next := s.next + 1), s.next;
    var q := Sqe(id, num);
    assert wk.flight + [q] == [q];
    var w1, b1 := wk.(stage := Top, hold := [], flight := [q]), ParkedBoard(b, id, num, w);
    var w2 := w1.(flight := [], own := InVain(wk.own, |s.workers|).(sent := 0, waited := true));
    var b2 := Woken(b1.(results := b1.results[id := k(num)]), id);
    Parks(k, s, w, wk, b, id);
    IoWakes(k, u, w, w1, b1, id, num);
    IoReturns(k, u, w, w2, b2, id);
    Unparked(b, id, num, w, k(num));
    assert Ticked(Drained(w2)).(stage := Exec, hold := [id]) == wk.(own := CallOwn(wk.own, |s.workers|));
    assert b.reading[id := num] - {id} == b.reading;
    assert RunBoard(b2, id).(reading := b2.reading - {id}) == b.(results := b.results[id := k(num)]);
    hide Woken, ParkedBoard, InVain, Drained, Ticked, CallOwn, RunBoard;
    LeadsThrice(k, With(s, w, wk, b), With(u, w, w1, b1), With(Waiting(u, id), w, w2, b2),
                With(u, w, wk.(own := CallOwn(wk.own, |s.workers|)), b.(results := b.results[id := k(num)])));
  }

  // ── Spawn to exit ──

  /** The state with thread id waiting in the global queue. */
  function Spawned(s: State, id: Id): State
    requires id < |s.board.life|
  {
    s.(global := s.global + [id], board := ReadyBoard(s.board, id))
  }

  lemma Spawns(k: nat -> int, s: State, a: nat, id: Id)
    requires OutsideEnabled(s, Allocate(a, id))
    ensures Leads(k, s, Spawned(s, id))
  {
    hide Leads;
    var s1 := OutsideApply(k, s, Allocate(a, id));
    var s2 := OutsideApply(k, s1, InitReady(a));
    var s3 := OutsideApply(k, s2, AgentPush(a));
    assert s3.agents == s.agents;
    assert s3 == Spawned(s, id);
    LeadsBy(k, s, Outside(Allocate(a, id)), s1);
    LeadsBy(k, s1, Outside(InitReady(a)), s2);
    LeadsBy(k, s2, Outside(AgentPush(a)), s3);
    hide Apply, Enabled;
    LeadsThrice(k, s, s1, s2, s3);
  }

  lemma Finishes(k: nat -> int, s: State, w: nat, wk: Worker, b: Board, id: Id)
    requires w < |s.workers| && wk.stage == Exec && wk.hold == [id] && id < |b.life| == |b.results| && id !in b.reading
    ensures Leads(k, With(s, w, wk, b), With(s, w, wk.(stage := Back), DoneBoard(b, id)))
  {
    TwoTurns(k, s, w, wk, b, Thread(w, FinishMark), wk.(stage := Marked), SetLife(b, id, Finished),
             Thread(w, SwitchOut), wk.(stage := Back), DoneBoard(b, id));
  }

  lemma Reaps(k: nat -> int, s: State, w: nat, wk: Worker, b: Board, id: Id)
    requires w < |s.workers| && wk.stage == Back && wk.hold == [id]
    requires id < |b.life| == |b.results| && b.life[id] == Finished
    ensures Leads(k, With(s, w, wk, b),
                  With(s, w, wk.(stage := Top, hold := []), SetLife(b, id, Free).(saved := b.saved - {id})))
  {
    TwoTurns(k, s, w, wk, b, Thread(w, Inspect), wk.(stage := Reap), b,
             Thread(w, Release), wk.(stage := Top, hold := []), SetLife(b, id, Free).(saved := b.saved - {id}));
  }

  /** At the top of the loop with empty hands and queues and no completion ready. */
  predicate AtRest(wk: Worker) { wk.stage == Top && wk.hold == [] && wk.local == [] && wk.cq == [] && wk.todo == [] }

  /** From the global queue to running on such a worker. */
  lemma Starts(k: nat -> int, s: State, w: nat, id: Id)
    requires w < |s.workers| && AtRest(s.workers[w]) && s.global == [] && id < |s.board.life| == |s.board.results|
    ensures Leads(k, Spawned(s, id), With(s, w, Ticked(Drained(s.workers[w])).(stage := Exec, hold := [id]),
                                          RunBoard(ReadyBoard(s.board, id), id)))
  {
    hide Leads, ReadyQueue.Next;
    var wk, b := s.workers[w], ReadyBoard(s.board, id);
    var w1 := Drained(wk).(stage := LookFirst);
    var w2 := Ticked(w1).(stage := Got, hold := [id]);
    assert s.global + [id] == [id];
    assert With(Waiting(s, id), w, wk, b) == Spawned(s, id);
    PollsNothing(k, Waiting(s, id), w, wk, b);
    TakesGlobal(k, s, w, w1, b, id);
    Loads(k, s, w, w2, b, id);
    assert w2.(stage := Exec) == Ticked(Drained(wk)).(stage := Exec, hold := [id]);
    hide With, Spawned, RunBoard, ReadyBoard, Ticked, Drained;
    LeadsThrice(k, Spawned(s, id), With(Waiting(s, id), w, w1, b), With(s, w, w2, b),
                With(s, w, w2.(stage := Exec), RunBoard(b, id)));
  }

  lemma BackToFree(s: State, id: Id)
    requires id < |s.board.life| && s.board.life[id] == Free && id !in s.board.saved
    ensures var b := DoneBoard(RunBoard(ReadyBoard(s.board, id), id), id);
            SetLife(b, id, Free).(saved := b.saved - {id}) == s.board
  {
  }

  lemma LivesAndDies(k: nat -> int, s: State, w: nat, id: Id)
    requires w < |s.workers| && AtRest(s.workers[w]) && s.global == []
    requires id < |s.board.life| == |s.board.results| && s.board.life[id] == Free
    requires id !in s.board.saved && id !in s.board.reading
    ensures Leads(k, Spawned(s, id), Set(s, w, Ticked(Drained(s.workers[w]))))
  {
    hide Leads, Spawned, ReadyQueue.Next;
    var wk := s.workers[w];
    var w2 := Ticked(Drained(wk)).(stage := Exec, hold := [id]);
    var b3 := RunBoard(ReadyBoard(s.board, id), id);
    var b4 := DoneBoard(b3, id);
    Starts(k, s, w, id);
    Finishes(k, s, w, w2, b3, id);
    Reaps(k, s, w, w2.(stage := Back), b4, id);
    BackToFree(s, id);
    assert w2.(stage := Top, hold := []) == Ticked(Drained(wk));
    assert With(s, w, Ticked(Drained(wk)), s.board) == Set(s, w, Ticked(Drained(wk)));
    hide SetLife, ReadyBoard, RunBoard, DoneBoard, With, Ticked, Drained;
    LeadsThrice(k, Spawned(s, id), With(s, w, w2, b3), With(s, w, w2.(stage := Back), b4),
                With(s, w, Ticked(Drained(wk)), s.board));
  }

  /** A thread that is spawned, picked up by an idle worker and finishes leaves the state exactly as it was, but for the
      worker's counts. */
  lemma SpawnRoundTrip(k: nat -> int, s: State, a: nat, w: nat, id: Id)
    requires OutsideEnabled(s, Allocate(a, id)) && |s.board.results| == |s.board.life|
    requires w < |s.workers| && AtRest(s.workers[w]) && s.global == []
    requires id !in s.board.saved && id !in s.board.reading
    ensures Leads(k, s, Set(s, w, Ticked(Drained(s.workers[w]))))
  {
    hide Leads;
    Spawns(k, s, a, id);
    LivesAndDies(k, s, w, id);
    hide Spawned, Ticked, Drained;
    LeadsOn(k, s, Spawned(s, id), Set(s, w, Ticked(Drained(s.workers[w]))));
  }
}
