/** Conservation, promptness and bounded waiting of the ready queue. */
module ReadyQueueFacts {
  import opened Basics
  import opened Bags
  import opened ReadyQueue

  function LocalBags(ls: seq<seq<Id>>): seq<multiset<Id>> { seq(|ls|, i requires 0 <= i < |ls| => multiset(ls[i])) }

  /** Everything queued anywhere. */
  ghost function All(q: Queues): multiset<Id> { multiset(q.global) + Sum(LocalBags(q.locals)) }

  ghost function Got(r: Option<Id>): multiset<Id> { if r.Some? then multiset{r.value} else multiset{} }

  /** One local queue and the global queue change; x leaves them. */
  lemma Leaves(q: Queues, w: nat, l: seq<Id>, g: seq<Id>, x: multiset<Id>)
    requires w < |q.locals| && multiset(q.global) + multiset(q.locals[w]) == multiset(g) + multiset(l) + x
    ensures All(q) == All(q.(locals := q.locals[w := l], global := g)) + x
  {
    var bs := LocalBags(q.locals);
    assert LocalBags(q.locals[w := l]) == bs[w := multiset(l)];
    SumUpdate(bs, w, multiset(l));
    hide Sum, LocalBags;
    Exchange(multiset(q.global), Sum(bs), multiset(q.locals[w]), multiset(g), Sum(bs[w := multiset(l)]), multiset(l),
      x);
  }

  /** The counters and random states do not matter. */
  lemma AllOf(q: Queues, q': Queues)
    requires q'.locals == q.locals && q'.global == q.global
    ensures All(q') == All(q)
  {}

  // ── Conservation ──

  lemma PushConserves(q: Queues, id: Id, hint: Option<nat>)
    requires Sized(q)
    ensures All(Pushed(q, id, hint)) == All(q) + multiset{id} && Sized(Pushed(q, id, hint))
  {
    var q' := Pushed(q, id, hint);
    if q'.global == q.global {
      var w := hint.value;
      assert q'.locals[w] == q.locals[w] + [id];
      assert q == q'.(locals := q'.locals[w := q.locals[w]], global := q.global) by {
        assert q'.locals[w := q.locals[w]] == q.locals;
      }
      Leaves(q', w, q.locals[w], q.global, multiset{id});
    } else {
      hide Sum, LocalBags;
      assert multiset(q.global + [id]) == multiset(q.global) + multiset{id};
    }
  }

  lemma {:induction false} PutAllConserves(q: Queues, w: nat, ids: seq<Id>)
    requires Sized(q) && w < |q.locals|
    ensures Sized(PutAll(q, w, ids)) && All(PutAll(q, w, ids)) == All(q) + multiset(ids)
    ensures PutAll(q, w, ids).counters == q.counters
    ensures forall v | 0 <= v < |q.locals| && v != w :: PutAll(q, w, ids).locals[v] == q.locals[v]
    decreases |ids|
  {
    hide All;
    if ids != [] {
      PushConserves(q, ids[0], Some(w));
      PutAllConserves(Pushed(q, ids[0], Some(w)), w, ids[1..]);
      assert ids == [ids[0]] + ids[1..];
    }
  }

  lemma TakeHalf(q: Queues, v: nat, n: nat)
    requires v < |q.locals| && n <= |q.locals[v]|
    ensures All(q) == All(q.(locals := q.locals[v := q.locals[v][n..]])) + multiset(q.locals[v][..n])
  {
    assert q.locals[v] == q.locals[v][..n] + q.locals[v][n..];
    Leaves(q, v, q.locals[v][n..], q.global, multiset(q.locals[v][..n]));
  }

  lemma FrontSplit(g: seq<Id>)
    requires g != []
    ensures multiset(g) == multiset(g[1..]) + multiset{g[0]}
  {
    assert g == [g[0]] + g[1..];
  }

  ghost predicate StealOk(q: Queues, w: nat, q': Queues, r: Option<Id>) {
    && Sized(q') && All(q) == All(q') + Got(r) && q'.counters == q.counters && |q'.locals| == |q.locals|
    && (r == None ==> q'.locals == q.locals && q'.global == q.global)
    && (forall v | 0 <= v < |q.locals| && v != w ::
          q'.locals[v] == q.locals[v] || q'.locals[v] == q.locals[v][|q.locals[v]| / 2..])
  }

  lemma DrawKeeps(q: Queues, w: nat)
    requires Sized(q) && w < |q.locals|
    ensures Sized(Draw(q, w).1) && All(Draw(q, w).1) == All(q)
  {
    AllOf(q, Draw(q, w).1);
  }

  lemma HitConserves(q: Queues, w: nat, v: nat)
    requires Sized(q) && w < |q.locals| && v < |q.locals| && v != w && |q.locals[v]| / 2 > 0
    ensures var n := |q.locals[v]| / 2;
            var taken := q.locals[v][..n];
            StealOk(q, w, PutAll(q.(locals := q.locals[v := q.locals[v][n..]]), w, taken[1..]), Some(taken[0]))
  {
    hide All;
    var n := |q.locals[v]| / 2;
    var taken := q.locals[v][..n];
    var q2 := q.(locals := q.locals[v := q.locals[v][n..]]);
    TakeHalf(q, v, n);
    PutAllConserves(q2, w, taken[1..]);
    FrontSplit(taken);
  }

  /** A steal loses nothing and leaves every queue but the thief's alone, except that a victim keeps its newer half. */
  lemma {:induction false} StealConserves(q: Queues, w: nat, tries: nat)
    requires Sized(q) && w < |q.locals|
    ensures StealOk(q, w, Stolen(q, w, tries).0, Stolen(q, w, tries).1)
    decreases tries
  {
    hide All;
    if tries > 0 {
      var (v, q1) := Draw(q, w);
      DrawKeeps(q, w);
      if v == w || |q1.locals[v]| / 2 == 0 {
        StealConserves(q1, w, tries - 1);
      } else {
        HitConserves(q1, w, v);
      }
    }
  }

  lemma BatchSplit(g: seq<Id>, n: nat)
    requires n < |g|
    ensures multiset(g) == multiset(g[1 + n..]) + multiset(g[1..1 + n]) + multiset{g[0]}
  {
    assert g[1..] == g[1..1 + n] + g[1 + n..];
    assert g == [g[0]] + g[1..];
  }

  lemma PopSized(q: Queues, w: nat)
    requires Sized(q)
    ensures Sized(Popped(q, w).0)
  {
    if w < |q.locals| && q.global == [] && q.locals[w] == [] {
      StealConserves(q.(counters := q.counters[w := Next(q.counters[w])]), w, Least(|q.locals|, STEAL_TRIES));
    }
  }

  ghost predicate PopBalances(q: Queues, w: nat)
    requires Sized(q)
  {
    All(q) == All(Popped(q, w).0) + Got(Popped(q, w).1)
  }

  lemma CheckBalances(q: Queues, w: nat)
    requires Sized(q) && w < |q.locals| && Check(q.counters[w]) && q.global != []
    ensures PopBalances(q, w)
  {
    hide All;
    var q1 := q.(counters := q.counters[w := Next(q.counters[w])]);
    hide Sized;
    AllOf(q, q1);
    FrontSplit(q.global);
    assert q1.locals[w := q1.locals[w]] == q1.locals;
    Leaves(q1, w, q1.locals[w], q.global[1..], multiset{q.global[0]});
  }

  lemma LocalBalances(q: Queues, w: nat)
    requires Sized(q) && w < |q.locals| && !(Check(q.counters[w]) && q.global != []) && q.locals[w] != []
    ensures PopBalances(q, w)
  {
    hide All;
    var q1 := q.(counters := q.counters[w := Next(q.counters[w])]);
    hide Sized;
    AllOf(q, q1);
    FrontSplit(q.locals[w]);
    Leaves(q1, w, q.locals[w][1..], q.global, multiset{q.locals[w][0]});
  }

  lemma BatchBalances(q: Queues, w: nat)
    requires Sized(q) && w < |q.locals| && !Check(q.counters[w]) && q.locals[w] == [] && q.global != []
    ensures PopBalances(q, w)
  {
    hide All, Check, Next, Stolen;
    var q1 := q.(counters := q.counters[w := Next(q.counters[w])]);
    hide Sized;
    var n := Least(|q.global| - 1, BATCH);
    AllOf(q, q1);
    BatchSplit(q.global, n);
    Leaves(q1, w, q.global[1..1 + n], q.global[1 + n..], multiset{q.global[0]});
  }

  /** A pop removes exactly the id it returns, through the batch grab and the steal. */
  lemma PopConserves(q: Queues, w: nat)
    requires Sized(q)
    ensures Sized(Popped(q, w).0) && All(q) == All(Popped(q, w).0) + Got(Popped(q, w).1)
  {
    PopSized(q, w);
    if w < |q.locals| {
      if q.global == [] && q.locals[w] == [] {
        var q1 := q.(counters := q.counters[w := Next(q.counters[w])]);
        AllOf(q, q1);
        hide All;
        StealConserves(q1, w, Least(|q.locals|, STEAL_TRIES));
      } else {
        hide All, Popped;
        if Check(q.counters[w]) && q.global != [] {
          CheckBalances(q, w);
        } else if q.locals[w] != [] {
          LocalBalances(q, w);
        } else {
          BatchBalances(q, w);
        }
      }
    }
  }

  /** A worker with work in its own queue or in the global queue is never sent away. */
  lemma PopPrompt(q: Queues, w: nat)
    requires Sized(q) && w < |q.locals|
    ensures q.global != [] || q.locals[w] != [] ==> Popped(q, w).1.Some?
    ensures Popped(q, w).1 == None ==>
              Popped(q, w).0.locals == q.locals && Popped(q, w).0.global == q.global == [] && q.locals[w] == []
  {
    if q.global == [] && q.locals[w] == [] {
      StealConserves(q.(counters := q.counters[w := Next(q.counters[w])]), w, Least(|q.locals|, STEAL_TRIES));
    }
  }

  datatype Op = PushOp(id: Id, hint: Option<nat>) | PopOp(w: nat)

  /** The queues after a sequence of operations, and what was pushed and popped on the way. */
  ghost function Do(q: Queues, op: Op): (Queues, multiset<Id>, multiset<Id>)
    requires Sized(q)
  {
    match op
    case PushOp(id, hint) => (Pushed(q, id, hint), multiset{id}, multiset{})
    case PopOp(w) => (Popped(q, w).0, multiset{}, Got(Popped(q, w).1))
  }

  lemma DoConserves(q: Queues, op: Op)
    requires Sized(q)
    ensures var (q', pushed, popped) := Do(q, op); Sized(q') && All(q) + pushed == All(q') + popped
  {
    match op
    case PushOp(id, hint) => PushConserves(q, id, hint);
    case PopOp(w) => PopConserves(q, w);
  }

  ghost function DoAll(q: Queues, ops: seq<Op>): (r: (Queues, multiset<Id>, multiset<Id>))
    requires Sized(q)
    ensures Sized(r.0)
    decreases |ops|
  {
    if ops == [] then (q, multiset{}, multiset{})
    else
      DoConserves(q, ops[0]);
      var (q1, i1, o1) := Do(q, ops[0]);
      var (q2, i2, o2) := DoAll(q1, ops[1..]);
      (q2, i1 + i2, o1 + o2)
  }

  /** Over any sequence of pushes and pops by any workers: what was there plus what was pushed is what was popped plus
      what is there. */
  lemma {:induction false} RunConserves(q: Queues, ops: seq<Op>)
    requires Sized(q)
    ensures var (q', pushed, popped) := DoAll(q, ops); All(q) + pushed == All(q') + popped
    decreases |ops|
  {
    if ops != [] {
      DoConserves(q, ops[0]);
      RunConserves(Do(q, ops[0]).0, ops[1..]);
      var (q1, i1, o1) := Do(q, ops[0]);
      var (q2, i2, o2) := DoAll(q1, ops[1..]);
      hide All, Do;
      Chain(All(q), i1, All(q1), o1, i2, All(q2), o2);
    }
  }
}
