/** When a steal succeeds and what it takes, said of the draws themselves. */
module ReadyQueueSteals {
  import opened Basics
  import opened Words
  import opened ReadyQueue

  /** The linear congruential generator after n steps from x. */
  function Generated(x: nat, n: nat): nat {
    if n == 0 then x else (Generated(x, n - 1) * 1103515245 + 12345) % TWO64
  }

  /** Whom worker w draws in its i-th try. */
  function Victim(q: Queues, w: nat, i: nat): (v: nat)
    requires w < |q.rng| == |q.locals|
    ensures v < |q.locals|
  {
    if |q.locals| == 1 then 0 else Generated(q.rng[w], i + 1) % |q.locals|
  }

  /** Its i-th draw is another worker with at least two ids. */
  predicate Hits(q: Queues, w: nat, i: nat)
    requires w < |q.rng| == |q.locals|
  {
    Victim(q, w, i) != w && |q.locals[Victim(q, w, i)]| >= 2
  }

  predicate FirstHit(q: Queues, w: nat, i: nat)
    requires w < |q.rng| == |q.locals|
  {
    Hits(q, w, i) && forall j | 0 <= j < i :: !Hits(q, w, j)
  }

  /** The random states after worker w has drawn n times. */
  function Spun(q: Queues, w: nat, n: nat): seq<nat>
    requires w < |q.rng|
  {
    if |q.locals| <= 1 then q.rng else q.rng[w := Generated(q.rng[w], n)]
  }

  /** How much of `ids` fits into worker w's queue. */
  function Room(q: Queues, w: nat, ids: seq<Id>): nat
    requires w < |q.locals| && |q.locals[w]| <= LOCAL_CAPACITY
  {
    Least(|ids|, LOCAL_CAPACITY - |q.locals[w]|)
  }

  /** The thief has taken the older half of v's queue: it returns the oldest id, puts the others behind its own in
      order, and those that do not fit behind the global queue. */
  predicate TookHalf(q: Queues, w: nat, v: nat, q': Queues, r: Option<Id>)
    requires w < |q.locals| && v < |q.locals| && v != w && |q.locals[v]| >= 2 && |q.locals[w]| <= LOCAL_CAPACITY
  {
    var half := |q.locals[v]| / 2;
    var rest := q.locals[v][1..half];
    var k := Room(q, w, rest);
    && r == Some(q.locals[v][0])
    && q'.locals == q.locals[v := q.locals[v][half..]][w := q.locals[w] + rest[..k]]
    && q'.global == q.global + rest[k..] && q'.counters == q.counters
  }

  lemma {:induction false} PutAllIs(q: Queues, w: nat, ids: seq<Id>)
    requires w < |q.locals| && |q.locals[w]| <= LOCAL_CAPACITY
    ensures var k := Room(q, w, ids);
      PutAll(q, w, ids) == q.(locals := q.locals[w := q.locals[w] + ids[..k]], global := q.global + ids[k..])
    decreases |ids|
  {
    var k := Room(q, w, ids);
    if ids == [] {
      assert q.locals[w] + ids[..k] == q.locals[w] && q.global + ids[k..] == q.global;
      assert q.locals[w := q.locals[w]] == q.locals;
    } else {
      var q1 := Pushed(q, ids[0], Some(w));
      PutAllIs(q1, w, ids[1..]);
      var k1 := Room(q1, w, ids[1..]);
      if k > 0 {
        assert k1 == k - 1 && ids[..k] == [ids[0]] + ids[1..][..k1] && ids[k..] == ids[1..][k1..];
        assert q1.locals[w] + ids[1..][..k1] == q.locals[w] + ids[..k];
      } else {
        assert k1 == 0 && q1.global + ids[1..] == q.global + ids;
      }
    }
  }

  lemma {:induction false} GeneratedNext(x: nat, n: nat)
    ensures Generated((x * 1103515245 + 12345) % TWO64, n) == Generated(x, n + 1)
  {
    if n == 0 {
      assert Generated(x, 0) == x;
    } else {
      GeneratedNext(x, n - 1);
    }
  }

  /** After one draw the later ones are the same, counted from one less. */
  lemma DrawIs(q: Queues, w: nat, i: nat)
    requires w < |q.rng| == |q.locals|
    ensures Draw(q, w).0 == Victim(q, w, 0) && Draw(q, w).1 == q.(rng := Spun(q, w, 1))
    ensures Victim(Draw(q, w).1, w, i) == Victim(q, w, i + 1) && Spun(Draw(q, w).1, w, i) == Spun(q, w, i + 1)
  {
    assert Generated(q.rng[w], 0) == q.rng[w];
    GeneratedNext(q.rng[w], i);
    GeneratedNext(q.rng[w], i + 1);
  }

  /** What a steal with some number of tries does. */
  ghost predicate StealSpec(q: Queues, w: nat, tries: nat, q': Queues, r: Option<Id>)
    requires w < |q.rng| == |q.locals| && |q.locals[w]| <= LOCAL_CAPACITY
  {
    && (r.Some? <==> exists i :: 0 <= i < tries && Hits(q, w, i))
    && (r == None ==> q' == q.(rng := Spun(q, w, tries)))
    && (forall i | 0 <= i < tries && FirstHit(q, w, i) ::
          TookHalf(q, w, Victim(q, w, i), q', r) && q'.rng == Spun(q, w, i + 1))
  }

  lemma HitTakes(q: Queues, w: nat, v: nat)
    requires w < |q.locals| && v < |q.locals| && v != w && |q.locals[v]| >= 2 && |q.locals[w]| <= LOCAL_CAPACITY
    ensures var n := |q.locals[v]| / 2;
      var taken := q.locals[v][..n];
      var q' := PutAll(q.(locals := q.locals[v := q.locals[v][n..]]), w, taken[1..]);
      TookHalf(q, w, v, q', Some(taken[0])) && q'.rng == q.rng
  {
    var n := |q.locals[v]| / 2;
    var taken := q.locals[v][..n];
    assert taken[1..] == q.locals[v][1..n];
    PutAllIs(q.(locals := q.locals[v := q.locals[v][n..]]), w, taken[1..]);
  }

  /** The random states do not matter to what is taken. */
  lemma TookSame(q: Queues, q1: Queues, w: nat, v: nat, q': Queues, r: Option<Id>)
    requires w < |q.locals| && v < |q.locals| && v != w && |q.locals[v]| >= 2 && |q.locals[w]| <= LOCAL_CAPACITY
    requires q1 == q.(rng := q1.rng) && TookHalf(q1, w, v, q', r)
    ensures TookHalf(q, w, v, q', r)
  {
  }

  /** A steal succeeds if and only if one of its draws is another worker with two ids, and then takes from the first
      such worker. */
  lemma {:induction false} StealsIff(q: Queues, w: nat, tries: nat)
    requires w < |q.rng| == |q.locals| && |q.locals[w]| <= LOCAL_CAPACITY
    ensures StealSpec(q, w, tries, Stolen(q, w, tries).0, Stolen(q, w, tries).1)
    decreases tries
  {
    if tries == 0 {
      SpunNone(q, w);
    } else {
      hide Generated, TookHalf, StealSpec, PutAll, Victim, Spun;
      var (v, q1) := Draw(q, w);
      DrawIs(q, w, 0);
      hide Draw;
      var (q', r) := Stolen(q, w, tries);
      if v == w || |q1.locals[v]| / 2 == 0 {
        StealsIff(q1, w, tries - 1);
        MissShifts(q, w, tries, q', r);
      } else {
        HitTakes(q1, w, v);
        TookSame(q, q1, w, v, q', r);
        HitFirst(q, w, tries, q', r);
      }
    }
  }

  lemma SpunNone(q: Queues, w: nat)
    requires w < |q.rng|
    ensures q.(rng := Spun(q, w, 0)) == q
  {
    assert q.rng[w := q.rng[w]] == q.rng;
  }

  /** A first draw that hits decides. */
  lemma HitFirst(q: Queues, w: nat, tries: nat, q': Queues, r: Option<Id>)
    requires w < |q.rng| == |q.locals| && |q.locals[w]| <= LOCAL_CAPACITY && tries > 0 && Hits(q, w, 0)
    requires TookHalf(q, w, Victim(q, w, 0), q', r) && q'.rng == Spun(q, w, 1)
    ensures StealSpec(q, w, tries, q', r)
  {
    hide Generated;
  }

  lemma HitsShift(q: Queues, w: nat, i: nat)
    requires w < |q.rng| == |q.locals|
    ensures Hits(Draw(q, w).1, w, i) == Hits(q, w, i + 1)
  {
    DrawIs(q, w, i);
    hide Victim, Spun;
  }

  lemma FirstShifts(q: Queues, w: nat, i: nat)
    requires w < |q.rng| == |q.locals| && !Hits(q, w, 0) && FirstHit(q, w, i)
    ensures i > 0 && FirstHit(Draw(q, w).1, w, i - 1)
  {
    hide Hits, Draw;
    HitsShift(q, w, i - 1);
    forall j | 0 <= j < i - 1 ensures !Hits(Draw(q, w).1, w, j) {
      HitsShift(q, w, j);
    }
  }

  lemma ExistsShifts(q: Queues, w: nat, tries: nat)
    requires w < |q.rng| == |q.locals| && tries > 0 && !Hits(q, w, 0)
    ensures (exists i :: 0 <= i < tries - 1 && Hits(Draw(q, w).1, w, i)) <==>
            (exists i :: 0 <= i < tries && Hits(q, w, i))
  {
    hide Hits, Draw;
    if i :| 0 <= i < tries && Hits(q, w, i) {
      HitsShift(q, w, i - 1);
    }
    if i :| 0 <= i < tries - 1 && Hits(Draw(q, w).1, w, i) {
      HitsShift(q, w, i);
    }
  }

  /** A first draw that misses leaves the others to decide. */
  lemma MissShifts(q: Queues, w: nat, tries: nat, q': Queues, r: Option<Id>)
    requires w < |q.rng| == |q.locals| && |q.locals[w]| <= LOCAL_CAPACITY && tries > 0 && !Hits(q, w, 0)
    requires StealSpec(Draw(q, w).1, w, tries - 1, q', r)
    ensures StealSpec(q, w, tries, q', r)
  {
    var q1 := Draw(q, w).1;
    hide Generated, TookHalf, Victim, Spun, Draw;
    ExistsShifts(q, w, tries);
    DrawIs(q, w, tries - 1);
    hide Hits;
    forall i | 0 <= i < tries && FirstHit(q, w, i)
      ensures TookHalf(q, w, Victim(q, w, i), q', r) && q'.rng == Spun(q, w, i + 1)
    {
      FirstShifts(q, w, i);
      DrawIs(q, w, i - 1);
      DrawIs(q, w, i);
      HitMeans(q, w, i);
      TookSame(q, q1, w, Victim(q, w, i), q', r);
    }
  }

  lemma HitMeans(q: Queues, w: nat, i: nat)
    requires w < |q.rng| == |q.locals| && Hits(q, w, i)
    ensures Victim(q, w, i) != w && |q.locals[Victim(q, w, i)]| >= 2
  {
  }

  /** The first queue a pop looks at that is not empty gives its oldest id: every 61st time the global queue, then the
      worker's own, then the global queue again, whose next ids, at most half a queue full, become its own in order.
      Nobody else's queue is touched. */
  lemma PopOldest(q: Queues, w: nat)
    requires Sized(q) && w < |q.locals| && (q.global != [] || q.locals[w] != [])
    ensures var ((q', r), due) := (Popped(q, w), q.counters[w] % TWO32 % 61 == 0);
      && |q'.locals| == |q.locals| && (forall v | 0 <= v < |q.locals| && v != w :: q'.locals[v] == q.locals[v])
      && r.Some? && (q.global != [] && due ==> q.global == [r.value] + q'.global && q'.locals[w] == q.locals[w])
      && (q.locals[w] != [] && (q.global == [] || !due) ==>
            q.locals[w] == [r.value] + q'.locals[w] && q'.global == q.global)
      && (q.locals[w] == [] && q.global != [] && !due ==>
            q.global == [r.value] + q'.locals[w] + q'.global && |q'.locals[w]| <= BATCH &&
            (|q'.locals[w]| < BATCH ==> q'.global == []))
  {
    hide Stolen, Next;
  }

  /** A pop that finds its own and the global queue empty steals: with min(n, 4) draws it returns an id if and only if
      one of them is another worker with two ids, namely the oldest of the first such worker, whose other older ids
      become the popper's queue. */
  lemma PopSteals(q: Queues, w: nat)
    requires Sized(q) && w < |q.locals| && q.global == [] && q.locals[w] == []
    ensures var (q', r) := Popped(q, w);
      var tries := Least(|q.locals|, STEAL_TRIES);
      && (r.Some? <==> exists i :: 0 <= i < tries && Hits(q, w, i))
      && (r == None ==> q'.locals == q.locals && q'.global == [])
      && (forall i | 0 <= i < tries && FirstHit(q, w, i) ::
            var v := Victim(q, w, i);
            var half := |q.locals[v]| / 2;
            && r == Some(q.locals[v][0]) && q'.global == []
            && q'.locals == q.locals[v := q.locals[v][half..]][w := q.locals[v][1..half]])
  {
    var q1 := q.(counters := q.counters[w := Next(q.counters[w])]);
    var tries := Least(|q.locals|, STEAL_TRIES);
    StealsIff(q1, w, tries);
    hide Generated, Stolen, Next, Check;
    var (q', r) := Popped(q, w);
    assert (q', r) == Stolen(q1, w, tries);
    assert forall i: nat :: Hits(q1, w, i) == Hits(q, w, i) && Victim(q1, w, i) == Victim(q, w, i);
    forall i | 0 <= i < tries && FirstHit(q, w, i)
      ensures var v := Victim(q, w, i);
        var half := |q.locals[v]| / 2;
        && r == Some(q.locals[v][0]) && q'.global == []
        && q'.locals == q.locals[v := q.locals[v][half..]][w := q.locals[v][1..half]]
    {
      var v := Victim(q, w, i);
      var rest := q.locals[v][1..|q.locals[v]| / 2];
      assert FirstHit(q1, w, i);
      assert TookHalf(q1, w, v, q', r);
      assert Room(q1, w, rest) == |rest| && rest[..|rest|] == rest && rest[|rest|..] == [] && [] + rest == rest;
    }
  }
}
