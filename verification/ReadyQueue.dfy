/** The work-stealing ready queue: per-worker local queues, a global queue, batch grab and steal-half. */
module ReadyQueue {
  import opened Basics
  import opened Words

  const GLOBAL_CHECK_INTERVAL: nat := 61
  const STEAL_TRIES: nat := 4

  type Id = nat

  /** Contents of all queues plus the per-worker pop counters and random states. */
  datatype Queues = Queues(locals: seq<seq<Id>>, global: seq<Id>, counters: seq<nat>, rng: seq<nat>)

  predicate Sized(q: Queues) {
    && |q.counters| == |q.locals| == |q.rng|
    && (forall i | 0 <= i < |q.locals| :: |q.locals[i]| <= LOCAL_CAPACITY)
    && (forall i | 0 <= i < |q.counters| :: q.counters[i] < TWO64)
    && (forall i | 0 <= i < |q.rng| :: q.rng[i] < TWO64)
  }

  /** The counter is a usize that is truncated to 32 bits before the interval test. */
  predicate Check(counter: nat) { (counter % TWO32) % GLOBAL_CHECK_INTERVAL == 0 }

  function Next(counter: nat): nat { (counter + 1) % TWO64 }

  // ── What the operations do ──

  function PutLocal(q: Queues, w: nat, id: Id): Queues
    requires w < |q.locals|
  {
    q.(locals := q.locals[w := q.locals[w] + [id]])
  }

  function PutGlobal(q: Queues, id: Id): Queues { q.(global := q.global + [id]) }

  /** Push with an optional worker hint. */
  function Pushed(q: Queues, id: Id, hint: Option<nat>): Queues {
    if hint.Some? && hint.value < |q.locals| && |q.locals[hint.value]| < LOCAL_CAPACITY
    then PutLocal(q, hint.value, id)
    else PutGlobal(q, id)
  }

  /** Put stolen ids into worker w's queue, spilling to the global queue when it is full. */
  function PutAll(q: Queues, w: nat, ids: seq<Id>): (r: Queues)
    requires w < |q.locals|
    ensures |r.locals| == |q.locals|
    decreases |ids|
  {
    if ids == [] then q else PutAll(Pushed(q, ids[0], Some(w)), w, ids[1..])
  }

  /** The victim drawn among n workers and the new random state. */
  function Pick(rng: nat, n: nat): (r: (nat, nat))
    ensures n > 0 ==> r.0 < n
  {
    if n <= 1 then (0, rng)
    else
      var x := (rng * 1103515245 + 12345) % TWO64;
      (x % n, x)
  }

  /** The next victim of worker w and its new random state. */
  function Draw(q: Queues, w: nat): (r: (nat, Queues))
    requires w < |q.rng| == |q.locals|
    ensures |q.locals| > 0 ==> r.0 < |q.locals|
    ensures r.1 == q.(rng := r.1.rng) && |r.1.rng| == |q.rng|
  {
    if |q.locals| <= 1 then (0, q)
    else
      var (v, x) := Pick(q.rng[w], |q.locals|);
      (v, q.(rng := q.rng[w := x]))
  }

  function Stolen(q: Queues, w: nat, tries: nat): (r: (Queues, Option<Id>))
    requires w < |q.locals| == |q.rng|
    ensures |r.0.locals| == |q.locals|
    decreases tries
  {
    if tries == 0 then (q, None)
    else
      var (v, q1) := Draw(q, w);
      var n := |q1.locals[v]| / 2;
      if v == w || n == 0 then Stolen(q1, w, tries - 1)
      else
        var taken := q1.locals[v][..n];
        (PutAll(q1.(locals := q1.locals[v := q1.locals[v][n..]]), w, taken[1..]), Some(taken[0]))
  }

  /** Pop by worker w: the periodic global check, the local queue, the global queue with a batch grab, a steal. */
  function Popped(q: Queues, w: nat): (Queues, Option<Id>)
    requires |q.counters| == |q.locals| == |q.rng|
  {
    if w >= |q.locals| then (q, None)
    else
      var c := q.counters[w];
      var q1 := q.(counters := q.counters[w := Next(c)]);
      if Check(c) && q.global != [] then (q1.(global := q.global[1..]), Some(q.global[0]))
      else if q.locals[w] != [] then (q1.(locals := q.locals[w := q.locals[w][1..]]), Some(q.locals[w][0]))
      else if q.global != [] then
        var n := Least(|q.global| - 1, BATCH);
        (q1.(global := q.global[1 + n..], locals := q.locals[w := q.global[1..1 + n]]), Some(q.global[0]))
      else Stolen(q1, w, Least(|q.locals|, STEAL_TRIES))
  }

  // ── The queue object ──

  class SimpleQueue {
    var locals: seq<seq<Id>>
    var global: seq<Id>
    var counters: seq<nat>
    var rng: seq<nat>

    ghost function View(): Queues
      reads this
    {
      Queues(locals, global, counters, rng)
    }

    constructor (workers: nat)
      requires workers < TWO32
      ensures Sized(View()) && |locals| == workers && global == []
      ensures forall i | 0 <= i < workers :: locals[i] == [] && counters[i] == 0
    {
      locals := seq(workers, i => []);
      global := [];
      counters := seq(workers, i => 0);
      rng := seq(workers, i requires 0 <= i < workers => (i * 2654435761 + 1) % TWO64);
    }

    method LocalPush(w: nat, id: Id) returns (ok: bool)
      requires w < |locals|
      modifies this`locals
      ensures ok <==> old(|locals[w]|) < LOCAL_CAPACITY
      ensures View() == if ok then PutLocal(old(View()), w, id) else old(View())
    {
      if |locals[w]| >= LOCAL_CAPACITY {
        return false;
      }
      locals := locals[w := locals[w] + [id]];
      return true;
    }

    method LocalPop(w: nat) returns (r: Option<Id>)
      requires w < |locals|
      modifies this`locals
      ensures old(locals[w]) == [] ==> r == None && locals == old(locals)
      ensures old(locals[w]) != [] ==> r == Some(old(locals[w][0])) && locals == old(locals)[w := old(locals[w][1..])]
    {
      if |locals[w]| == 0 {
        return None;
      }
      r := Some(locals[w][0]);
      locals := locals[w := locals[w][1..]];
    }

    /** Takes the older half of a queue, nothing from a queue of one. */
    method StealHalf(v: nat) returns (stolen: seq<Id>)
      requires v < |locals|
      modifies this`locals
      ensures |stolen| == old(|locals[v]|) / 2 && |locals| == old(|locals|)
      ensures stolen + locals[v] == old(locals[v]) && locals == old(locals)[v := locals[v]]
    {
      if |locals[v]| == 0 {
        return [];
      }
      var n := |locals[v]| / 2;
      stolen := [];
      for i := 0 to n
        invariant |stolen| == i && v < |locals|
        invariant stolen + locals[v] == old(locals[v])
        invariant locals == old(locals)[v := locals[v]]
      {
        stolen := stolen + [locals[v][0]];
        locals := locals[v := locals[v][1..]];
      }
    }

    method GlobalPop() returns (r: Option<Id>)
      modifies this`global
      ensures old(global) == [] ==> r == None && global == []
      ensures old(global) != [] ==> r == Some(old(global[0])) && global == old(global[1..])
    {
      if |global| == 0 {
        return None;
      }
      r := Some(global[0]);
      global := global[1..];
    }

    method PopBatch(max: nat) returns (batch: seq<Id>)
      modifies this`global
      ensures batch + global == old(global) && |batch| == Least(old(|global|), max)
    {
      batch := [];
      var n := Least(|global|, max);
      for i := 0 to n
        invariant |batch| == i && batch + global == old(global)
      {
        batch := batch + [global[0]];
        global := global[1..];
      }
    }

    method RandomVictim(w: nat) returns (victim: nat)
      requires w < |rng| == |locals|
      modifies this`rng
      ensures (victim, View()) == Draw(old(View()), w)
    {
      if |locals| <= 1 {
        return 0;
      }
      var x := (rng[w] * 1103515245 + 12345) % TWO64;
      rng := rng[w := x];
      return x % |locals|;
    }

    method TrySteal(w: nat) returns (r: Option<Id>)
      requires w < |rng| == |locals|
      modifies this`locals, this`global, this`rng
      ensures (View(), r) == Stolen(old(View()), w, Least(old(|locals|), STEAL_TRIES))
    {
      var tries := Least(|locals|, STEAL_TRIES);
      while tries > 0
        invariant w < |rng| == |locals| && counters == old(counters)
        invariant Stolen(View(), w, tries) == Stolen(old(View()), w, Least(old(|locals|), STEAL_TRIES))
      {
        var victim := RandomVictim(w);
        tries := tries - 1;
        if victim != w {
          ghost var before := View();
          var stolen := StealHalf(victim);
          assert stolen == before.locals[victim][..|stolen|];
          assert locals[victim] == before.locals[victim][|stolen|..];
          if stolen != [] {
            var rest := stolen[1..];
            ghost var start := View();
            while rest != []
              invariant w < |locals| == |start.locals| && counters == start.counters && rng == start.rng
              invariant PutAll(View(), w, rest) == PutAll(start, w, stolen[1..])
            {
              var ok := LocalPush(w, rest[0]);
              if !ok {
                global := global + [rest[0]];
              }
              rest := rest[1..];
            }
            return Some(stolen[0]);
          }
          assert locals == before.locals;
        }
      }
      r := None;
    }

    method Push(id: Id, hint: Option<nat>)
      modifies this`locals, this`global
      ensures View() == Pushed(old(View()), id, hint)
    {
      if hint.Some? && hint.value < |locals| {
        var ok := LocalPush(hint.value, id);
        if ok {
          return;
        }
      }
      global := global + [id];
    }

    method Pop(w: nat) returns (r: Option<Id>)
      requires Sized(View())
      modifies this
      ensures (View(), r) == Popped(old(View()), w)
    {
      if w >= |locals| {
        return None;
      }
      var cnt := counters[w];
      counters := counters[w := (cnt + 1) % TWO64];
      if (cnt % TWO32) % GLOBAL_CHECK_INTERVAL == 0 {
        r := GlobalPop();
        if r.Some? {
          return;
        }
      }
      r := LocalPop(w);
      if r.Some? {
        return;
      }
      r := GlobalPop();
      if r.Some? {
        ghost var before := old(View());
        var batch := PopBatch(BATCH);
        assert batch == before.global[1..1 + |batch|] && global == before.global[1 + |batch|..];
        assert before.locals == before.locals[w := batch[..0]];
        var i := 0;
        while i < |batch|
          invariant i <= |batch| && locals == before.locals[w := batch[..i]]
          invariant View() == before.(locals := locals, global := before.global[1 + |batch|..], counters := counters)
          invariant counters == before.counters[w := Next(cnt)]
        {
          var ok := LocalPush(w, batch[i]);
          assert locals[w] == batch[..i + 1];
          i := i + 1;
        }
        assert batch[..i] == batch;
        return;
      }
      r := TrySteal(w);
    }
  }
}
