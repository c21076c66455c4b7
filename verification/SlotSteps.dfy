/** The slot allocator under every interleaving: locked stack operations, the compare-exchange on the fresh counter
    and the updates of the allocation count are separate steps. */
module SlotSteps {
  import opened Basics
  import opened SlotAllocator

  datatype Actor =
    | Out
    | Looked            // found the free stack empty
    | Saw(cur: nat)     // loaded the fresh counter
    | Claimed(id: nat)  // owns the id, count not yet incremented
    | Given(n: nat)     // pushed a batch of n, count not yet decremented

  /** `held` are ids returned to callers; `nones` counts NONE ids passed in release batches. */
  datatype State = State(max: nat, free: seq<nat>, next: nat, count: int, held: set<nat>, nones: nat,
    actors: seq<Actor>)

  datatype Step = PopFree(a: nat) | Load(a: nat) | Swap(a: nat, weak: bool) | AddCount(a: nat)
    | PushFree(a: nat, ids: seq<Option<nat>>) | SubCount(a: nat)

  /** A release names ids that are held, each once. */
  predicate Enabled(s: State, st: Step) {
    st.a < |s.actors| &&
    match st
    case PopFree(a) => s.actors[a] == Out
    case Load(a) => s.actors[a] == Looked
    case Swap(a, _) => s.actors[a].Saw?
    case AddCount(a) => s.actors[a].Claimed?
    case PushFree(a, ids) => s.actors[a] == Out && Releasable(ids, s.held)
    case SubCount(a) => s.actors[a].Given?
  }

  function Put(s: State, a: nat, x: Actor): State
    requires a < |s.actors|
  {
    s.(actors := s.actors[a := x])
  }

  function Apply(s: State, st: Step): State
    requires Enabled(s, st)
  {
    match st
    case PopFree(a) =>
      if s.free == [] then Put(s, a, Looked)
      else Put(s, a, Claimed(s.free[|s.free| - 1])).(free := s.free[..|s.free| - 1])
    case Load(a) => Put(s, a, if s.next >= s.max then Out else Saw(s.next))
    case Swap(a, weak) =>
      if weak || s.next != s.actors[a].cur then Put(s, a, Looked)
      else Put(s, a, Claimed(s.next)).(next := s.next + 1)
    case AddCount(a) => Put(s, a, Out).(count := s.count + 1, held := s.held + {s.actors[a].id})
    case PushFree(a, ids) =>
      Put(s, a, if ids == [] then Out else Given(|ids|))
      .(free := s.free + Somes(ids), held := Minus(s.held, Somes(ids)), nones := s.nones + Nones(ids))
    case SubCount(a) => Put(s, a, Out).(count := s.count - s.actors[a].n)
  }

  predicate Initial(s: State) {
    && s == State(s.max, [], 0, 0, {}, 0, s.actors)
    && forall a | 0 <= a < |s.actors| :: s.actors[a] == Out
  }

  ghost predicate Runs(s: State, steps: seq<Step>, t: State)
    decreases |steps|
  {
    if steps == [] then t == s else Enabled(s, steps[0]) && Runs(Apply(s, steps[0]), steps[1..], t)
  }

  // ── Where ids are ──

  function InFree(free: seq<nat>, id: nat): nat {
    if free == [] then 0 else One(free[0] == id) + InFree(free[1..], id)
  }

  function InHands(actors: seq<Actor>, id: nat): nat {
    if actors == [] then 0 else One(actors[0] == Claimed(id)) + InHands(actors[1..], id)
  }

  /** Decrements of the count still to come. */
  function Owed(actors: seq<Actor>): nat {
    if actors == [] then 0 else (if actors[0].Given? then actors[0].n else 0) + Owed(actors[1..])
  }

  /** An id below the fresh counter is in exactly one place: on the free stack, held, or being handed out. */
  predicate Placed(s: State, id: nat) {
    InFree(s.free, id) + One(id in s.held) + InHands(s.actors, id) == One(id < s.next)
  }

  ghost predicate Inv(s: State) {
    && Bounded(s) && s.count + s.nones == |s.held| + Owed(s.actors)
    && forall id :: Placed(s, id)
  }

  lemma {:induction false} InFreeAppend(a: seq<nat>, b: seq<nat>, id: nat)
    ensures InFree(a + b, id) == InFree(a, id) + InFree(b, id)
  {
    if a == [] {
      assert a + b == b;
    } else {
      InFreeAppend(a[1..], b, id);
      assert (a + b)[1..] == a[1..] + b;
    }
  }

  lemma InFreeLast(free: seq<nat>, id: nat)
    requires free != []
    ensures InFree(free, id) == InFree(free[..|free| - 1], id) + One(free[|free| - 1] == id)
  {
    var n := |free| - 1;
    InFreeAppend(free[..n], [free[n]], id);
    assert free == free[..n] + [free[n]] && [free[n]][1..] == [];
  }

  lemma {:induction false} HandsUpdate(actors: seq<Actor>, a: nat, x: Actor, id: nat)
    requires a < |actors|
    ensures InHands(actors[a := x], id) + One(actors[a] == Claimed(id)) == InHands(actors, id) + One(x == Claimed(id))
    ensures Owed(actors[a := x]) + (if actors[a].Given? then actors[a].n else 0) ==
      Owed(actors) + (if x.Given? then x.n else 0)
  {
    if a == 0 {
      assert actors[0 := x][1..] == actors[1..];
    } else {
      HandsUpdate(actors[1..], a - 1, x, id);
      assert actors[a := x][1..] == actors[1..][a - 1 := x];
    }
  }

  /** Releasing a batch moves each named id from the held ones to the stack. */
  lemma {:induction false} ReleasedOnce(ids: seq<Option<nat>>, held: set<nat>, id: nat)
    requires Releasable(ids, held)
    ensures InFree(Somes(ids), id) + One(id in Minus(held, Somes(ids))) == One(id in held)
    decreases |ids|
  {
    if ids == [] {
      MinusCons(held, 0, []);
    } else if ids[0].None? {
      ReleasedOnce(ids[1..], held, id);
    } else {
      var x, rest := ids[0].value, Somes(ids[1..]);
      ReleasedOnce(ids[1..], held - {x}, id);
      MinusCons(held, x, rest);
      InFreeAppend([x], rest, id);
      assert InFree([x], id) == One(x == id) by { assert [x][1..] == []; }
      hide Minus, InFree;
    }
  }

  lemma {:induction false} ReleasedMany(ids: seq<Option<nat>>, held: set<nat>)
    requires Releasable(ids, held)
    ensures |Minus(held, Somes(ids))| + |ids| == |held| + Nones(ids)
    decreases |ids|
  {
    if ids == [] {
      MinusCons(held, 0, []);
    } else if ids[0].None? {
      ReleasedMany(ids[1..], held);
    } else {
      var x, rest := ids[0].value, Somes(ids[1..]);
      ReleasedMany(ids[1..], held - {x});
      MinusCons(held, x, rest);
      hide Minus;
      assert held == (held - {x}) + {x};
    }
  }

  lemma StepPlaces(s: State, st: Step, id: nat)
    requires Enabled(s, st) && Placed(s, id)
    ensures Placed(Apply(s, st), id)
  {
    var t := Apply(s, st);
    HandsUpdate(s.actors, st.a, t.actors[st.a], id);
    if st.PopFree? && s.free != [] {
      InFreeLast(s.free, id);
    } else if st.PushFree? {
      InFreeAppend(s.free, Somes(st.ids), id);
      ReleasedOnce(st.ids, s.held, id);
    }
    hide InFree, InHands, Minus, Somes, Nones, Releasable;
  }

  lemma StepCounts(s: State, st: Step)
    requires Enabled(s, st) && s.count + s.nones == |s.held| + Owed(s.actors)
    requires st.AddCount? ==> s.actors[st.a].id !in s.held
    ensures Apply(s, st).count + Apply(s, st).nones == |Apply(s, st).held| + Owed(Apply(s, st).actors)
  {
    var t := Apply(s, st);
    HandsUpdate(s.actors, st.a, t.actors[st.a], 0);
    if st.PushFree? {
      ReleasedMany(st.ids, s.held);
    }
    hide InFree, InHands, Minus, Somes, Nones, Releasable, Owed;
  }

  lemma {:induction false} InHand(actors: seq<Actor>, a: nat, id: nat)
    requires a < |actors| && actors[a] == Claimed(id)
    ensures InHands(actors, id) >= 1
  {
    if a > 0 {
      InHand(actors[1..], a - 1, id);
    }
  }

  predicate Bounded(s: State) {
    s.next <= s.max && forall a | 0 <= a < |s.actors| :: s.actors[a].Saw? ==> s.actors[a].cur < s.max
  }

  lemma StepBounds(s: State, st: Step)
    requires Bounded(s) && Enabled(s, st)
    ensures Bounded(Apply(s, st))
  {
    hide Minus, Somes, Nones, Releasable;
  }

  lemma ClaimedIsNew(s: State, a: nat)
    requires Inv(s) && a < |s.actors| && s.actors[a].Claimed?
    ensures s.actors[a].id !in s.held
  {
    InHand(s.actors, a, s.actors[a].id);
    assert Placed(s, s.actors[a].id);
    hide InFree, InHands;
  }

  lemma StepInv(s: State, st: Step)
    requires Inv(s) && Enabled(s, st)
    ensures Inv(Apply(s, st))
  {
    if st.AddCount? {
      hide Inv;
      ClaimedIsNew(s, st.a);
    }
    StepBounds(s, st);
    StepCounts(s, st);
    hide Apply, Enabled, Placed, Bounded, Owed;
    forall id ensures Placed(Apply(s, st), id) {
      StepPlaces(s, st, id);
    }
  }

  lemma {:induction false} RunInv(s: State, steps: seq<Step>, t: State)
    requires Inv(s) && Runs(s, steps, t)
    ensures Inv(t)
    decreases |steps|
  {
    hide Inv, Enabled, Apply;
    if steps != [] {
      StepInv(s, steps[0]);
      RunInv(Apply(s, steps[0]), steps[1..], t);
    }
  }

  lemma {:induction false} NoHands(actors: seq<Actor>, id: nat)
    requires forall a | 0 <= a < |actors| :: actors[a] == Out
    ensures InHands(actors, id) == 0 && Owed(actors) == 0
  {
    if actors != [] {
      NoHands(actors[1..], id);
    }
  }

  lemma InitialInv(s: State)
    requires Initial(s)
    ensures Inv(s)
  {
    NoHands(s.actors, 0);
    forall id ensures Placed(s, id) {
      NoHands(s.actors, id);
    }
  }

  // ── What follows for every interleaving ──

  /** Free stack, held ids, ids being handed out and never-used ids partition 0..max; in particular no id is ever
      given to two callers. */
  lemma IdsArePartitioned(s0: State, steps: seq<Step>, s: State, id: nat)
    requires Initial(s0) && Runs(s0, steps, s)
    ensures s.next <= s.max
    ensures InFree(s.free, id) + One(id in s.held) + InHands(s.actors, id) + One(s.next <= id < s.max) ==
      One(id < s.max)
  {
    InitialInv(s0);
    RunInv(s0, steps, s);
    assert Placed(s, id);
    hide Runs, InFree, InHands;
  }

  /** A claimed id is new to everybody: not held, not on the stack, and in one actor's hands only. */
  lemma ClaimsAreFresh(s0: State, steps: seq<Step>, s: State, a: nat)
    requires Initial(s0) && Runs(s0, steps, s) && a < |s.actors| && s.actors[a].Claimed?
    ensures s.actors[a].id !in s.held && InFree(s.free, s.actors[a].id) == 0 && InHands(s.actors, s.actors[a].id) == 1
  {
    InitialInv(s0);
    RunInv(s0, steps, s);
    InHand(s.actors, a, s.actors[a].id);
    assert Placed(s, s.actors[a].id);
    hide Runs, InFree, InHands;
  }

  /** At quiescence the count is the number of held ids if and only if no batch contained a NONE. */
  lemma CountExactIff(s0: State, steps: seq<Step>, s: State)
    requires Initial(s0) && Runs(s0, steps, s) && forall a | 0 <= a < |s.actors| :: s.actors[a] == Out
    ensures s.count == |s.held| <==> s.nones == 0
  {
    InitialInv(s0);
    RunInv(s0, steps, s);
    NoHands(s.actors, 0);
    hide Runs;
  }

  // ── When an allocation fails ──

  /** An actor looks for an id. */
  predicate Searching(x: Actor) { x == Looked || x.Saw? }

  /** A search on a free stack claims the id released last; otherwise it goes on until it claims the next fresh id or
      finds them used up, and nobody else's step ends it. */
  lemma SearchesUntilClaimed(s: State, st: Step, a: nat)
    requires Enabled(s, st) && a < |s.actors|
    ensures var t := Apply(s, st);
      && |t.actors| == |s.actors|
      && (st == PopFree(a) && s.free != [] ==> t.actors[a].Claimed? && s.free == t.free + [t.actors[a].id])
      && (st == PopFree(a) && s.free == [] ==> Searching(t.actors[a]))
      && (Searching(s.actors[a]) && !Searching(t.actors[a]) ==>
            t.actors[a] == Claimed(s.next) || (st == Load(a) && s.next >= s.max && t.actors[a] == Out))
  {
  }

  predicate Fails(s: State, a: nat)
    requires Enabled(s, Load(a))
  {
    Apply(s, Load(a)).actors[a] == Out
  }

  /** Every id is held, being handed out or on the free stack. */
  ghost predicate UsedUp(s: State) {
    forall id: nat | id < s.max :: InFree(s.free, id) + One(id in s.held) + InHands(s.actors, id) == 1
  }

  /** Every id is held or being handed out. */
  ghost predicate AllTaken(s: State) {
    forall id: nat | id < s.max :: One(id in s.held) + InHands(s.actors, id) == 1
  }

  lemma UsedUpIff(s: State)
    requires Inv(s)
    ensures UsedUp(s) <==> s.next == s.max
  {
    hide InFree, InHands;
    if s.next < s.max {
      assert Placed(s, s.next);
      assert InFree(s.free, s.next) + One(s.next in s.held) + InHands(s.actors, s.next) != 1;
    } else {
      forall id: nat | id < s.max ensures InFree(s.free, id) + One(id in s.held) + InHands(s.actors, id) == 1 {
        assert Placed(s, id);
      }
    }
  }

  lemma AllTakenIff(s: State)
    requires Inv(s) && s.next == s.max
    ensures AllTaken(s) <==> s.free == []
  {
    assert forall id: nat :: Placed(s, id);
    if s.free != [] {
      var x := s.free[0];
      assert InFree(s.free, x) > 0 && Placed(s, x);
      hide InFree, InHands;
      assert x < s.max && One(x in s.held) + InHands(s.actors, x) == 0;
    } else {
      hide InHands;
      forall id: nat | id < s.max ensures One(id in s.held) + InHands(s.actors, id) == 1 {
        assert Placed(s, id);
      }
    }
  }

  /** An allocation that found the stack empty fails if and only if no id is unused any more, whatever the stack holds
      by now; all ids are then held or being handed out if and only if the stack is still empty. */
  lemma FailsIff(s0: State, steps: seq<Step>, s: State, a: nat)
    requires Initial(s0) && Runs(s0, steps, s) && Enabled(s, Load(a))
    ensures Fails(s, a) <==> UsedUp(s)
    ensures Fails(s, a) ==> (AllTaken(s) <==> s.free == [])
  {
    InitialInv(s0);
    RunInv(s0, steps, s);
    assert s.next <= s.max;
    hide Inv, Runs, UsedUp, AllTaken;
    UsedUpIff(s);
    if s.next == s.max {
      AllTakenIff(s);
    }
  }

  ghost predicate Reaches(s: State, t: State) { exists steps :: Runs(s, steps, t) }

  lemma Stays(s: State)
    ensures Reaches(s, s)
  {
    hide Enabled, Apply;
    assert Runs(s, [], s);
  }

  lemma First(s: State, st: Step, m: State, t: State)
    requires Enabled(s, st) && Apply(s, st) == m && Reaches(m, t)
    ensures Reaches(s, t)
  {
    hide Enabled, Apply;
    var steps :| Runs(m, steps, t);
    assert ([st] + steps)[1..] == steps;
    assert Runs(s, [st] + steps, t);
  }

  /** The first caller gets the only slot. */
  lemma GetsSlot(s: State)
    requires Reaches(State(1, [], 1, 1, {0}, 0, [Out, Out]), s)
    ensures Reaches(State(1, [], 0, 0, {}, 0, [Out, Out]), s)
  {
    hide Reaches, Minus, Somes, Nones, Releasable;
    var s0 := State(1, [], 0, 0, {}, 0, [Out, Out]);
    var s3 := s0.(next := 1, actors := [Claimed(0), Out]);
    First(s3, AddCount(0), State(1, [], 1, 1, {0}, 0, [Out, Out]), s);
    First(s0.(actors := [Saw(0), Out]), Swap(0, false), s3, s);
    First(s0.(actors := [Looked, Out]), Load(0), s0.(actors := [Saw(0), Out]), s);
    First(s0, PopFree(0), s0.(actors := [Looked, Out]), s);
  }

  lemma ReleasesZero(s: State, t: State, ids: seq<Option<nat>>)
    requires s == State(1, [], 1, 1, {0}, 0, [Out, Looked]) && t == State(1, [0], 1, 1, {}, 0, [Given(1), Looked])
    requires ids == [Some(0)]
    ensures Enabled(s, PushFree(0, ids)) && Apply(s, PushFree(0, ids)) == t
  {
    assert ids[1..] == [];
    assert Somes(ids) == [0] && Nones(ids) == 0 && Releasable(ids, {0});
    assert Minus({0}, [0]) == {};
    hide Minus, Somes, Nones, Releasable;
    assert s.free + [0] == [0];
    assert s.actors[0 := Given(1)] == t.actors;
  }

  /** The first caller releases the slot after the second one found the stack empty. */
  lemma GivesBack(u: State, s: State)
    requires u == State(1, [], 1, 1, {0}, 0, [Out, Looked]) && s == State(1, [0], 1, 1, {}, 0, [Given(1), Looked])
    ensures Reaches(u, s)
  {
    var ids: seq<Option<nat>> := [Some(0)];
    hide *;
    ReleasesZero(u, s, ids);
    Stays(s);
    First(u, PushFree(0, ids), s, s);
  }

  lemma MissesSlot(s: State)
    requires s == State(1, [0], 1, 1, {}, 0, [Given(1), Looked])
    ensures Reaches(State(1, [], 1, 1, {0}, 0, [Out, Out]), s)
  {
    hide Reaches, Minus, Somes, Nones, Releasable;
    var t := State(1, [], 1, 1, {0}, 0, [Out, Out]);
    var u := State(1, [], 1, 1, {0}, 0, [Out, Looked]);
    GivesBack(u, s);
    First(t, PopFree(1), u, s);
  }

  /** A run with one slot in which the second caller finds the stack empty, the first one releases the slot, and the
      second allocation then fails although the slot is free. */
  lemma FailsWithFreeSlot()
    ensures exists s0, s :: Initial(s0) && Reaches(s0, s) && s.free == [0] && Enabled(s, Load(1)) && Fails(s, 1)
  {
    hide Reaches, Minus, Somes, Nones, Releasable;
    var s0 := State(1, [], 0, 0, {}, 0, [Out, Out]);
    var s := State(1, [0], 1, 1, {}, 0, [Given(1), Looked]);
    MissesSlot(s);
    GetsSlot(s);
    assert Initial(s0) && Enabled(s, Load(1)) && Fails(s, 1);
  }
}
