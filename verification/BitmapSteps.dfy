/** Concurrent claimers of the bitmap: loads and compare-exchanges of whole blocks interleaved with sets and clears. */
module BitmapSteps {
  import opened Basics
  import opened ReadyBitmap

  /** A claimer has loaded the value of a block. */
  datatype Claimer = Idle | Loaded(b: nat, seen: Block)

  /** `given` logs the ids whose bit went from 0 to 1, `taken` those claimed, `dropped` those cleared. */
  datatype State = State(max: nat, blocks: seq<Block>, claimers: seq<Claimer>, given: seq<nat>, taken: seq<nat>,
    dropped: seq<nat>)

  datatype Step = Set(id: nat) | Clear(id: nat) | Load(a: nat, b: nat) | Swap(a: nat, weak: bool)

  predicate Enabled(s: State, st: Step) {
    Shaped(s.blocks) && |s.blocks| == (s.max + BITS - 1) / BITS &&
    match st
    case Set(_) => true
    case Clear(_) => true
    case Load(a, b) => a < |s.claimers| && s.claimers[a] == Idle && b < |s.blocks|
    case Swap(a, _) =>
      && a < |s.claimers| && s.claimers[a].Loaded? && s.claimers[a].b < |s.blocks|
      && |s.claimers[a].seen| == BITS && !Zero(s.claimers[a].seen)
  }

  function WithBitSet(blocks: seq<Block>, id: nat, on: bool): seq<Block>
    requires Shaped(blocks) && id / BITS < |blocks|
  {
    blocks[id / BITS := blocks[id / BITS][id % BITS := on]]
  }

  function Apply(s: State, st: Step): State
    requires Enabled(s, st)
  {
    match st
    case Set(id) =>
      if id >= s.max then s
      else s.(blocks := WithBitSet(s.blocks, id, true), given := if Bit(s.blocks, id) then s.given else s.given + [id])
    case Clear(id) =>
      if id >= s.max then s
      else s.(blocks := WithBitSet(s.blocks, id, false),
        dropped := if Bit(s.blocks, id) then s.dropped + [id] else s.dropped)
    case Load(a, b) =>
      if Zero(s.blocks[b]) then s else s.(claimers := s.claimers[a := Loaded(b, s.blocks[b])])
    case Swap(a, weak) =>
      var c := s.claimers[a];
      var bit := Lowest(c.seen, 0);
      if weak || s.blocks[c.b] != c.seen then s.(claimers := s.claimers[a := Idle])
      else
        s.(claimers := s.claimers[a := Idle], blocks := s.blocks[c.b := c.seen[bit := false]],
           taken := s.taken + [BITS * c.b + bit])
  }

  ghost predicate Initial(s: State) {
    && Shaped(s.blocks) && |s.blocks| == (s.max + BITS - 1) / BITS && Ids(s.blocks) == {}
    && s.given == [] && s.taken == [] && s.dropped == []
    && forall a | 0 <= a < |s.claimers| :: s.claimers[a] == Idle
  }

  ghost predicate Runs(s: State, steps: seq<Step>, t: State)
    decreases |steps|
  {
    if steps == [] then t == s else Enabled(s, steps[0]) && Runs(Apply(s, steps[0]), steps[1..], t)
  }

  function Times(log: seq<nat>, id: nat): nat {
    if log == [] then 0 else One(log[0] == id) + Times(log[1..], id)
  }

  lemma {:induction false} TimesAdd(log: seq<nat>, x: nat, id: nat)
    ensures Times(log + [x], id) == Times(log, id) + One(x == id)
  {
    if log == [] {
      assert ([] + [x])[1..] == [];
    } else {
      TimesAdd(log[1..], x, id);
      assert (log + [x])[1..] == log[1..] + [x];
    }
  }

  /** Every setting of a bit is answered by one claim or one clear, or the bit is still set. */
  predicate Balanced(s: State, id: nat) {
    Shaped(s.blocks) && Times(s.given, id) == Times(s.taken, id) + Times(s.dropped, id) + One(Bit(s.blocks, id))
  }

  lemma BitAfter(blocks: seq<Block>, x: nat, on: bool, id: nat)
    requires Shaped(blocks) && x / BITS < |blocks|
    ensures Shaped(WithBitSet(blocks, x, on)) &&
      Bit(WithBitSet(blocks, x, on), id) == if id == x then on else Bit(blocks, id)
  {
    SameId(x, id);
  }

  lemma SwapKeeps(s: State, a: nat, id: nat)
    requires Enabled(s, Swap(a, false)) && Balanced(s, id) && s.blocks[s.claimers[a].b] == s.claimers[a].seen
    ensures Balanced(Apply(s, Swap(a, false)), id)
    ensures Bit(s.blocks, BITS * s.claimers[a].b + Lowest(s.claimers[a].seen, 0))
  {
    var c := s.claimers[a];
    var bit := Lowest(c.seen, 0);
    var x := BITS * c.b + bit;
    assert x / BITS == c.b && x % BITS == bit;
    BitAfter(s.blocks, x, false, id);
    TimesAdd(s.taken, x, id);
    hide Times;
  }

  lemma StepKeeps(s: State, st: Step, id: nat)
    requires Enabled(s, st) && Balanced(s, id)
    ensures Balanced(Apply(s, st), id)
  {
    match st
    case Set(x) =>
      if x < s.max {
        BitAfter(s.blocks, x, true, id);
        TimesAdd(s.given, x, id);
        hide Times, WithBitSet;
      }
    case Clear(x) =>
      if x < s.max {
        BitAfter(s.blocks, x, false, id);
        TimesAdd(s.dropped, x, id);
        hide Times, WithBitSet;
      }
    case Load(a, b) =>
    case Swap(a, weak) =>
      if !weak && s.blocks[s.claimers[a].b] == s.claimers[a].seen {
        SwapKeeps(s, a, id);
        assert Apply(s, st) == Apply(s, Swap(a, false));
      }
  }

  lemma {:induction false} RunKeeps(s: State, steps: seq<Step>, t: State, id: nat)
    requires Balanced(s, id) && Runs(s, steps, t)
    ensures Balanced(t, id)
    decreases |steps|
  {
    hide Balanced, Apply, Enabled;
    if steps != [] {
      StepKeeps(s, steps[0], id);
      RunKeeps(Apply(s, steps[0]), steps[1..], t, id);
    }
  }

  /** No two claimers get the same ready bit: in every interleaving an id is claimed at most once per time it was made
      ready, and it is ready exactly while it was made ready once more than it was claimed or cleared. */
  lemma ClaimedOnce(s0: State, steps: seq<Step>, s: State, id: nat)
    requires Initial(s0) && Runs(s0, steps, s)
    ensures Shaped(s.blocks)
    ensures Times(s.taken, id) + Times(s.dropped, id) + One(Bit(s.blocks, id)) == Times(s.given, id)
  {
    assert !Bit(s0.blocks, id) by {
      assert id < BITS * |s0.blocks| ==> id !in Ids(s0.blocks);
    }
    RunKeeps(s0, steps, s, id);
  }

  /** A claimer that nobody disturbs between its load and its exchange gets the lowest ready id of a block, and only
      that id is not ready any more; it comes away empty only from a block without ready ids. */
  lemma UndisturbedClaim(s: State, a: nat, b: nat)
    requires Enabled(s, Load(a, b))
    ensures var m := Apply(s, Load(a, b));
      if forall i | 0 <= i < BITS :: !s.blocks[b][i] then m == s
      else
        && Enabled(m, Swap(a, false))
        && var t := Apply(m, Swap(a, false));
           exists i :: 0 <= i < BITS && ClaimedFrom(s, t, b, i)
  {
    var m := Apply(s, Load(a, b));
    if !Zero(s.blocks[b]) {
      var t := Apply(m, Swap(a, false));
      assert ClaimedFrom(s, t, b, Lowest(s.blocks[b], 0));
    }
  }

  /** Bit i of block b was the lowest one set, and has been claimed. */
  predicate ClaimedFrom(s: State, t: State, b: nat, i: nat)
    requires Shaped(s.blocks) && b < |s.blocks| && i < BITS
  {
    && s.blocks[b][i] && (forall j | 0 <= j < i :: !s.blocks[b][j])
    && t.blocks == s.blocks[b := s.blocks[b][i := false]] && t.taken == s.taken + [BITS * b + i]
  }
}
