/** The bitmap ready set: one bit per id in 64-bit blocks, a wrapped scan from a random block, four priority levels.

    A 64-bit block is the sequence of its bits, lowest first. */
module ReadyBitmap {
  import opened Basics
  import opened Words
  import opened RingSlots

  const BITS: nat := 64
  const LEVELS: nat := 4

  type Block = seq<bool>

  predicate Shaped(blocks: seq<Block>) { forall b | 0 <= b < |blocks| :: |blocks[b]| == BITS }

  predicate Zero(v: Block) { forall i | 0 <= i < |v| :: !v[i] }

  function Bit(blocks: seq<Block>, id: nat): bool
    requires Shaped(blocks)
  {
    id / BITS < |blocks| && blocks[id / BITS][id % BITS]
  }

  /** The ids whose bits are set. */
  ghost function Ids(blocks: seq<Block>): set<nat>
    requires Shaped(blocks)
  {
    set id: nat | id < BITS * |blocks| && Bit(blocks, id)
  }

  /** `trailing_zeros` of a block that is not zero. */
  function Lowest(v: Block, i: nat): (r: nat)
    requires i <= |v| && exists j :: i <= j < |v| && v[j]
    ensures i <= r < |v| && v[r] && forall j | i <= j < r :: !v[j]
    decreases |v| - i
  {
    if v[i] then i else Lowest(v, i + 1)
  }

  lemma WithBit(blocks: seq<Block>, id: nat, on: bool)
    requires Shaped(blocks) && id < BITS * |blocks|
    ensures var b, i := id / BITS, id % BITS;
      var t := blocks[b := blocks[b][i := on]];
      Shaped(t) && Ids(t) == if on then Ids(blocks) + {id} else Ids(blocks) - {id}
  {
    var b, i := id / BITS, id % BITS;
    var t := blocks[b := blocks[b][i := on]];
    assert Shaped(t);
    forall x: nat | x < BITS * |blocks| ensures Bit(t, x) == if x == id then on else Bit(blocks, x) {
      SameId(x, id);
    }
  }

  lemma SameId(x: nat, y: nat)
    ensures x == y <==> x / BITS == y / BITS && x % BITS == y % BITS
  {
  }

  // ── The wrapped scan ──

  /** When block b is visited by a scan whose i-th block is Place(start, i, n). */
  function Turn(start: nat, b: nat, n: nat): nat
    requires start < n && b < n
  {
    if b >= start then b - start else b + n - start
  }

  /** The scan visits every block exactly once. */
  lemma ScanIsPermutation(start: nat, n: nat, b: nat, i: nat)
    requires start < n && b < n && i < n
    ensures Turn(start, b, n) < n && Place(start, Turn(start, b, n), n) == b
    ensures Turn(start, Place(start, i, n), n) == i
  {
    var t := Turn(start, b, n);
    Reduced(start + t, n, if b >= start then 0 else 1, b);
    if start + i < n {
      Reduced(start + i, n, 0, start + i);
    } else {
      Reduced(start + i, n, 1, start + i - n);
    }
  }

  class ReadyBitmap {
    const maxId: nat
    var blocks: seq<Block>

    ghost predicate Valid()
      reads this
    {
      && |blocks| == (maxId + BITS - 1) / BITS && Shaped(blocks)
      && forall id | id in Ids(blocks) :: id < maxId
    }

    ghost function Ready(): set<nat>
      requires Valid()
      reads this
    {
      Ids(blocks)
    }

    constructor (maxThreads: nat)
      ensures Valid() && maxId == maxThreads && Ready() == {}
    {
      maxId := maxThreads;
      blocks := seq((maxThreads + BITS - 1) / BITS, i => seq(BITS, j => false));
    }

    method Set(id: nat)
      requires Valid()
      modifies this
      ensures Valid() && Ready() == if id < maxId then old(Ready()) + {id} else old(Ready())
    {
      if id >= maxId {
        return;
      }
      WithBit(blocks, id, true);
      var b, i := id / BITS, id % BITS;
      hide Ids;
      blocks := blocks[b := blocks[b][i := true]];
    }

    method Clear(id: nat)
      requires Valid()
      modifies this
      ensures Valid() && Ready() == old(Ready()) - {id}
    {
      if id >= maxId {
        assert id !in Ready();
        return;
      }
      WithBit(blocks, id, false);
      var b, i := id / BITS, id % BITS;
      hide Ids;
      blocks := blocks[b := blocks[b][i := false]];
    }

    method IsSet(id: nat) returns (r: bool)
      requires Valid()
      ensures r <==> id in Ready()
    {
      if id >= maxId {
        return false;
      }
      return blocks[id / BITS][id % BITS];
    }

    /** Claims the lowest set bit of one block. */
    method TryClaimFromBlock(b: nat, spurious: nat) returns (r: Option<nat>)
      requires Valid() && b < |blocks|
      modifies this
      ensures Valid()
      ensures r.None? <==> old(Zero(blocks[b]))
      ensures r.None? ==> blocks == old(blocks)
      ensures r.Some? ==> r.value < BITS && BITS * b + r.value in old(Ready())
      ensures r.Some? ==> Ready() == old(Ready()) - {BITS * b + r.value}
      ensures r.Some? ==> forall i | 0 <= i < r.value :: !old(blocks)[b][i]
    {
      var failures := 0;
      while true
        invariant blocks == old(blocks) && Valid()
        decreases spurious - failures
      {
        var current := blocks[b];
        if Zero(current) {
          return None;
        }
        var bit := Lowest(current, 0);
        if failures < spurious {
          failures := failures + 1;
        } else {
          var id := BITS * b + bit;
          assert id / BITS == b && id % BITS == bit;
          WithBit(blocks, id, false);
          assert id in Ready();
          hide Ids;
          blocks := blocks[b := current[bit := false]];
          return Some(bit);
        }
      }
    }

    /** Nothing is found if and only if nothing is ready; otherwise exactly the returned id is removed, the first in
        scan order from the hinted block and the lowest in its block. */
    method FindAndClaim(startHint: nat, spurious: nat) returns (r: Option<nat>)
      requires Valid() && maxId > 0
      modifies this
      ensures Valid()
      ensures r.None? <==> old(Ready()) == {}
      ensures r.None? ==> Ready() == old(Ready())
      ensures r.Some? ==> r.value in old(Ready()) && Ready() == old(Ready()) - {r.value}
      ensures r.Some? ==> forall x | x in old(Ready()) ::
        !Earlier(startHint % |old(blocks)|, |old(blocks)|, x, r.value)
    {
      var n := |blocks|;
      var start := startHint % n;
      for i := 0 to n
        invariant blocks == old(blocks) && Valid() && |blocks| == n
        invariant forall j: nat | j < i :: Zero(blocks[Place(start, j, n)])
      {
        var b := Place(start, i, n);
        if !Zero(blocks[b]) {
          ghost var was := blocks;
          var bit := TryClaimFromBlock(b, spurious);
          assert bit.Some?;
          FirstFound(was, start, i, b, bit.value);
          return Some(BITS * b + bit.value);
        }
      }
      AllZero(blocks, start);
      return None;
    }
  }

  /** In a scan from `start`, x would be found before y. */
  predicate Earlier(start: nat, n: nat, x: nat, y: nat) {
    && start < n && x / BITS < n && y / BITS < n
    && (Turn(start, x / BITS, n) < Turn(start, y / BITS, n) || (x / BITS == y / BITS && x < y))
  }

  lemma AllZero(blocks: seq<Block>, start: nat)
    requires Shaped(blocks) && start < |blocks| &&
      forall j: nat | j < |blocks| :: Zero(blocks[Place(start, j, |blocks|)])
    ensures Ids(blocks) == {}
  {
    forall id: nat | id < BITS * |blocks| ensures !Bit(blocks, id) {
      var b := id / BITS;
      ScanIsPermutation(start, |blocks|, b, 0);
      assert Zero(blocks[Place(start, Turn(start, b, |blocks|), |blocks|)]);
    }
  }

  lemma FirstFound(blocks: seq<Block>, start: nat, i: nat, b: nat, bit: nat)
    requires Shaped(blocks) && start < |blocks| && i < |blocks| && b == Place(start, i, |blocks|) && bit < BITS
    requires forall j: nat | j < i :: Zero(blocks[Place(start, j, |blocks|)])
    requires forall k | 0 <= k < bit :: !blocks[b][k]
    ensures forall x | x in Ids(blocks) :: !Earlier(start, |blocks|, x, BITS * b + bit)
  {
    var n := |blocks|;
    assert (BITS * b + bit) / BITS == b;
    forall x | x in Ids(blocks) ensures !Earlier(start, n, x, BITS * b + bit) {
      var c := x / BITS;
      ScanIsPermutation(start, n, c, i);
      assert x == BITS * c + x % BITS;
    }
  }

  // ── Priority levels ──

  function MixLeft13(x: bv64): bv64 { x ^ (x << 13) }

  function MixRight7(x: bv64): bv64 { x ^ (x >> 7) }

  function MixLeft17(x: bv64): bv64 { x ^ (x << 17) }

  /** One step of the generator that picks the starting block. */
  function Xorshift(x: bv64): bv64 { MixLeft17(MixRight7(MixLeft13(x))) }

  /** Seeded with 12345 the generator never gets stuck at zero. */
  lemma XorshiftNonzero(x: bv64)
    requires x != 0
    ensures Xorshift(x) != 0
  {
    Left13Nonzero(x);
    Right7Nonzero(MixLeft13(x));
    Left17Nonzero(MixRight7(MixLeft13(x)));
    hide MixLeft13, MixRight7, MixLeft17;
  }

  lemma Left13Nonzero(x: bv64)
    requires x != 0
    ensures MixLeft13(x) != 0
  {
  }

  lemma Right7Nonzero(x: bv64)
    requires x != 0
    ensures MixRight7(x) != 0
  {
  }

  lemma Left17Nonzero(x: bv64)
    requires x != 0
    ensures MixLeft17(x) != 0
  {
  }

  method NextRandom(x: bv64) returns (y: bv64)
    ensures y == Xorshift(x) && (x != 0 ==> y != 0)
  {
    if x != 0 {
      XorshiftNonzero(x);
    }
    hide MixLeft13, MixRight7, MixLeft17;
    y := MixLeft13(x);
    y := MixRight7(y);
    y := MixLeft17(y);
  }

  function AsIndex(x: bv64): nat { x as nat }

  class ReadyBitmaps {
    /** Critical, high, normal, low. */
    const levels: seq<ReadyBitmap>
    var rng: seq<bv64>

    ghost predicate Valid()
      reads this, levels
    {
      && |levels| == LEVELS
      && (forall p | 0 <= p < LEVELS :: levels[p].Valid() && levels[p].maxId == levels[0].maxId)
      && (forall p, q | 0 <= p < q < LEVELS :: levels[p] != levels[q])
      && (forall w | 0 <= w < |rng| :: rng[w] != 0)
    }

    constructor (maxThreads: nat, workers: nat)
      ensures Valid() && levels[0].maxId == maxThreads && |rng| == workers && fresh(levels)
      ensures forall p | 0 <= p < LEVELS :: levels[p].Ready() == {}
    {
      var critical := new ReadyBitmap(maxThreads);
      var high := new ReadyBitmap(maxThreads);
      var normal := new ReadyBitmap(maxThreads);
      var low := new ReadyBitmap(maxThreads);
      levels := [critical, high, normal, low];
      rng := seq(workers, i => 12345);
    }

    method NextHint(worker: nat) returns (hint: nat)
      requires Valid()
      modifies this`rng
      ensures Valid() && |rng| == |old(rng)| && hint == if worker < |rng| then AsIndex(rng[worker]) else 0
      ensures forall w | 0 <= w < |rng| :: rng[w] == if w == worker then Xorshift(old(rng)[w]) else old(rng)[w]
    {
      if worker < |rng| {
        hide Xorshift, AsIndex, Ids;
        var x := NextRandom(rng[worker]);
        XorshiftNonzero(rng[worker]);
        rng := rng[worker := x];
        return AsIndex(x);
      }
      return 0;
    }

    /** Claims from the highest nonempty level it may look at, or finds all of them empty.  Within the level the scan
        starts at the worker's next random block. */
    method FindAndClaim(worker: nat, lowOnly: bool, spurious: nat) returns (r: Option<(nat, nat)>)
      requires Valid() && levels[0].maxId > 0
      modifies this`rng, levels
      ensures Valid()
      ensures var first := if lowOnly then LEVELS - 1 else 0;
        r.None? <==> forall p | first <= p < LEVELS :: old(levels[p].Ready()) == {}
      ensures r.Some? ==> r.value.1 < LEVELS && (lowOnly ==> r.value.1 == LEVELS - 1)
      ensures r.Some? ==> r.value.0 in old(levels[r.value.1].Ready())
      ensures r.Some? && !lowOnly ==> forall p | 0 <= p < r.value.1 :: old(levels[p].Ready()) == {}
      ensures forall p | 0 <= p < LEVELS ::
        levels[p].Ready() == old(levels[p].Ready()) - (if r.Some? && r.value.1 == p then {r.value.0} else {})
      ensures r.Some? && worker < |old(rng)| ==>
        var n := |old(levels[r.value.1].blocks)|;
        forall x | x in old(levels[r.value.1].Ready()) ::
          !Earlier(AsIndex(Xorshift(old(rng)[worker])) % n, n, x, r.value.0)
    {
      hide Ids, Xorshift;
      var hint := NextHint(worker);
      var p := if lowOnly then LEVELS - 1 else 0;
      ghost var first := p;
      while p < LEVELS
        invariant first <= p <= LEVELS && Valid()
        invariant forall q | 0 <= q < LEVELS :: levels[q].Ready() == old(levels[q].Ready())
        invariant forall q | first <= q < p :: old(levels[q].Ready()) == {}
      {
        var id := levels[p].FindAndClaim(hint, spurious);
        if id.Some? {
          return Some((id.value, p));
        }
        p := p + 1;
      }
      return None;
    }
  }
}
