/** The slot allocator: a LIFO stack of released ids in front of a counter of fresh ones. */
module SlotAllocator {
  import opened Basics

  /** Every id issued so far is held or on the stack, once. */
  ghost predicate Sound(max: nat, free: seq<nat>, next: nat, held: set<nat>) {
    && next <= max
    && (forall i | 0 <= i < |free| :: free[i] < next && free[i] !in held)
    && (forall i, j | 0 <= i < j < |free| :: free[i] != free[j])
    && (forall id | id in held :: id < next)
    && (forall id: nat | id < next :: id in held || id in free)
  }

  lemma SoundRelease(max: nat, free: seq<nat>, next: nat, held: set<nat>, id: nat)
    requires Sound(max, free, next, held) && id in held
    ensures Sound(max, free + [id], next, held - {id})
  {
    assert (free + [id])[|free|] == id;
    assert forall x | x in free :: x in free + [id];
  }

  /** Run by one thread at a time. */
  class SlotAllocator {
    const maxSlots: nat
    var freeStack: seq<nat>
    var nextFresh: nat
    var count: int
    /** Ids handed out and not yet released. */
    ghost var held: set<nat>

    ghost predicate Valid()
      reads this
    {
      Sound(maxSlots, freeStack, nextFresh, held)
    }

    constructor (max: nat)
      ensures Valid() && maxSlots == max && freeStack == [] && nextFresh == 0 && count == 0 && held == {}
    {
      maxSlots := max;
      freeStack, nextFresh, count, held := [], 0, 0, {};
    }

    /** The most recently released id, else the next fresh one, else nothing; never one that is held. */
    method Allocate(spurious: nat) returns (r: Option<nat>)
      requires Valid()
      modifies this
      ensures Valid()
      ensures r.None? <==> old(freeStack) == [] && old(nextFresh) >= maxSlots
      ensures r.None? ==> freeStack == old(freeStack) && nextFresh == old(nextFresh) && held == old(held)
      ensures r.None? ==> count == old(count)
      ensures r.Some? ==> r.value < maxSlots && r.value !in old(held) && held == old(held) + {r.value}
      ensures r.Some? ==> count == old(count) + 1
      ensures old(freeStack) != [] ==> r == Some(old(freeStack)[|old(freeStack)| - 1]) && nextFresh == old(nextFresh)
      ensures old(freeStack) != [] ==> freeStack == old(freeStack)[..|old(freeStack)| - 1]
      ensures old(freeStack) == [] && r.Some? ==> r.value == old(nextFresh) && nextFresh == r.value + 1
      ensures old(freeStack) == [] ==> freeStack == []
    {
      if |freeStack| > 0 {
        var id := freeStack[|freeStack| - 1];
        freeStack := freeStack[..|freeStack| - 1];
        held := held + {id};
        count := count + 1;
        return Some(id);
      }
      var failures := 0;
      while true
        invariant Valid() && freeStack == [] == old(freeStack) && nextFresh == old(nextFresh)
        invariant held == old(held) && count == old(count)
        decreases spurious - failures
      {
        var current := nextFresh;
        if current >= maxSlots {
          return None;
        }
        if failures < spurious {
          failures := failures + 1;
        } else {
          nextFresh := current + 1;
          held := held + {current};
          count := count + 1;
          return Some(current);
        }
      }
    }

    /** A release keeps the allocator sound if and only if it names a held id or NONE. */
    method Release(id: Option<nat>)
      requires Valid()
      modifies this
      ensures Valid() <==> id.None? || id.value in old(held)
      ensures nextFresh == old(nextFresh)
      ensures id.None? ==> freeStack == old(freeStack) && held == old(held) && count == old(count)
      ensures id.Some? ==> freeStack == old(freeStack) + [id.value] && held == old(held) - {id.value}
      ensures id.Some? ==> count == old(count) - 1
    {
      if id.None? {
        return;
      }
      ReleaseIff(maxSlots, freeStack, nextFresh, held, [id]);
      OneSome(id, held);
      hide Sound;
      freeStack := freeStack + [id.value];
      held := held - {id.value};
      count := count - 1;
    }

    /** A batch keeps the allocator sound if and only if its ids are held and each is named once. */
    method ReleaseBatch(ids: seq<Option<nat>>)
      requires Valid()
      modifies this
      ensures Valid() <==> Releasable(ids, old(held))
      ensures nextFresh == old(nextFresh)
      ensures freeStack == old(freeStack) + Somes(ids) && held == Minus(old(held), Somes(ids))
      ensures count == old(count) - |ids|
    {
      ReleaseIff(maxSlots, freeStack, nextFresh, held, ids);
      hide Sound, Releasable;
      if |ids| == 0 {
        assert freeStack == old(freeStack) + Somes(ids) && held == Minus(held, Somes(ids));
        return;
      }
      var i := 0;
      while i < |ids|
        invariant i <= |ids| && nextFresh == old(nextFresh) && count == old(count) && held == old(held)
        invariant freeStack == old(freeStack) + Somes(ids[..i])
      {
        SomesSplit(ids, i);
        var id := ids[i];
        if id.Some? {
          freeStack := freeStack + [id.value];
        }
        i := i + 1;
      }
      assert ids[..i] == ids;
      held := Minus(held, Somes(ids));
      count := count - |ids|;
    }
  }

  lemma OneSome(id: Option<nat>, held: set<nat>)
    requires id.Some?
    ensures Somes([id]) == [id.value] && Minus(held, [id.value]) == held - {id.value}
    ensures Releasable([id], held) <==> id.value in held
  {
    assert [id][1..] == [];
  }

  /** When a batch of releases leaves every issued id in one place. */
  lemma {:induction false} ReleaseIff(max: nat, free: seq<nat>, next: nat, held: set<nat>, ids: seq<Option<nat>>)
    requires Sound(max, free, next, held)
    ensures Sound(max, free + Somes(ids), next, Minus(held, Somes(ids))) <==> Releasable(ids, held)
    decreases |ids|
  {
    if ids == [] {
      MinusCons(held, 0, []);
      assert free + [] == free;
    } else if ids[0].None? {
      ReleaseIff(max, free, next, held, ids[1..]);
    } else {
      var x, rest := ids[0].value, Somes(ids[1..]);
      assert Somes(ids) == [x] + rest;
      assert free + ([x] + rest) == (free + [x]) + rest;
      MinusCons(held, x, rest);
      if x in held {
        SoundRelease(max, free, next, held, x);
        hide Sound;
        ReleaseIff(max, free + [x], next, held - {x}, ids[1..]);
      } else {
        NotHeld(max, free, next, held, x, rest, Minus(held, [x] + rest));
        hide Sound;
      }
    }
  }

  /** Pushing an id that is not held breaks the allocator. */
  lemma NotHeld(max: nat, free: seq<nat>, next: nat, held: set<nat>, x: nat, rest: seq<nat>, after: set<nat>)
    requires Sound(max, free, next, held) && x !in held
    ensures !Sound(max, free + ([x] + rest), next, after)
  {
    var all := free + ([x] + rest);
    assert all[|free|] == x;
    if x < next {
      var i :| 0 <= i < |free| && free[i] == x;
      assert all[i] == x;
    }
  }

  function Minus(held: set<nat>, ids: seq<nat>): set<nat> { held - set x | x in ids }

  lemma MinusCons(held: set<nat>, x: nat, rest: seq<nat>)
    ensures Minus(held, [x] + rest) == Minus(held - {x}, rest) && Minus(held, []) == held
  {
  }

  function Somes(ids: seq<Option<nat>>): seq<nat> {
    if ids == [] then [] else if ids[0].Some? then [ids[0].value] + Somes(ids[1..]) else Somes(ids[1..])
  }

  function Nones(ids: seq<Option<nat>>): nat {
    if ids == [] then 0 else (if ids[0].None? then 1 else 0) + Nones(ids[1..])
  }

  /** Every id named is held, and named once. */
  predicate Releasable(ids: seq<Option<nat>>, held: set<nat>)
    decreases |ids|
  {
    ids == [] || if ids[0].None? then Releasable(ids[1..], held)
                 else ids[0].value in held && Releasable(ids[1..], held - {ids[0].value})
  }

  lemma SomesSplit(ids: seq<Option<nat>>, i: nat)
    requires i < |ids|
    ensures Somes(ids[..i + 1]) == Somes(ids[..i]) + (if ids[i].Some? then [ids[i].value] else [])
    ensures ids[i..][1..] == ids[i + 1..]
  {
    SomesAppend(ids[..i], [ids[i]]);
    assert ids[..i + 1] == ids[..i] + [ids[i]];
    assert [ids[i]][1..] == [];
  }

  lemma {:induction false} SomesAppend(a: seq<Option<nat>>, b: seq<Option<nat>>)
    ensures Somes(a + b) == Somes(a) + Somes(b)
  {
    if a == [] {
      assert a + b == b;
    } else {
      SomesAppend(a[1..], b);
      assert (a + b)[1..] == a[1..] + b;
      if a[0].Some? {
        assert [a[0].value] + (Somes(a[1..]) + Somes(b)) == ([a[0].value] + Somes(a[1..])) + Somes(b);
      }
    }
  }
}
