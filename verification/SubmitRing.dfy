/** The submit ring with its real counters: 64-bit wrapping positions, truncation to 32 bits and a mask. */
module SubmitRing {
  import opened Basics
  import opened Words
  import opened RingSlots

  datatype Entry = Entry(corrId: nat, nr: nat, flags: nat, args: seq<nat>)

  /** The slot index the code computes for a counter value. */
  function Slot(counter: nat, mask: nat): nat { And(counter % TWO32, mask) }

  class SubmitRing {
    const size: nat
    const mask: nat
    ghost const bits: nat
    const entries: array<Entry>
    var head: nat
    var tail: nat

    ghost predicate Valid()
      reads this
    {
      && bits <= 31 && size == Pow2(bits) && mask == size - 1 && entries.Length == size
      && head < TWO64 && tail < TWO64
      && WrapSub(tail, head) <= size
    }

    /** What the ring holds, oldest first. */
    ghost function Contents(): seq<Entry>
      requires Valid()
      reads this, entries
    {
      Window(entries[..], head, WrapSub(tail, head))
    }

    /** A fresh ring may start at any counter value. */
    constructor (k: nat, start: nat, blank: Entry)
      requires k <= 31 && start < TWO64
      ensures Valid() && fresh(entries) && size == Pow2(k) && Contents() == []
      ensures head == start
    {
      size, mask, bits := Pow2(k), Pow2(k) - 1, k;
      entries := new Entry[Pow2(k)](i => blank);
      head, tail := start, start;
    }

    /** `spurious` is how often the weak compare-exchange fails without cause. */
    method TryPush(e: Entry, spurious: nat) returns (ok: bool)
      requires Valid()
      modifies this, entries
      ensures Valid() && head == old(head)
      ensures ok <==> |old(Contents())| < size
      ensures Contents() == if ok then old(Contents()) + [e] else old(Contents())
    {
      var failures := 0;
      while true
        invariant Valid() && head == old(head) && tail == old(tail) && entries[..] == old(entries[..])
        decreases spurious - failures
      {
        var t := tail;
        var h := head;
        if WrapSub(t, h) >= size {
          assert Contents() == old(Contents());
          return false;
        }
        if failures < spurious {
          failures := failures + 1;
        } else {
          ghost var n := WrapSub(t, h);
          tail := WrapAdd(t, 1);
          TailPlace(h, t, bits);
          PushWindow(entries[..], h, n, e);
          hide Window, And, Rem;
          entries[Slot(t, mask)] := e;
          assert entries[..] == old(entries[..])[Place(h, n, size) := e];
          return true;
        }
      }
    }

    /** The consumer's read loop: copies the entries from counter value h on. */
    method ReadEntries(buf: array<Entry>, h: nat, count: nat)
      requires Valid() && buf != entries && count <= buf.Length
      modifies buf
      ensures buf[..] == Window(entries[..], h, count) + old(buf[..])[count..]
    {
      hide Slot, Place, WrapAdd, WrapSub, Pow2;
      ghost var all := Window(entries[..], h, count);
      for i := 0 to count
        invariant entries[..] == old(entries[..])
        invariant buf[..i] == all[..i] && buf[i..] == old(buf[..])[i..]
      {
        SlotIsPlace(h, i, bits);
        buf[i] := entries[Slot(WrapAdd(h, i), mask)];
        assert buf[..i + 1] == buf[..i] + [buf[i]];
      }
      assert buf[..] == buf[..count] + buf[count..];
    }

    method DequeueBatch(buf: array<Entry>, max: nat) returns (count: nat)
      requires Valid() && buf != entries
      modifies this, buf
      ensures Valid() && tail == old(tail) && count == Least(Least(|old(Contents())|, max), buf.Length)
      ensures buf[..] == old(Contents())[..count] + old(buf[..])[count..]
      ensures Contents() == old(Contents())[count..]
    {
      var h := head;
      var t := tail;
      var available := WrapSub(t, h);
      count := Least(Least(available, max), buf.Length);
      SplitWindow(entries[..], h, count, available);
      TakeWindow(entries[..], h, t, count, bits);
      hide Window, WrapSub, WrapAdd;
      ReadEntries(buf, h, count);
      if count > 0 {
        head := WrapAdd(h, count);
        WrapsBelow(h, count);
      }
    }

    method Len() returns (n: nat)
      requires Valid()
      ensures n == |Contents()|
    {
      return WrapSub(tail, head);
    }

    method IsEmpty() returns (b: bool)
      requires Valid()
      ensures b <==> Contents() == []
    {
      return head == tail;
    }
  }

  // ── Positions and slots ──

  /** The index computed from a wrapped counter is the slot of its position. */
  lemma SlotIsPlace(h: nat, i: nat, bits: nat)
    requires bits <= 31
    ensures Slot(WrapAdd(h, i), Pow2(bits) - 1) == Place(h, i, Pow2(bits))
  {
    SlotOfPosition(h + i, bits);
    hide And, Pow2, Rem;
  }

  /** Where the next push goes, and that the counters then stand for one entry more. */
  lemma TailPlace(h: nat, t: nat, bits: nat)
    requires h < TWO64 && t < TWO64 && bits <= 31 && WrapSub(t, h) < Pow2(bits)
    ensures Slot(t, Pow2(bits) - 1) == Place(h, WrapSub(t, h), Pow2(bits))
    ensures WrapSub(WrapAdd(t, 1), h) == WrapSub(t, h) + 1
  {
    hide Slot, Place, Pow2, WrapAdd, WrapSub;
    WordPowers();
    PowersGrow(bits, 32);
    WrapDistance(h, t);
    SlotIsPlace(h, WrapSub(t, h), bits);
    WrapAdds(h, t);
  }

  lemma {:induction false} PowersGrow(j: nat, k: nat)
    requires j <= k
    ensures Pow2(j) <= Pow2(k)
    decreases k - j
  {
    if j < k {
      PowersGrow(j + 1, k);
    }
  }

  lemma TakeWindow(es: seq<Entry>, h: nat, t: nat, n: nat, bits: nat)
    requires h < TWO64 && t < TWO64 && bits <= 31 && |es| == Pow2(bits) && n <= WrapSub(t, h)
    ensures WrapSub(t, WrapAdd(h, n)) == WrapSub(t, h) - n
    ensures Window(es, WrapAdd(h, n), WrapSub(t, h) - n) == Window(es, h, WrapSub(t, h))[n..]
  {
    WrapTakes(h, t, n);
    var all := WrapSub(t, h);
    forall i: nat | i < all - n ensures Place(WrapAdd(h, n), i, |es|) == Place(h, n + i, |es|) {
      PlaceWraps(h, n, i, bits);
    }
    hide Place, WrapSub, WrapAdd, Pow2;
  }

  lemma WrapsBelow(a: nat, b: nat)
    ensures WrapAdd(a, b) < TWO64
  {
  }

  lemma PlaceWraps(h: nat, n: nat, i: nat, bits: nat)
    requires bits <= 31
    ensures Place(WrapAdd(h, n), i, Pow2(bits)) == Place(h, n + i, Pow2(bits))
  {
    hide Pow2, Rem, WrapAdd;
    var size, at := Pow2(bits), WrapAdd(h, n);
    assert Rem(at, size) == Rem(h + n, size) by { WrapAddRem(h, n, bits); }
    ModAdd(at, i, size);
    ModAdd(h + n, i, size);
    assert h + n + i == h + (n + i);
  }

  lemma WrapAddRem(h: nat, n: nat, bits: nat)
    requires bits <= 31
    ensures Rem(WrapAdd(h, n), Pow2(bits)) == Rem(h + n, Pow2(bits))
  {
    WrapMod(h + n, bits);
    hide Rem, Pow2;
  }

  // ── Whole runs ──

  datatype Op = Push(e: Entry) | Take(max: nat)

  /** A run of the ring's contract: final contents, accepted entries and dequeued entries, each in order. */
  function Run(q: seq<Entry>, size: nat, ops: seq<Op>): (seq<Entry>, seq<Entry>, seq<Entry>)
    decreases |ops|
  {
    if ops == [] then (q, [], [])
    else
      match ops[0]
      case Push(e) =>
        if |q| < size then
          var (end, pushed, taken) := Run(q + [e], size, ops[1..]);
          (end, [e] + pushed, taken)
        else Run(q, size, ops[1..])
      case Take(max) =>
        var n := Least(|q|, max);
        var (end, pushed, taken) := Run(q[n..], size, ops[1..]);
        (end, pushed, q[..n] + taken)
  }

  /** Over every run, what was dequeued followed by what is left is what was there followed by what was accepted, in
      order, and the ring never holds more than its size. */
  lemma {:induction false} RunIsFifo(q: seq<Entry>, size: nat, ops: seq<Op>)
    requires |q| <= size
    ensures var (end, pushed, taken) := Run(q, size, ops); q + pushed == taken + end && |end| <= size
    decreases |ops|
  {
    if ops == [] {
    } else if ops[0].Push? {
      if |q| < size {
        RunIsFifo(q + [ops[0].e], size, ops[1..]);
        var (end, pushed, taken) := Run(q + [ops[0].e], size, ops[1..]);
        assert q + ([ops[0].e] + pushed) == (q + [ops[0].e]) + pushed;
      } else {
        RunIsFifo(q, size, ops[1..]);
      }
    } else {
      var n := Least(|q|, ops[0].max);
      RunIsFifo(q[n..], size, ops[1..]);
      var (end, pushed, taken) := Run(q[n..], size, ops[1..]);
      assert q[..n] + (taken + end) == (q[..n] + taken) + end;
      assert q + pushed == q[..n] + (q[n..] + pushed);
    }
  }

  /** Executing the operations on a ring answers and leaves behind exactly what the plain queue does. */
  method Execute(ring: SubmitRing, ops: seq<Op>, blank: Entry, spurious: nat)
    returns (pushed: seq<Entry>, taken: seq<Entry>)
    requires ring.Valid()
    modifies ring, ring.entries
    ensures ring.Valid() && (ring.Contents(), pushed, taken) == Run(old(ring.Contents()), ring.size, ops)
  {
    pushed, taken := [], [];
    ghost var all := Run(ring.Contents(), ring.size, ops);
    assert [] + all.1 == all.1 && [] + all.2 == all.2 && ops[0..] == ops;
    var i := 0;
    while i < |ops|
      invariant i <= |ops| && ring.Valid()
      invariant Continues(old(ring.Contents()), ring.size, ops, pushed, taken, ring.Contents(), ops[i..])
    {
      ghost var was := ring.Contents();
      RunStep(old(ring.Contents()), ring.size, ops, pushed, taken, was, ops[i..]);
      hide Continues;
      assert ops[i..][1..] == ops[i + 1..];
      match ops[i] {
        case Push(e) =>
          var ok := ring.TryPush(e, spurious);
          pushed := if ok then pushed + [e] else pushed;
        case Take(max) =>
          var buf := new Entry[max](_ => blank);
          var n := ring.DequeueBatch(buf, max);
          assert buf[..n] == was[..n];
          taken := taken + buf[..n];
      }
      i := i + 1;
    }
    assert pushed + [] == pushed && taken + [] == taken;
  }

  /** After `pushed` and `taken` the contents are `now`, and `left` remains of the run of `ops`. */
  ghost predicate Continues(q: seq<Entry>, size: nat, ops: seq<Op>, pushed: seq<Entry>, taken: seq<Entry>,
                            now: seq<Entry>, left: seq<Op>) {
    var (end, p, t) := Run(now, size, left);
    Run(q, size, ops) == (end, pushed + p, taken + t)
  }

  lemma RunStep(q: seq<Entry>, size: nat, ops: seq<Op>, pushed: seq<Entry>, taken: seq<Entry>, now: seq<Entry>,
                left: seq<Op>)
    requires left != [] && Continues(q, size, ops, pushed, taken, now, left)
    ensures match left[0]
            case Push(e) =>
              if |now| < size then Continues(q, size, ops, pushed + [e], taken, now + [e], left[1..])
              else Continues(q, size, ops, pushed, taken, now, left[1..])
            case Take(max) =>
              var n := Least(|now|, max);
              Continues(q, size, ops, pushed, taken + now[..n], now[n..], left[1..])
  {
    match left[0]
    case Push(e) =>
      if |now| < size {
        var (end, p, t) := Run(now + [e], size, left[1..]);
        assert pushed + ([e] + p) == pushed + [e] + p;
      }
    case Take(max) =>
      var n := Least(|now|, max);
      var (end, p, t) := Run(now[n..], size, left[1..]);
      assert taken + (now[..n] + t) == taken + now[..n] + t;
  }
}
