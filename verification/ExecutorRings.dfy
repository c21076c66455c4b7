/** The dispatcher's two rings: it consumes the submit ring and produces into the completion ring.

    The shared halves of the counters (the submit tail, the completion head) belong to user space. */
module ExecutorRings {
  import opened Basics
  import opened Words
  import opened RingSlots

  /** The masked counter is the slot of its position. */
  lemma MaskIsPlace(h: nat, i: nat, bits: nat)
    ensures And(h + i, Pow2(bits) - 1) == Place(h, i, Pow2(bits))
  {
    AndMask(h + i, bits);
    hide And, Pow2;
  }

  class SubmitRing<E(==)> {
    const mask: nat
    ghost const bits: nat
    const entries: array<E>
    var localHead: nat
    /** Shared words. */
    var head: nat
    var tail: nat

    ghost predicate Valid()
      reads this
    {
      && entries.Length == Pow2(bits) && mask == Pow2(bits) - 1 &&
        head == localHead <= tail <= localHead + entries.Length
    }

    ghost function Contents(): seq<E>
      requires Valid()
      reads this, entries
    {
      Window(entries[..], localHead, tail - localHead)
    }

    constructor (k: nat, data: array<E>, sharedHead: nat, sharedTail: nat)
      requires data.Length == Pow2(k) && sharedHead <= sharedTail <= sharedHead + data.Length
      ensures Valid() && entries == data && Contents() == Window(data[..], sharedHead, sharedTail - sharedHead)
    {
      mask, bits, entries := Pow2(k) - 1, k, data;
      localHead, head, tail := sharedHead, sharedHead, sharedTail;
    }

    method DequeueBatch(buf: array<E>, max: nat) returns (count: nat)
      requires Valid() && buf != entries
      modifies this, buf
      ensures Valid() && tail == old(tail) && count == Least(Least(|old(Contents())|, max), buf.Length)
      ensures buf[..] == old(Contents())[..count] + old(buf[..])[count..]
      ensures Contents() == old(Contents())[count..]
    {
      hide And, Place, Pow2;
      var available := tail - localHead;
      count := Least(Least(available, max), buf.Length);
      ghost var h, all := localHead, Contents();
      for i := 0 to count
        invariant localHead == h + i && tail == old(tail) && head == old(head) && entries[..] == old(entries[..])
        invariant buf[..i] == all[..i] && buf[i..] == old(buf[..])[i..]
      {
        MaskIsPlace(h, i, bits);
        buf[i] := entries[And(localHead, mask)];
        localHead := localHead + 1;
        assert buf[..i + 1] == buf[..i] + [buf[i]];
      }
      assert buf[..] == buf[..count] + buf[count..];
      SplitWindow(entries[..], h, count, available);
      hide Window;
      if count > 0 {
        head := localHead;
      }
    }
  }

  class CompletionRing<C(==)> {
    const mask: nat
    ghost const bits: nat
    const entries: array<C>
    var localTail: nat
    var written: nat
    /** Shared words. */
    var head: nat
    var tail: nat

    ghost predicate Valid()
      reads this
    {
      && entries.Length == Pow2(bits) && mask == Pow2(bits) - 1
      && head <= tail && tail + written == localTail <= head + entries.Length
    }

    /** What user space can read. */
    ghost function Published(): seq<C>
      requires Valid()
      reads this, entries
    {
      Window(entries[..], head, tail - head)
    }

    /** What has been written but not published. */
    ghost function Pending(): seq<C>
      requires Valid()
      reads this, entries
    {
      Window(entries[..], tail, written)
    }

    constructor (k: nat, data: array<C>, sharedHead: nat, sharedTail: nat)
      requires data.Length == Pow2(k) && sharedHead <= sharedTail <= sharedHead + data.Length
      ensures Valid() && entries == data && Pending() == []
      ensures Published() == Window(data[..], sharedHead, sharedTail - sharedHead)
    {
      mask, bits, entries, written := Pow2(k) - 1, k, data, 0;
      localTail, head, tail := sharedTail, sharedHead, sharedTail;
    }

    method Available() returns (n: nat)
      requires Valid()
      ensures n == entries.Length - |Published()| - |Pending()|
    {
      return entries.Length - (localTail - head);
    }

    /** A completion is refused if and only if the ring is full, and never overwrites an unread one. */
    method Push(c: C) returns (ok: bool)
      requires Valid()
      modifies this, entries
      ensures Valid() && head == old(head) && tail == old(tail)
      ensures ok <==> |old(Published())| + |old(Pending())| < entries.Length
      ensures Published() == old(Published())
      ensures Pending() == if ok then old(Pending()) + [c] else old(Pending())
    {
      hide And, Place, Pow2, Window;
      var n := Available();
      if n == 0 {
        return false;
      }
      ghost var p, w, es := tail - head, written, entries[..];
      MaskIsPlace(head, p + w, bits);
      WrittenBehind(es, head, p, w, c);
      var slot := And(localTail, mask);
      entries[slot] := c;
      assert entries[..] == es[slot := c];
      localTail := localTail + 1;
      written := written + 1;
      return true;
    }

    method Flush() returns (n: nat)
      requires Valid()
      modifies this
      ensures Valid() && head == old(head)
      ensures n == |old(Pending())| && Pending() == []
      ensures Published() == old(Published()) + old(Pending())
    {
      n := written;
      ghost var p := tail - head;
      SplitWindow(entries[..], head, p, p + written);
      hide Window;
      if n > 0 {
        tail := localTail;
        written := 0;
      }
    }
  }

  /** Writing behind p published and w unpublished entries extends the latter and leaves the former alone. */
  lemma WrittenBehind<T>(es: seq<T>, head: nat, p: nat, w: nat, c: T)
    requires p + w < |es|
    ensures var es' := es[Place(head, p + w, |es|) := c];
            Window(es', head, p) == Window(es, head, p) && Window(es', head + p, w + 1) == Window(es, head + p, w) + [c]
  {
    hide Window, Place;
    var es', all := es[Place(head, p + w, |es|) := c], Window(es, head, p + w);
    PushWindow(es, head, p + w, c);
    SplitWindow(es', head, p, p + w + 1);
    SplitWindow(es, head, p, p + w);
    assert (all + [c])[..p] == all[..p] && (all + [c])[p..] == all[p..] + [c];
  }
}
