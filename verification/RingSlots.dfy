/** Ring slots: where positions land in an array whose length they are taken modulo, and windows of such an array. */
module RingSlots {
  import opened Words

  /** The slot of the i-th entry after position `head`. */
  function Place(head: nat, i: nat, size: nat): (r: nat)
    requires size > 0
    ensures r < size
  {
    Rem(head + i, size)
  }

  /** The `n` entries from position `head` on. */
  function Window<T>(es: seq<T>, head: nat, n: nat): (w: seq<T>)
    requires |es| > 0
    ensures |w| == n && forall i | 0 <= i < n :: w[i] == es[Place(head, i, |es|)]
  {
    seq(n, i requires 0 <= i < n => es[Place(head, i, |es|)])
  }

  /** Fewer than `size` apart, two positions have different slots. */
  lemma PlacesDiffer(h: nat, i: nat, j: nat, size: nat)
    requires i < j < i + size
    ensures Place(h, i, size) != Place(h, j, size)
  {
    var a, b := (h + i) / size, (h + j) / size;
    if Place(h, i, size) == Place(h, j, size) {
      assert (b - a) * size == j - i;
      Scale(b - a, size);
    }
  }

  /** Writing the next slot of a window that is not full appends to the window. */
  lemma PushWindow<T>(es: seq<T>, h: nat, n: nat, e: T)
    requires n < |es|
    ensures Window(es[Place(h, n, |es|) := e], h, n + 1) == Window(es, h, n) + [e]
  {
    forall i | 0 <= i < n ensures Place(h, i, |es|) != Place(h, n, |es|) {
      PlacesDiffer(h, i, n, |es|);
    }
    hide Place;
  }

  /** Moving the start of a window drops its first entries, moving its end drops its last ones. */
  lemma SplitWindow<T>(es: seq<T>, h: nat, m: nat, n: nat)
    requires |es| > 0 && m <= n
    ensures Window(es, h, n)[m..] == Window(es, h + m, n - m) && Window(es, h, n)[..m] == Window(es, h, m)
  {
    hide Rem;
    var from := h + m;
    forall i: nat | i < n - m ensures Place(from, i, |es|) == Place(h, m + i, |es|) {
      assert from + i == h + (m + i);
    }
    hide Place;
  }
}
