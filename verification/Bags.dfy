/** Sums of multisets over a sequence of holders.

    The concurrent models below account for every thread id (or request) by adding up what each
    worker, queue or buffer holds.  These lemmas say how such a sum reacts to changing one holder
    and that an element counted once has one holder only. */
module Bags {

  /** The multiset sum of all bags in `bs`. */
  ghost function Sum<T>(bs: seq<multiset<T>>): multiset<T> {
    if bs == [] then multiset{} else bs[0] + Sum(bs[1..])
  }

  /** Splitting the sum at one holder. */
  lemma {:induction false} SumSplit<T>(bs: seq<multiset<T>>, i: nat)
    requires i < |bs|
    ensures Sum(bs) == bs[i] + Sum(bs[..i] + bs[i + 1..])
  {
    if i == 0 {
      assert bs[..0] + bs[1..] == bs[1..];
    } else {
      SumSplit(bs[1..], i - 1);
      var rest := bs[..i] + bs[i + 1..];
      assert rest[1..] == bs[1..][..i - 1] + bs[1..][i..];
    }
  }

  /** Replacing the bag of one holder replaces its share of the sum. */
  lemma SumUpdate<T>(bs: seq<multiset<T>>, i: nat, b: multiset<T>)
    requires i < |bs|
    ensures Sum(bs[i := b]) + bs[i] == Sum(bs) + b
    ensures bs[i] <= Sum(bs)
  {
    SumSplit(bs, i);
    SumSplit(bs[i := b], i);
    assert bs[i := b][..i] + bs[i := b][i + 1..] == bs[..i] + bs[i + 1..];
  }

  /** Two different holders both fit into the sum. */
  lemma SumPair<T>(bs: seq<multiset<T>>, i: nat, j: nat)
    requires i < |bs| && j < |bs| && i != j
    ensures bs[i] + bs[j] <= Sum(bs)
  {
    SumUpdate(bs, i, multiset{});
    SumUpdate(bs[i := multiset{}], j, multiset{});
    assert Sum(bs) == Sum(bs[i := multiset{}]) + bs[i];
  }

  /** If the share of one holder in w is exchanged so that the outer balance holds, the total balances again. */
  lemma Balance<T>(g: multiset<T>, w: multiset<T>, a: multiset<T>, p: multiset<T>, l: multiset<T>, b: multiset<T>,
                   g': multiset<T>, w': multiset<T>, p': multiset<T>, l': multiset<T>, b': multiset<T>)
    requires g + w + a + p == l && w' + b == w + b' && g' + b' + p' + l == g + b + p + l'
    ensures g' + w' + a + p' == l'
  {
    forall x ensures (g' + w' + a + p')[x] == l'[x] {
      assert (w' + b)[x] == (w + b')[x];
      assert (g' + b' + p' + l)[x] == (g + b + p + l')[x];
    }
  }

  /** The same for an upper bound. */
  lemma BalanceBelow<T>(r: multiset<T>, q: multiset<T>, a: multiset<T>, l: multiset<T>, b: multiset<T>,
                        r': multiset<T>, q': multiset<T>, l': multiset<T>, b': multiset<T>)
    requires r + q + a <= l && r' + b == r + b' && b' + q' + l <= b + q + l'
    ensures r' + q' + a <= l'
  {
    forall x ensures (r' + q' + a)[x] <= l'[x] {
      assert (r + q + a)[x] <= l[x];
      assert (r' + b)[x] == (r + b')[x];
      assert (b' + q' + l)[x] <= (b + q + l')[x];
    }
  }

  /** An element whose count in the exchanged share and in q stays the same keeps its total count. */
  lemma SameCount<T>(r: multiset<T>, q: multiset<T>, a: multiset<T>, b: multiset<T>,
                     r': multiset<T>, q': multiset<T>, b': multiset<T>, x: T)
    requires r' + b == r + b' && b'[x] + q'[x] == b[x] + q[x]
    ensures (r' + q' + a)[x] == (r + q + a)[x]
  {
    assert (r' + b)[x] == (r + b')[x];
  }

  /** The only occurrence of an element disappears when a share gives it up. */
  lemma UsedUp<T>(r: multiset<T>, q: multiset<T>, a: multiset<T>, b: multiset<T>, r': multiset<T>, b': multiset<T>,
      x: T)
    requires (r + q + a)[x] <= 1 && r' + b == r + b' && b == b' + multiset{x}
    ensures x !in r' + q + a
  {
    assert (r' + b)[x] == (r + b')[x];
    assert b[x] == b'[x] + 1;
  }

  /** If holder l becomes l' within s and x leaves the pair of g and l, x leaves the pair of g and s. */
  lemma Exchange<T>(g: multiset<T>, s: multiset<T>, l: multiset<T>, g': multiset<T>, s': multiset<T>, l': multiset<T>,
                    x: multiset<T>)
    requires s' + l == s + l' && g + l == g' + l' + x
    ensures g + s == g' + s' + x
  {
    forall e ensures (g + s)[e] == (g' + s' + x)[e] {
      assert (s' + l)[e] == (s + l')[e];
      assert (g + l)[e] == (g' + l' + x)[e];
    }
  }

  /** Chaining two balances. */
  lemma Chain<T>(a: multiset<T>, i: multiset<T>, b: multiset<T>, o: multiset<T>, i': multiset<T>, c: multiset<T>,
      o': multiset<T>)
    requires a + i == b + o && b + i' == c + o'
    ensures a + (i + i') == c + (o + o')
  {
    forall e ensures (a + (i + i'))[e] == (c + (o + o'))[e] {
      assert (a + i)[e] == (b + o)[e];
      assert (b + i')[e] == (c + o')[e];
    }
  }
}
