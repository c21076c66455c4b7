/** Machine words as natural numbers: wrapping arithmetic, truncation and bitwise and. */
module Words {

  const TWO32: nat := 0x1_0000_0000
  const TWO64: nat := 0x1_0000_0000_0000_0000

  function WrapAdd(a: nat, b: nat): nat { (a + b) % TWO64 }

  function WrapSub(a: nat, b: nat): nat
    requires b < TWO64
  {
    (a + TWO64 - b) % TWO64
  }

  function Pow2(k: nat): (r: nat)
    ensures r > 0
  {
    if k == 0 then 1 else 2 * Pow2(k - 1)
  }

  /** The remainder by a variable modulus, named so that proofs can leave it folded. */
  function Rem(a: nat, m: nat): (r: nat)
    requires m > 0
    ensures r < m
  {
    a % m
  }

  /** Bitwise and. */
  function And(x: nat, y: nat): nat
    decreases x
  {
    if x == 0 || y == 0 then 0 else (x % 2) * (y % 2) + 2 * And(x / 2, y / 2)
  }

  lemma HalfMod(x: nat, p: nat)
    requires p > 0
    ensures x % (2 * p) == x % 2 + 2 * ((x / 2) % p)
  {
    var q, r := (x / 2) / p, (x / 2) % p;
    assert x / 2 == q * p + r;
    assert x == 2 * (q * p + r) + x % 2;
    Reduced(x, 2 * p, q, 2 * r + x % 2);
  }

  lemma Scale(d: int, m: int)
    requires m >= 0
    ensures d >= 1 ==> d * m >= m
    ensures d <= -1 ==> d * m <= -m
  {
    if d >= 1 {
      assert d * m == (d - 1) * m + m;
    } else if d <= -1 {
      assert d * m == (d + 1) * m - m;
    }
  }

  lemma Reduced(x: nat, m: nat, q: nat, r: nat)
    requires r < m && x == q * m + r
    ensures x % m == r
  {
    var q', r' := x / m, x % m;
    assert x == q' * m + r';
    assert (q' - q) * m == r - r';
    Scale(q' - q, m);
  }

  /** Masking with a power of two less one is the remainder. */
  lemma {:induction false} AndMask(x: nat, k: nat)
    ensures And(x, Pow2(k) - 1) == x % Pow2(k)
    decreases k
  {
    if k == 0 {
    } else if x == 0 {
    } else {
      var p := Pow2(k - 1);
      assert Pow2(k) == 2 * p;
      AndMask(x / 2, k - 1);
      HalfMod(x, p);
      var y := 2 * p - 1;
      assert y % 2 == 1 && y / 2 == p - 1;
      assert And(x, y) == x % 2 + 2 * And(x / 2, p - 1);
    }
  }

  /** The remainder by 2^j is not disturbed by a remainder by a larger power of two first. */
  lemma ModMod(x: nat, p: nat, c: nat)
    requires p > 0 && c > 0
    ensures (x % (p * c)) % p == x % p
  {
    var m := p * c;
    Parts(x, m);
    var r := x % m;
    Parts(r, p);
    Regroup(x / m, m, p, c, r / p, r % p);
    Reduced(x, p, (x / m) * c + r / p, r % p);
  }

  lemma Parts(x: nat, m: nat)
    requires m > 0
    ensures x == (x / m) * m + x % m && 0 <= x % m < m
  {
  }

  lemma Regroup(q: nat, m: nat, p: nat, c: nat, q1: nat, r1: nat)
    requires m == p * c
    ensures q * m + (q1 * p + r1) == (q * c + q1) * p + r1
  {
    assert q * (p * c) == (q * c) * p;
    assert (q * c) * p + q1 * p == (q * c + q1) * p;
  }

  lemma {:induction false} Pow2Add(a: nat, b: nat)
    ensures Pow2(a + b) == Pow2(a) * Pow2(b)
    decreases a
  {
    if a > 0 {
      Pow2Add(a - 1, b);
      assert Pow2(a + b) == 2 * Pow2(a - 1 + b);
      assert 2 * (Pow2(a - 1) * Pow2(b)) == (2 * Pow2(a - 1)) * Pow2(b);
    }
  }

  lemma Pow2Doubles(k: nat)
    ensures Pow2(k + 8) == 256 * Pow2(k)
  {
    assert Pow2(k + 4) == 16 * Pow2(k) by {
      assert Pow2(k + 2) == 4 * Pow2(k);
      assert Pow2(k + 4) == 4 * Pow2(k + 2);
    }
    assert Pow2(k + 6) == 4 * Pow2(k + 4);
    assert Pow2(k + 8) == 4 * Pow2(k + 6);
  }

  lemma WordPowers()
    ensures Pow2(32) == TWO32 && Pow2(64) == TWO64
  {
    Pow2Doubles(0);
    Pow2Doubles(8);
    Pow2Doubles(16);
    Pow2Doubles(24);
    Pow2Doubles(32);
    Pow2Doubles(40);
    Pow2Doubles(48);
    Pow2Doubles(56);
  }

  /** A 64-bit counter, truncated to 32 bits and masked, addresses its true position modulo the ring size. */
  lemma SlotOfPosition(pos: nat, k: nat)
    requires k <= 32
    ensures And((pos % TWO64) % TWO32, Pow2(k) - 1) == Rem(pos, Pow2(k))
  {
    AndMask((pos % TWO64) % TWO32, k);
    WordPowers();
    Pow2Add(k, 32 - k);
    Pow2Add(k, 64 - k);
    hide And;
    ModMod(pos % TWO64, Pow2(k), Pow2(32 - k));
    ModMod(pos, Pow2(k), Pow2(64 - k));
  }

  /** The header check `size != 0 && size & (size - 1) == 0` accepts exactly the powers of two. */
  lemma {:induction false} PowerOfTwoIff(n: nat)
    requires n > 0
    ensures And(n, n - 1) == 0 <==> exists k: nat :: n == Pow2(k)
    decreases n
  {
    if n == 1 {
      assert Pow2(0) == 1;
    } else if n % 2 == 0 {
      HalfIsPower(n);
      PowerOfTwoIff(n / 2);
      assert (n - 1) / 2 == n / 2 - 1 && n % 2 == 0;
      assert And(n, n - 1) == 2 * And(n / 2, n / 2 - 1);
    } else {
      assert (n - 1) / 2 == n / 2 && (n - 1) % 2 == 0;
      AndSelf(n / 2);
      OddIsNoPower(n);
    }
  }

  lemma {:induction false} AndSelf(x: nat)
    ensures And(x, x) == x
  {
    if x > 0 {
      AndSelf(x / 2);
    }
  }

  lemma OddIsNoPower(n: nat)
    requires n % 2 == 1 && n > 1
    ensures !exists k: nat :: n == Pow2(k)
  {
    forall k: nat ensures n != Pow2(k) {
      if k > 0 {
        assert Pow2(k) == 2 * Pow2(k - 1);
      }
    }
  }

  lemma HalvedPower(n: nat, k: nat)
    requires n > 1 && n == Pow2(k)
    ensures k > 0 && n / 2 == Pow2(k - 1)
  {
    assert Pow2(k) == 2 * Pow2(k - 1);
  }

  lemma DoubledPower(n: nat, k: nat)
    requires n % 2 == 0 && n / 2 == Pow2(k)
    ensures n == Pow2(k + 1)
  {
    assert Pow2(k + 1) == 2 * Pow2(k);
  }

  lemma HalfIsPower(n: nat)
    requires n % 2 == 0 && n > 1
    ensures (exists k: nat :: n == Pow2(k)) <==> (exists k: nat :: n / 2 == Pow2(k))
  {
    hide Pow2;
    if exists k: nat :: n == Pow2(k) {
      var k: nat :| n == Pow2(k);
      HalvedPower(n, k);
      assert n / 2 == Pow2(k - 1);
    }
    if exists k: nat :: n / 2 == Pow2(k) {
      var k: nat :| n / 2 == Pow2(k);
      DoubledPower(n, k);
      assert n == Pow2(k + 1);
    }
  }

  lemma ModAdd(a: nat, b: nat, m: nat)
    requires m > 0
    ensures Rem(Rem(a, m) + b, m) == Rem(a + b, m)
  {
    var q, r := a / m, (a % m + b) % m;
    var q1 := (a % m + b) / m;
    assert a + b == q * m + (q1 * m + r);
    assert q * m + q1 * m == (q + q1) * m;
    Reduced(a + b, m, q + q1, r);
  }

  /** Wrapping at 2^64 does not disturb the remainder by a power of two. */
  lemma WrapMod(a: nat, k: nat)
    requires k <= 32
    ensures Rem(a % TWO64, Pow2(k)) == Rem(a, Pow2(k))
  {
    WordPowers();
    Pow2Add(k, 64 - k);
    ModMod(a, Pow2(k), Pow2(64 - k));
  }

  /** The distance of two counters as the code computes it, and how it moves with them. */
  lemma WrapDistance(h: nat, t: nat)
    requires h < TWO64 && t < TWO64
    ensures WrapSub(t, h) == (if h <= t then t - h else t + TWO64 - h) && t == WrapAdd(h, WrapSub(t, h))
  {
  }

  lemma WrapTakes(h: nat, t: nat, n: nat)
    requires h < TWO64 && t < TWO64 && n <= WrapSub(t, h)
    ensures WrapSub(t, WrapAdd(h, n)) == WrapSub(t, h) - n
  {
    WrapDistance(h, t);
    assert WrapAdd(h, n) == if h + n < TWO64 then h + n else h + n - TWO64;
    WrapDistance(WrapAdd(h, n), t);
    hide WrapAdd, WrapSub;
  }

  lemma WrapAdds(h: nat, t: nat)
    requires h < TWO64 && t < TWO64 && WrapSub(t, h) + 1 < TWO64
    ensures WrapSub(WrapAdd(t, 1), h) == WrapSub(t, h) + 1
  {
    WrapDistance(h, t);
    assert WrapAdd(t, 1) == if t + 1 < TWO64 then t + 1 else 0;
    WrapDistance(h, WrapAdd(t, 1));
    hide WrapAdd, WrapSub;
  }
}
