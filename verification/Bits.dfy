/** Bitwise operators of the source on non-negative machine integers, and the
    facts about masks that the engine's ring buffers, its packed dispatch byte
    and the replay's header words rely on. */
module Bits {

  function Pow2(k: nat): (r: nat)
    ensures r >= 1
  {
    if k == 0 then 1 else 2 * Pow2(k - 1)
  }

  ghost predicate IsPow2(n: nat) {
    exists k: nat :: n == Pow2(k)
  }

  /** `x & y`, bit by bit. */
  function And(x: nat, y: nat): nat {
    if x == 0 || y == 0 then 0
    else (if x % 2 == 1 && y % 2 == 1 then 1 else 0) + 2 * And(x / 2, y / 2)
  }

  /** `x | y`, bit by bit. */
  function Or(x: nat, y: nat): nat
    decreases x + y
  {
    if x == 0 then y
    else if y == 0 then x
    else (if x % 2 == 1 || y % 2 == 1 then 1 else 0) + 2 * Or(x / 2, y / 2)
  }

  /** `x >> k`. */
  function Shr(x: nat, k: nat): nat {
    if k == 0 then x else Shr(x / 2, k - 1)
  }

  /** `x << k`, before any truncation. */
  function Shl(x: nat, k: nat): nat {
    x * Pow2(k)
  }

  /** Masking with a power of two minus one is the remainder. */
  lemma {:induction false} AndMask(x: nat, k: nat)
    ensures And(x, Pow2(k) - 1) == x % Pow2(k)
    decreases k
  {
    hide And;
    if k > 0 {
      var h := Pow2(k - 1);
      AndMask(x / 2, k - 1);
      AndOddMask(x, h);
      ModDouble(x, h);
    } else {
      AndNothing(x);
    }
  }

  lemma AndNothing(x: nat)
    ensures And(x, 0) == 0 && x % 1 == 0
  {
  }

  lemma AndOddMask(x: nat, h: nat)
    requires h >= 1
    ensures And(x, 2 * h - 1) == x % 2 + 2 * And(x / 2, h - 1)
  {
    var y := 2 * h - 1;
    assert y / 2 == h - 1 && y % 2 == 1;
  }

  lemma ModDouble(x: nat, h: nat)
    requires h >= 1
    ensures x % (2 * h) == x % 2 + 2 * ((x / 2) % h)
    ensures x / (2 * h) == (x / 2) / h
  {
    var y := x / 2;
    var q, r := y / h, y % h;
    assert y == q * h + r;
    DoubleProduct(q, h);
    ModUnique(x, 2 * h, q, x % 2 + 2 * r);
  }

  lemma DoubleProduct(q: int, h: int)
    ensures q * (2 * h) == 2 * (q * h)
  {
  }

  /** The remainder is the only residue in range. */
  lemma ModUnique(x: int, n: nat, q: int, r: nat)
    requires n >= 1 && x == q * n + r && r < n
    ensures x % n == r && x / n == q
  {
    var q', r' := x / n, x % n;
    assert x == q' * n + r';
    assert (q - q') * n == r' - r;
    assert (q' - q) * n == -((q - q') * n);
    if q > q' {
      MulAtLeast(q - q', n);
    } else if q < q' {
      MulAtLeast(q' - q, n);
    }
  }

  lemma MulAtLeast(k: nat, n: nat)
    requires k >= 1
    ensures k * n >= n
  {
    assert k * n == (k - 1) * n + n;
    assert (k - 1) * n >= 0;
  }

  /** Advancing a ring index that is already masked: one step wraps exactly at
      the end of the ring. */
  lemma MaskWraps(x: nat, mask: nat)
    requires IsPow2(mask + 1) && x < 2 * (mask + 1)
    ensures And(x, mask) == if x <= mask then x else x - (mask + 1)
  {
    var k: nat :| mask + 1 == Pow2(k);
    AndMask(x, k);
    if x <= mask {
      ModUnique(x, mask + 1, 0, x);
    } else {
      ModUnique(x, mask + 1, 1, x - (mask + 1));
    }
  }

  /** Or-ing numbers whose bits do not overlap adds them. */
  lemma {:induction false} OrDisjoint(x: nat, y: nat, k: nat)
    requires x < Pow2(k)
    ensures Or(x, Shl(y, k)) == x + Shl(y, k)
    decreases k
  {
    if k == 0 || x == 0 || y == 0 {
    } else {
      var h := Pow2(k - 1);
      assert Shl(y, k) == 2 * Shl(y, k - 1) by {
        assert y * (2 * h) == 2 * (y * h);
      }
      OrDisjoint(x / 2, y, k - 1);
      var z := Shl(y, k - 1);
      assert (2 * z) / 2 == z && (2 * z) % 2 == 0;
    }
  }

  lemma {:induction false} ShrIsDiv(x: nat, k: nat)
    ensures Shr(x, k) == x / Pow2(k)
    decreases k
  {
    if k > 0 {
      ShrIsDiv(x / 2, k - 1);
      ModDouble(x, Pow2(k - 1));
    }
  }

  /** The smallest power of two that is at least `n` (`next_power_of_two`). */
  function NextPow2(n: nat): (r: nat)
    ensures r >= n && IsPow2(r)
    ensures forall k: nat :: Pow2(k) >= n ==> Pow2(k) >= r
  {
    NextPow2From(n, 0)
  }

  function NextPow2From(n: nat, k: nat): (r: nat)
    requires forall j: nat :: j < k ==> Pow2(j) < n
    ensures r >= n && IsPow2(r)
    ensures forall j: nat :: Pow2(j) >= n ==> Pow2(j) >= r
    decreases n - Pow2(k)
  {
    if Pow2(k) >= n then
      assert forall j: nat :: Pow2(j) >= n ==> Pow2(j) >= Pow2(k) by {
        forall j: nat | Pow2(j) >= n
          ensures Pow2(j) >= Pow2(k)
        {
          Pow2Monotone(k, j);
        }
      }
      Pow2(k)
    else
      NextPow2From(n, k + 1)
  }

  lemma {:induction false} Pow2Monotone(i: nat, j: nat)
    requires i <= j
    ensures Pow2(i) <= Pow2(j)
    decreases j
  {
    if i < j {
      Pow2Monotone(i, j - 1);
    }
  }
}
