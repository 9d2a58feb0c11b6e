/** pMARS's position generator (src/mars.rs:599-606): a Park-Miller generator
    by Schrage's decomposition, in the source's truncating arithmetic. */
module Rng {
  import Bits

  const MODULUS: int := 2147483647
  const MULTIPLIER: int := 16807

  predicate Int32(x: int) {
    -0x8000_0000 <= x < 0x8000_0000
  }

  /** Rust's `/` and `%` round toward zero. */
  function TruncDiv(x: int, y: int): int
    requires y > 0
  {
    if x >= 0 then x / y else -((-x) / y)
  }

  function TruncMod(x: int, y: int): int
    requires y > 0
  {
    x - TruncDiv(x, y) * y
  }

  function Next(seed: int): (r: int)
    requires Int32(seed)
    ensures Int32(r)
    ensures r == (MULTIPLIER * seed) % MODULUS
  {
    var q, s := TruncDiv(seed, 127773), TruncMod(seed, 127773);
    var temp := 16807 * s - 2836 * q;
    // 16807 * 127773 + 2836 is the modulus: temp is 16807 * seed less q moduli.
    assert temp == MULTIPLIER * seed - q * MODULUS;
    SchrageRange(seed);
    if temp < 0 then
      Bits.ModUnique(MULTIPLIER * seed, MODULUS, q - 1, temp + 2147483647);
      temp + 2147483647
    else
      Bits.ModUnique(MULTIPLIER * seed, MODULUS, q, temp);
      temp
  }

  lemma SchrageRange(seed: int)
    requires Int32(seed)
    ensures -MODULUS < 16807 * TruncMod(seed, 127773) - 2836 * TruncDiv(seed, 127773) < MODULUS
  {
    var n := if seed >= 0 then seed else -seed;
    assert n / 127773 <= 16807;
    assert 0 <= n - (n / 127773) * 127773 < 127773;
  }

  /** The n-th seed drawn after `seed`. */
  function Drawn(seed: int, n: nat): (r: int)
    requires Int32(seed)
    ensures Int32(r)
  {
    if n == 0 then seed else Next(Drawn(seed, n - 1))
  }

  /** 1407677000 undoes the multiplier, so zero comes only from zero. */
  lemma ZeroOnlyFromZero(seed: int)
    requires Int32(seed)
    ensures Next(seed) == 0 <==> seed % MODULUS == 0
  {
    var k := 1407677000;
    assert MULTIPLIER * k == 11017 * MODULUS + 1;
    if Next(seed) == 0 {
      var j := (MULTIPLIER * seed) / MODULUS;
      assert MULTIPLIER * seed == j * MODULUS;
      assert seed == (k * j - 11017 * seed) * MODULUS by {
        assert k * (MULTIPLIER * seed) == (11017 * MODULUS + 1) * seed;
        assert k * (j * MODULUS) == (k * j) * MODULUS;
      }
      Bits.ModUnique(seed, MODULUS, k * j - 11017 * seed, 0);
    }
    if seed % MODULUS == 0 {
      var j := seed / MODULUS;
      assert MULTIPLIER * seed == (MULTIPLIER * j) * MODULUS;
      Bits.ModUnique(MULTIPLIER * seed, MODULUS, MULTIPLIER * j, 0);
    }
  }

  /** `seed` times the n-th power of the multiplier. */
  function Scaled(seed: int, n: nat): int {
    if n == 0 then seed else MULTIPLIER * Scaled(seed, n - 1)
  }

  /** From any seed not divisible by the modulus, negative ones included, every
      later seed is 16807^n times it, in 1..2^31-2: the sequence never dies. */
  lemma {:induction false} SequenceAlive(seed: int, n: nat)
    requires Int32(seed) && seed % MODULUS != 0 && n >= 1
    ensures 1 <= Drawn(seed, n) < MODULUS
    ensures Drawn(seed, n) == Scaled(seed, n) % MODULUS
  {
    var prev := Drawn(seed, n - 1);
    ZeroOnlyFromZero(prev);
    if n > 1 {
      SequenceAlive(seed, n - 1);
      MultiplyRemainder(Scaled(seed, n - 1));
    }
  }

  lemma MultiplyRemainder(x: int)
    ensures (MULTIPLIER * (x % MODULUS)) % MODULUS == (MULTIPLIER * x) % MODULUS
  {
    var q, r := x / MODULUS, x % MODULUS;
    var s := (MULTIPLIER * r) / MODULUS;
    Bits.ModUnique(MULTIPLIER * x, MODULUS, s + MULTIPLIER * q, (MULTIPLIER * r) % MODULUS);
  }
}
