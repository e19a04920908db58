/**
 * Python's operations on unbounded integers, written out over Dafny's `int`:
 * `~k`, `k << n`, `k >> n`, `a ^ b` (two's complement on integers of any
 * size). Python's `%` with a positive modulus is Dafny's `%` (both give a
 * non-negative remainder), and `//` by a positive divisor is Dafny's `/`.
 */
module PyInt {

  function Pow2(n: nat): (r: nat)
    ensures r >= 1
  {
    if n == 0 then 1 else 2 * Pow2(n - 1)
  }

  /** `~k` */
  function Not(k: int): int { -k - 1 }

  /** `k << n` */
  function Shl(k: int, n: nat): int { k * Pow2(n) }

  /** `k >> n`, an arithmetic shift: floor division by 2^n. */
  function Shr(k: int, n: nat): int { k / Pow2(n) }

  /** XOR of two non-negative integers, from the lowest bit up. */
  function NatXor(a: nat, b: nat): nat
    decreases a + b
  {
    if a == 0 then b
    else if b == 0 then a
    else 2 * NatXor(a / 2, b / 2) + (if a % 2 == b % 2 then 0 else 1)
  }

  /**
   * `a ^ b` on Python integers. A negative integer stands for the infinite
   * two's-complement bit string of its complement `~k`, which is non-negative,
   * and `~a ^ b == ~(a ^ b)`.
   */
  function Xor(a: int, b: int): int {
    if a >= 0 && b >= 0 then NatXor(a, b)
    else if a < 0 && b < 0 then NatXor(Not(a), Not(b))
    else if a < 0 then Not(NatXor(Not(a), b))
    else Not(NatXor(a, Not(b)))
  }

  /** Bit `i` of `k` in two's complement: `(k >> i) & 1 == 1`. */
  predicate Bit(k: int, i: nat) { Shr(k, i) % 2 == 1 }

  /** `int(x)` of a float: truncation toward zero (exact real arithmetic). */
  function Trunc(x: real): (r: int)
    ensures 0.0 <= x ==> 0 <= r && r as real <= x < r as real + 1.0
    ensures x < 0.0 ==> r <= 0 && r as real - 1.0 < x <= r as real
  {
    if x >= 0.0 then x.Floor else -((-x).Floor)
  }

  /** Euclidean division is determined by quotient and remainder. */
  lemma DivUnique(k: int, d: int, q: int, r: int)
    requires d > 0 && 0 <= r < d && k == q * d + r
    ensures k / d == q
  {
    var q0, r0 := k / d, k % d;
    assert (q0 - q) * d == r - r0 by {
      assert q0 * d + r0 == q * d + r;
    }
    if q0 != q {
      var m := if q0 > q then q0 - q else q - q0;
      MulAtLeast(m, d);
      assert false;
    }
  }

  lemma MulAtLeast(m: int, d: int)
    requires m >= 1 && d > 0
    ensures m * d >= d
  {
  }

  /** One more shift is one more halving. */
  lemma ShrSucc(k: int, i: nat)
    ensures Shr(k, i + 1) == Shr(k / 2, i)
  {
    var p := Pow2(i);
    var q, r2, r1 := (k / 2) / p, (k / 2) % p, k % 2;
    assert k / 2 == q * p + r2;
    assert k == 2 * (k / 2) + r1;
    assert k == q * (2 * p) + (2 * r2 + r1);
    DivUnique(k, 2 * p, q, 2 * r2 + r1);
  }

  /** The bits of `~k` are the bits of `k` flipped. */
  lemma NotBit(k: int, i: nat)
    ensures Bit(Not(k), i) == !Bit(k, i)
  {
    var p := Pow2(i);
    var q, r := k / p, k % p;
    assert k == q * p + r;
    assert Not(k) == (-q - 1) * p + (p - 1 - r);
    DivUnique(Not(k), p, -q - 1, p - 1 - r);
  }

  lemma {:induction false} NatXorBit(a: nat, b: nat, i: nat)
    ensures Bit(NatXor(a, b), i) == (Bit(a, i) != Bit(b, i))
    decreases i
  {
    if a == 0 {
      assert Shr(0, i) == 0;
    } else if b == 0 {
      assert Shr(0, i) == 0;
    } else if i == 0 {
      assert NatXor(a, b) % 2 == (if a % 2 == b % 2 then 0 else 1);
    } else {
      var x := NatXor(a, b);
      assert x / 2 == NatXor(a / 2, b / 2);
      ShrSucc(x, i - 1);
      ShrSucc(a, i - 1);
      ShrSucc(b, i - 1);
      NatXorBit(a / 2, b / 2, i - 1);
    }
  }

  /**
   * `Xor` is bitwise exclusive or on two's-complement bit strings: every bit
   * of `a ^ b` is set exactly when the bits of `a` and `b` differ, for
   * negative operands too.
   */
  lemma XorBit(a: int, b: int, i: nat)
    ensures Bit(Xor(a, b), i) == (Bit(a, i) != Bit(b, i))
  {
    if a >= 0 && b >= 0 {
      NatXorBit(a, b, i);
    } else if a < 0 && b < 0 {
      NatXorBit(Not(a), Not(b), i);
      NotBit(a, i);
      NotBit(b, i);
    } else if a < 0 {
      NatXorBit(Not(a), b, i);
      NotBit(a, i);
      NotBit(NatXor(Not(a), b), i);
    } else {
      NatXorBit(a, Not(b), i);
      NotBit(b, i);
      NotBit(NatXor(a, Not(b)), i);
    }
  }
}
