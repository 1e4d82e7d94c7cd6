/** JavaScript `bigint` arithmetic used by the generator: `2n ** n`, `<<`, `%` and `|`.
    Dafny's `int` is unbounded like `bigint`; what differs is spelled out here:
    `<<` by a negative amount shifts right rounding down, `%` truncates toward
    zero, and `|` works on the infinite two's complement form of each operand. */
module BigInts {

  function Abs(x: int): nat {
    if x < 0 then -x else x
  }

  /** `2n ** n` for a non-negative exponent. */
  function Pow2(n: nat): (r: nat)
    ensures r >= 1
  {
    if n == 0 then 1 else 2 * Pow2(n - 1)
  }

  lemma {:induction false} Pow2Add(a: nat, b: nat)
    ensures Pow2(a + b) == Pow2(a) * Pow2(b)
  {
    if a > 0 {
      Pow2Add(a - 1, b);
      calc {
        Pow2(a + b);
        2 * Pow2(a - 1 + b);
        2 * (Pow2(a - 1) * Pow2(b));
        (2 * Pow2(a - 1)) * Pow2(b);
        Pow2(a) * Pow2(b);
      }
    }
  }

  lemma {:induction false} Pow2Monotone(a: nat, b: nat)
    requires a <= b
    ensures Pow2(a) <= Pow2(b)
  {
    if a < b {
      Pow2Monotone(a, b - 1);
    }
  }

  /** `a << k`: multiplication by 2^k, or for a negative `k` an arithmetic
      shift right, which rounds toward negative infinity; either way the
      sign is kept. */
  function Shl(a: int, k: int): (r: int)
    ensures k >= 0 ==> r == a * Pow2(k)
    ensures k < 0 ==> r * Pow2(-k) <= a < (r + 1) * Pow2(-k)
    ensures (r < 0) == (a < 0)
  {
    if k >= 0 then
      MulSign(a, Pow2(k));
      a * Pow2(k)
    else
      FloorDiv(a, Pow2(-k));
      a / Pow2(-k)
  }

  /** `a % n`: the remainder of division truncated toward zero, so it takes
      the sign of the dividend (unlike Dafny's Euclidean `%`). */
  function Rem(a: int, n: int): (r: int)
    requires n > 0
    ensures 0 <= a ==> 0 <= r < n && r == a % n
    ensures a < 0 ==> -n < r <= 0 && -r == (-a) % n
  {
    if a >= 0 then a % n else -((-a) % n)
  }

  /** `a | b` on two's complement integers of unbounded width: an integer is
      negative exactly when one operand is, and on non-negative operands the
      result lies between the larger operand and their sum. */
  function Or(a: int, b: int): (r: int)
    ensures (r < 0) == (a < 0 || b < 0)
    ensures 0 <= a && 0 <= b ==> a <= r && b <= r && r <= a + b
    decreases Abs(a) + Abs(b)
  {
    if a == 0 then b
    else if b == 0 then a
    else if a == -1 || b == -1 then -1
    else 2 * Or(a / 2, b / 2) + (if a % 2 == 1 || b % 2 == 1 then 1 else 0)
  }

  /** Bit `i` of the two's complement form of `a`. */
  predicate TestBit(a: int, i: nat)
    decreases i
  {
    if i == 0 then a % 2 == 1 else TestBit(a / 2, i - 1)
  }

  /** The lowest bit of `a | b` is the OR of the lowest bits, and the rest
      is the OR of the operands shifted right by one. */
  lemma OrStep(a: int, b: int)
    ensures Or(a, b) == 2 * Or(a / 2, b / 2) + (if a % 2 == 1 || b % 2 == 1 then 1 else 0)
  {
  }

  lemma {:induction false} OrTestBit(a: int, b: int, i: nat)
    ensures TestBit(Or(a, b), i) == (TestBit(a, i) || TestBit(b, i))
    decreases i
  {
    OrStep(a, b);
    var low := if a % 2 == 1 || b % 2 == 1 then 1 else 0;
    var high := Or(a / 2, b / 2);
    assert Or(a, b) == 2 * high + low;
    DivModOfMultiplePlus(high, 2, low);
    if i == 0 {
      assert Or(a, b) % 2 == low;
    } else {
      assert Or(a, b) / 2 == high;
      OrTestBit(a / 2, b / 2, i - 1);
    }
  }

  /** Two integers with the same bits are equal. */
  lemma {:induction false} BitsDetermine(a: int, b: int)
    requires forall i: nat :: TestBit(a, i) == TestBit(b, i)
    ensures a == b
    decreases Abs(a) + Abs(b)
  {
    assert TestBit(a, 0) == TestBit(b, 0);
    if !((a == 0 || a == -1) && (b == 0 || b == -1)) {
      forall i: nat
        ensures TestBit(a / 2, i) == TestBit(b / 2, i)
      {
        assert TestBit(a, i + 1) == TestBit(b, i + 1);
      }
      BitsDetermine(a / 2, b / 2);
    }
  }

  lemma OrCommutes(a: int, b: int)
    ensures Or(a, b) == Or(b, a)
  {
    forall i: nat
      ensures TestBit(Or(a, b), i) == TestBit(Or(b, a), i)
    {
      OrTestBit(a, b, i);
      OrTestBit(b, a, i);
    }
    BitsDetermine(Or(a, b), Or(b, a));
  }

  lemma OrAssociates(a: int, b: int, c: int)
    ensures Or(Or(a, b), c) == Or(a, Or(b, c))
  {
    forall i: nat
      ensures TestBit(Or(Or(a, b), c), i) == TestBit(Or(a, Or(b, c)), i)
    {
      OrTestBit(Or(a, b), c, i);
      OrTestBit(a, b, i);
      OrTestBit(a, Or(b, c), i);
      OrTestBit(b, c, i);
    }
    BitsDetermine(Or(Or(a, b), c), Or(a, Or(b, c)));
  }

  lemma OrIdempotent(a: int)
    ensures Or(a, a) == a
  {
    forall i: nat
      ensures TestBit(Or(a, a), i) == TestBit(a, i)
    {
      OrTestBit(a, a, i);
    }
    BitsDetermine(Or(a, a), a);
  }

  /** Doubling both operands doubles their `|`. */
  lemma OrDouble(x: int, y: int)
    ensures Or(2 * x, 2 * y) == 2 * Or(x, y)
  {
    DivModOfMultiplePlus(x, 2, 0);
    DivModOfMultiplePlus(y, 2, 0);
    OrStep(2 * x, 2 * y);
  }

  /** Shifting both operands left by `k` commutes with `|`. */
  lemma {:induction false} OrShift(a: int, b: int, k: nat)
    ensures Or(a * Pow2(k), b * Pow2(k)) == Or(a, b) * Pow2(k)
  {
    if k > 0 {
      OrShift(a, b, k - 1);
      OrDouble(a * Pow2(k - 1), b * Pow2(k - 1));
      MulPow2Succ(a, k);
      MulPow2Succ(b, k);
      MulPow2Succ(Or(a, b), k);
    }
  }

  /** When `b` fits below bit `k`, OR-ing it into `a << k` adds it. */
  lemma {:induction false} OrDisjoint(a: int, b: int, k: nat)
    requires 0 <= b < Pow2(k)
    ensures Or(a * Pow2(k), b) == a * Pow2(k) + b
  {
    if k > 0 {
      MulPow2Succ(a, k);
      var a' := a * Pow2(k - 1);
      assert b / 2 < Pow2(k - 1);
      OrDisjoint(a, b / 2, k - 1);
      DivModOfMultiplePlus(a', 2, 0);
      OrStep(2 * a', b);
    }
  }

  /** `|` of two k-bit naturals is a k-bit natural. */
  lemma {:induction false} OrBelow(a: int, b: int, k: nat)
    requires 0 <= a < Pow2(k) && 0 <= b < Pow2(k)
    ensures 0 <= Or(a, b) < Pow2(k)
  {
    if k > 0 {
      OrStep(a, b);
      OrBelow(a / 2, b / 2, k - 1);
    }
  }

  lemma MulSign(a: int, p: int)
    requires 0 < p
    ensures a >= 1 ==> a * p >= p
    ensures a <= -1 ==> a * p <= -p
  {
  }

  /** Division by a positive divisor rounds down and keeps the sign. */
  lemma FloorDiv(a: int, p: int)
    requires 0 < p
    ensures (a / p) * p <= a < (a / p + 1) * p
    ensures (a / p < 0) == (a < 0)
  {
    var q := a / p;
    assert a == q * p + a % p;
    assert (q + 1) * p == q * p + p;
    MulSign(q, p);
    MulSign(q + 1, p);
  }

  /** Euclidean division of `q * p + r` with `r` in [0, p). */
  lemma DivModOfMultiplePlus(q: int, p: int, r: int)
    requires 0 < p && 0 <= r < p
    ensures (q * p + r) % p == r
    ensures (q * p + r) / p == q
  {
    var x := q * p + r;
    var d := x / p - q;
    assert x == p * (x / p) + x % p;
    assert p * (x / p) == d * p + q * p;
    assert d * p == r - x % p;
    MulSign(d, p);
  }

  lemma ModSucc(x: int, p: int)
    requires 0 < p
    ensures (x % p + 1) % p == (x + 1) % p
  {
    var q, r := x / p, x % p;
    assert x == q * p + r;
    if r + 1 < p {
      DivModOfMultiplePlus(0, p, r + 1);
      DivModOfMultiplePlus(q, p, r + 1);
    } else {
      DivModOfMultiplePlus(1, p, 0);
      assert x + 1 == (q + 1) * p + 0;
      DivModOfMultiplePlus(q + 1, p, 0);
    }
  }

  lemma ModPeriod(x: int, p: int)
    requires 0 < p
    ensures (x + p) % p == x % p
  {
    var q, r := x / p, x % p;
    assert x == q * p + r;
    assert x + p == (q + 1) * p + r;
    DivModOfMultiplePlus(q + 1, p, r);
  }

  lemma MulPow2Succ(x: int, k: nat)
    requires k > 0
    ensures x * Pow2(k) == 2 * (x * Pow2(k - 1))
  {
    var p := Pow2(k - 1);
    assert x * (2 * p) == 2 * (x * p);
  }

  /** Multiplying by a positive factor keeps a strict upper bound. */
  lemma MulBelow(x: int, bound: int, p: int)
    requires 0 <= x < bound && 0 < p
    ensures 0 <= x * p < bound * p
  {
  }
}
