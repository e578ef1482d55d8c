/** Bitwise operations on unsigned integers, and when they are plain arithmetic. */
module Bits {

  function Pow2(k: nat): (p: nat)
    ensures p > 0
  {
    if k == 0 then 1 else 2 * Pow2(k - 1)
  }

  function Or(a: nat, b: nat): nat {
    if a == 0 && b == 0 then 0
    else 2 * Or(a / 2, b / 2) + if a % 2 == 1 || b % 2 == 1 then 1 else 0
  }

  function And(a: nat, b: nat): nat {
    if a == 0 || b == 0 then 0
    else 2 * And(a / 2, b / 2) + if a % 2 == 1 && b % 2 == 1 then 1 else 0
  }

  lemma OrZero(a: nat)
    ensures Or(a, 0) == a && Or(0, a) == a
  {
  }

  /** `a` shifted left by k bits. */
  function Shl(a: nat, k: nat): nat {
    if k == 0 then a else 2 * Shl(a, k - 1)
  }

  lemma {:induction false} ShlMultiplies(a: nat, k: nat)
    ensures Shl(a, k) == a * Pow2(k)
  {
    if k > 0 {
      ShlMultiplies(a, k - 1);
      assert a * (2 * Pow2(k - 1)) == 2 * (a * Pow2(k - 1));
    }
  }

  /** OR works on the high and the low k bits separately. */
  lemma {:induction false} OrSplits(a: nat, x: nat, b: nat, y: nat, k: nat)
    requires x < Pow2(k) && y < Pow2(k)
    ensures Or(Shl(a, k) + x, Shl(b, k) + y) == Shl(Or(a, b), k) + Or(x, y)
  {
    if k == 0 {
      assert Pow2(k) == 1;
    } else {
      var hi := Shl(Or(a, b), k - 1);
      var u, v := Shl(a, k - 1), Shl(b, k - 1);
      OrSplits(a, x / 2, b, y / 2, k - 1);
      assert Or(u + x / 2, v + y / 2) == hi + Or(x / 2, y / 2);
      OrDoubled(u, x, v, y, hi);
    }
  }

  lemma OrDoubled(u: nat, x: nat, v: nat, y: nat, high: nat)
    requires Or(u + x / 2, v + y / 2) == high + Or(x / 2, y / 2)
    ensures Or(2 * u + x, 2 * v + y) == 2 * high + Or(x, y)
  {
    assert (2 * u + x) / 2 == u + x / 2;
    assert (2 * v + y) / 2 == v + y / 2;
    OrStep(2 * u + x, 2 * v + y, x, y, high);
  }

  lemma OrStep(a: nat, b: nat, x: nat, y: nat, high: nat)
    requires a % 2 == x % 2 && b % 2 == y % 2
    requires Or(a / 2, b / 2) == high + Or(x / 2, y / 2)
    ensures Or(a, b) == 2 * high + Or(x, y)
  {
    OrHalves(a, b);
    OrHalves(x, y);
  }

  lemma OrHalves(a: nat, b: nat)
    ensures Or(a, b) == 2 * Or(a / 2, b / 2) + if a % 2 == 1 || b % 2 == 1 then 1 else 0
  {
  }

  /** OR of a number shifted left by k and a k-bit number is their sum. */
  lemma OrDisjoint(a: nat, b: nat, k: nat)
    requires b < Pow2(k)
    ensures Or(a * Pow2(k), b) == a * Pow2(k) + b
  {
    OrSplits(a, 0, 0, b, k);
    ShlMultiplies(a, k);
    ShlMultiplies(0, k);
    OrZero(a);
    OrZero(b);
  }

  /** AND with k ones keeps the low k bits. */
  lemma {:induction false} AndMask(a: nat, k: nat)
    ensures And(a, Pow2(k) - 1) == a % Pow2(k)
  {
    if k == 0 {
    } else {
      AndMask(a / 2, k - 1);
      LowBits(a, Pow2(k - 1));
    }
  }

  lemma LowBits(a: nat, p: nat)
    requires p > 0
    ensures a % (2 * p) == 2 * ((a / 2) % p) + a % 2
  {
    var q, r := (a / 2) / p, (a / 2) % p;
    assert a / 2 == q * p + r;
    var low := 2 * r + a % 2;
    assert a == q * (2 * p) + low;
    ModIs(a, 2 * p, q, low);
  }

  lemma ModIs(a: nat, m: int, q: nat, r: nat)
    requires m > 0 && r < m && a == q * m + r
    ensures a % m == r && a / m == q
  {
    var d := a / m - q;
    assert m * d == r - a % m;
    assert d > 0 ==> m * d >= m;
    assert d < 0 ==> m * d <= -m;
  }

  /** Dividing by 256 * p in two steps, in either order. */
  lemma DivTwice(x: nat, p: int)
    requires p > 0
    ensures x / (256 * p) == (x / 256) / p
    ensures x / (256 * p) == (x / p) / 256
  {
    var q, t := (x / 256) / p, (x / 256) % p;
    assert x == 256 * (p * q + t) + x % 256;
    ScaledIs(x, p, q, 256 * t + x % 256);
    var q', t' := (x / p) / 256, (x / p) % 256;
    MulMono(p, t', 255);
    assert x == p * (x / p) + x % p;
    assert p * (256 * q' + t') == 256 * (p * q') + p * t';
    ScaledIs(x, p, q', p * t' + x % p);
  }

  lemma ScaledIs(x: nat, p: int, q: nat, r: nat)
    requires p > 0 && r < 256 * p && x == 256 * (p * q) + r
    ensures x / (256 * p) == q
  {
    assert q * (256 * p) == 256 * (p * q);
    ModIs(x, 256 * p, q, r);
  }

  lemma MulMono(p: int, t: nat, u: nat)
    requires p > 0 && t <= u
    ensures 0 <= p * t <= p * u
  {
  }

  /** Powers of 256, for whole bytes. */
  function Pow256(k: nat): (p: nat)
    ensures p > 0
  {
    if k == 0 then 1 else 256 * Pow256(k - 1)
  }

  lemma {:induction false} Pow256IsPow2(k: nat)
    ensures Pow256(k) == Pow2(8 * k)
  {
    if k > 0 {
      Pow256IsPow2(k - 1);
      Pow2Times256(8 * (k - 1));
    }
  }

  lemma Pow2Times256(k: nat)
    ensures Pow2(k + 8) == 256 * Pow2(k)
  {
    assert Pow2(k + 2) == 2 * Pow2(k + 1);
    assert Pow2(k + 4) == 2 * Pow2(k + 3);
    assert Pow2(k + 6) == 2 * Pow2(k + 5);
  }

  lemma Pow256Is64Bits()
    ensures Pow256(8) == 0x1_0000_0000_0000_0000
  {
  }
}
