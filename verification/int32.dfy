/** The 32-bit integer semantics of JavaScript's `<<` and `|` on integer
    operands (ECMAScript ToInt32/ToUint32), written out on unbounded integers. */
module Int32 {

  function Pow2(k: nat): (p: nat)
    ensures p >= 1
  {
    if k == 0 then 1 else 2 * Pow2(k - 1)
  }

  const Two32: nat := 0x1_0000_0000
  const Two31: nat := 0x8000_0000

  /** ToUint32 of an integer: its residue modulo 2^32. */
  function ToUint32(x: int): (u: nat)
    ensures u < Two32
  {
    x % Two32
  }

  /** ToInt32 of an integer: the residue modulo 2^32 read as two's complement. */
  function ToInt32(x: int): (v: int)
    ensures -(Two31 as int) <= v < Two31
  {
    var u := ToUint32(x);
    if u >= Two31 then u - Two32 else u
  }

  /** ToInt32 keeps the residue modulo 2^32. */
  lemma ToInt32Residue(x: int)
    ensures (x - ToInt32(x)) % Two32 == 0
  {
    var q := x / Two32;
    assert x == q * Two32 + ToUint32(x);
    if ToUint32(x) >= Two31 {
      assert x - ToInt32(x) == (q + 1) * Two32;
    } else {
      assert x - ToInt32(x) == q * Two32;
    }
  }

  /** Bitwise or of two naturals, bit by bit from the least significant end. */
  function BitOr(a: nat, b: nat): nat
    decreases a + b
  {
    if a == 0 then b
    else if b == 0 then a
    else 2 * BitOr(a / 2, b / 2) + (if a % 2 == 1 || b % 2 == 1 then 1 else 0)
  }

  /** `a << n` for 0 <= n < 32 on integer `a`: ToInt32(a) shifted left one
      bit at a time, each step kept to 32 bits. */
  function Shl(a: int, n: nat): (v: int)
    requires n < 32
    ensures -(Two31 as int) <= v < Two31
  {
    if n == 0 then ToInt32(a) else ToInt32(2 * Shl(a, n - 1))
  }

  /** ToInt32 depends only on the residue modulo 2^32. */
  lemma ToInt32Congruent(x: int, y: int)
    requires (x - y) % Two32 == 0
    ensures ToInt32(x) == ToInt32(y)
  {
    assert x % Two32 == y % Two32;
  }

  lemma DoubleCongruent(x: int, y: int)
    requires (x - y) % Two32 == 0
    ensures (2 * x - 2 * y) % Two32 == 0
  {
    var k := (x - y) / Two32;
    assert x - y == k * Two32;
    assert 2 * x - 2 * y == (2 * k) * Two32;
  }

  /** The step-by-step shift agrees with the one-step reading of the ECMAScript
      rule: ToInt32 of ToInt32(a) times 2^n. */
  lemma {:induction false} ShlIsScaledToInt32(a: int, n: nat)
    requires n < 32
    ensures Shl(a, n) == ToInt32(ToInt32(a) * Pow2(n))
  {
    if n == 0 {
      ToInt32Residue(a);
      ToInt32Congruent(ToInt32(a), a);
      assert ToInt32(a) * Pow2(0) == ToInt32(a);
    } else {
      ShlIsScaledToInt32(a, n - 1);
      assert Pow2(n) == 2 * Pow2(n - 1);
      DoubledStaysCongruent(ToInt32(a), Pow2(n - 1), Shl(a, n - 1));
    }
  }

  lemma DoubledStaysCongruent(c: int, p: int, s: int)
    requires s == ToInt32(c * p)
    ensures ToInt32(2 * s) == ToInt32(c * (2 * p))
  {
    var t := c * p;
    ToInt32Residue(t);
    assert c * (2 * p) == 2 * t;
    DoubleCongruent(t, s);
    ToInt32Congruent(2 * t, 2 * s);
  }

  /** `a | b` on integers. */
  function Or(a: int, b: int): (v: int)
    ensures -(Two31 as int) <= v < Two31
  {
    ToInt32(BitOr(ToUint32(a), ToUint32(b)))
  }

  /** Or-ing a value whose low k bits are clear with one below 2^k is addition. */
  lemma {:induction false} BitOrDisjoint(a: nat, c: nat, k: nat)
    requires c < Pow2(k)
    ensures BitOr(a * Pow2(k), c) == a * Pow2(k) + c
  {
    if k == 0 {
      assert c == 0;
    } else if a == 0 || c == 0 {
    } else {
      var x := a * Pow2(k);
      assert x == 2 * (a * Pow2(k - 1));
      assert x / 2 == a * Pow2(k - 1) && x % 2 == 0;
      assert c / 2 < Pow2(k - 1);
      BitOrDisjoint(a, c / 2, k - 1);
      assert BitOr(x, c) == 2 * BitOr(x / 2, c / 2) + c % 2;
    }
  }

  /** Values already in the 32-bit signed range are left alone by ToInt32. */
  lemma ToInt32Small(x: int)
    requires 0 <= x < Two31
    ensures ToInt32(x) == x && ToUint32(x) == x
  {
  }

  /** `a << n` is multiplication by 2^n while the product stays in range. */
  lemma {:induction false} ShlSmall(a: int, n: nat)
    requires n < 32 && 0 <= a && a * Pow2(n) < Two31
    ensures Shl(a, n) == a * Pow2(n)
  {
    if n == 0 {
      ToInt32Small(a);
    } else {
      var p := Pow2(n - 1);
      assert a * Pow2(n) == 2 * (a * p);
      ShlSmall(a, n - 1);
      ToInt32Small(2 * (a * p));
    }
  }

  /** ToInt32 leaves every value of the 32-bit signed range alone, negative
      ones included. */
  lemma ToInt32InRange(x: int)
    requires -(Two31 as int) <= x < Two31
    ensures ToInt32(x) == x
  {
    if x < 0 {
      assert ToUint32(x) == x + Two32;
    }
  }

  /** `a << n` is multiplication by 2^n for negative `a` too, while the product
      stays within the 32-bit signed range. */
  lemma ShlSmallSigned(a: int, n: nat)
    requires n < 32 && -(Two31 as int) <= a * Pow2(n) < Two31
    ensures Shl(a, n) == a * Pow2(n)
  {
    FactorWithinProduct(a, Pow2(n));
    ShlIsScaledToInt32(a, n);
    ToInt32InRange(a);
    ToInt32InRange(a * Pow2(n));
  }

  lemma FactorWithinProduct(a: int, p: int)
    requires 1 <= p
    ensures a < 0 ==> a * p <= a
    ensures 0 <= a ==> a <= a * p
  {
    if a < 0 {
      assert a * p == a + a * (p - 1);
      assert a * (p - 1) <= 0;
    } else {
      assert a * p == a + a * (p - 1);
      assert a * (p - 1) >= 0;
    }
  }

  /** `(a << k) | c` with c below 2^k is addition while the sum stays in range. */
  lemma OrDisjoint(a: nat, c: nat, k: nat)
    requires c < Pow2(k) && a * Pow2(k) + c < Two31
    ensures Or(a * Pow2(k), c) == a * Pow2(k) + c
  {
    var x := a * Pow2(k);
    ToInt32Small(x);
    ToInt32Small(c);
    BitOrDisjoint(a, c, k);
    ToInt32Small(x + c);
  }
}
