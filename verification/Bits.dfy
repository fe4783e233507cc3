/** Bitwise operations and modular sums on natural numbers, for words of any width. */
module Bits {

  function Pow2(n: nat): (p: nat)
    ensures p >= 1
  {
    if n == 0 then 1 else 2 * Pow2(n - 1)
  }

  datatype Gate = AndGate | OrGate | XorGate

  function Out(g: Gate, x: nat, y: nat): (r: nat)
    requires x < 2 && y < 2
    ensures r < 2
  {
    match g
    case AndGate => if x == 1 && y == 1 then 1 else 0
    case OrGate => if x == 1 || y == 1 then 1 else 0
    case XorGate => if x != y then 1 else 0
  }

  /** The low `n` bits of `a` and `b`, gated bit by bit. */
  function Bitwise(g: Gate, a: nat, b: nat, n: nat): (r: nat)
    ensures r < Pow2(n)
    decreases n
  {
    if n == 0 then 0 else 2 * Bitwise(g, a / 2, b / 2, n - 1) + Out(g, a % 2, b % 2)
  }

  /** Truncating the result is gating fewer bits. */
  lemma {:induction false} LowBits(g: Gate, a: nat, b: nat, m: nat, n: nat)
    requires m <= n
    ensures Bitwise(g, a, b, n) % Pow2(m) == Bitwise(g, a, b, m)
    decreases m
  {
    if m > 0 {
      LowBits(g, a / 2, b / 2, m - 1, n - 1);
      HalfMod(Bitwise(g, a / 2, b / 2, n - 1), Out(g, a % 2, b % 2), Pow2(m - 1));
    }
  }

  /** Only the low bits of the arguments matter. */
  lemma {:induction false} LowArguments(g: Gate, a: nat, b: nat, n: nat)
    ensures Bitwise(g, a % Pow2(n), b % Pow2(n), n) == Bitwise(g, a, b, n)
    decreases n
  {
    if n > 0 {
      ModHalves(a, Pow2(n - 1));
      ModHalves(b, Pow2(n - 1));
      LowArguments(g, a / 2, b / 2, n - 1);
    }
  }

  /** A mask of `n` ones keeps the low `n` bits. */
  lemma {:induction false} AndOnes(a: nat, ones: nat, n: nat)
    requires ones + 1 == Pow2(n)
    ensures Bitwise(AndGate, a, ones, n) == a % Pow2(n)
    decreases n
  {
    if n > 0 {
      var p := Pow2(n - 1);
      OnesHalf(p);
      AndOnes(a / 2, p - 1, n - 1);
      HalfMod(a / 2, a % 2, p);
      LowestBit(a / 2 % p, a % 2);
    }
  }

  lemma LowestBit(h: nat, bit: nat)
    requires bit < 2
    ensures 2 * h + Out(AndGate, bit, 1) == 2 * h + bit
  {}

  lemma OnesHalf(p: nat)
    requires p >= 1
    ensures (2 * p - 1) / 2 == p - 1 && (2 * p - 1) % 2 == 1
  {}

  /** Where both arguments fit in `m` bits, wider gates change nothing. */
  lemma {:induction false} Narrow(g: Gate, a: nat, b: nat, m: nat, n: nat)
    requires m <= n && a < Pow2(m) && b < Pow2(m)
    ensures Bitwise(g, a, b, n) == Bitwise(g, a, b, m)
    decreases n
  {
    if m == 0 {
      Nothing(g, n);
    } else {
      Narrow(g, a / 2, b / 2, m - 1, n - 1);
    }
  }

  lemma {:induction false} Nothing(g: Gate, n: nat)
    ensures Bitwise(g, 0, 0, n) == 0
    decreases n
  {
    if n > 0 {
      Nothing(g, n - 1);
    }
  }

  lemma {:induction false} OrZero(a: nat, b: nat, n: nat)
    requires a < Pow2(n) && b < Pow2(n)
    ensures Bitwise(OrGate, a, b, n) < Pow2(n)
    ensures Bitwise(OrGate, a, b, n) == 0 <==> a == 0 && b == 0
    ensures Pow2(8) == 256
    decreases n
  {
    Pow2Of8();
    if n > 0 {
      OrZero(a / 2, b / 2, n - 1);
    }
  }

  lemma {:induction false} XorZero(a: nat, b: nat, n: nat)
    requires a < Pow2(n) && b < Pow2(n)
    ensures Bitwise(XorGate, a, b, n) < Pow2(n)
    ensures Bitwise(XorGate, a, b, n) == 0 <==> a == b
    ensures Pow2(8) == 256
    decreases n
  {
    Pow2Of8();
    if n > 0 {
      XorZero(a / 2, b / 2, n - 1);
    }
  }

  lemma Pow2Of8()
    ensures Pow2(8) == 256
  {
    assert Pow2(4) == 16;
  }

  /** A conjunction keeps no bit that one of its arguments lacks. */
  lemma {:induction false} NarrowAnd(a: nat, b: nat, m: nat, n: nat)
    requires m <= n && b < Pow2(m)
    ensures Bitwise(AndGate, a, b, n) == Bitwise(AndGate, a, b, m)
    decreases n
  {
    if m == 0 {
      NoBits(a, n);
    } else {
      NarrowAnd(a / 2, b / 2, m - 1, n - 1);
    }
  }

  lemma {:induction false} NoBits(a: nat, n: nat)
    ensures Bitwise(AndGate, a, 0, n) == 0
    decreases n
  {
    if n > 0 {
      NoBits(a / 2, n - 1);
    }
  }

  // ------------------------------------------------------------ arithmetic

  lemma HalfMod(h: nat, bit: nat, p: nat)
    requires bit < 2 && p >= 1
    ensures (2 * h + bit) % (2 * p) == 2 * (h % p) + bit
  {
    var q, r := h / p, h % p;
    assert 2 * h + bit == (2 * p) * q + (2 * r + bit) by { assert p * q + r == h; assert 2 * (p * q) == (2 * p) * q; }
    ModIs(2 * h + bit, 2 * p, q, 2 * r + bit);
  }

  lemma ModHalves(a: nat, p: nat)
    requires p >= 1
    ensures a % (2 * p) / 2 == a / 2 % p && a % (2 * p) % 2 == a % 2
  {
    HalfMod(a / 2, a % 2, p);
  }

  lemma ModIs(v: nat, m: nat, q: nat, r: nat)
    requires m >= 1 && v == m * q + r && r < m
    ensures v % m == r && v / m == q
  {
    var q', r' := v / m, v % m;
    assert m * (q - q') == m * q - m * q';
    if q > q' {
      Grows(m, q - q');
    } else if q < q' {
      assert m * (q' - q) == m * q' - m * q;
      Grows(m, q' - q);
    }
  }

  lemma Grows(m: nat, d: nat)
    requires d >= 1
    ensures m * d >= m
  {}

  /** Reducing a number that is a multiple away from another. */
  lemma ModAway(v: nat, w: nat, m: nat, k: int)
    requires m >= 1 && v == w + m * k
    ensures v % m == w % m
  {
    var q, r := w / m, w % m;
    assert v == m * (q + k) + r by { assert m * (q + k) == m * q + m * k; }
    assert q + k >= 0 by {
      if q + k < 0 {
        assert m * (q + k) == -(m * (-(q + k)));
        Grows(m, -(q + k));
      }
    }
    ModIs(v, m, q + k, r);
  }

  /** Reducing by a multiple of `m` first changes nothing modulo `m`. */
  lemma ModTwice(v: nat, m: nat, c: nat)
    requires m >= 1 && c >= 1
    ensures (v % (m * c)) % m == v % m
  {
    var n := m * c;
    Grows(m, c);
    var q := v / n;
    assert v == n * q + v % n;
    assert n * q == m * (c * q);
    ModAway(v, v % n, m, c * q);
  }

  lemma SumMod(a: nat, b: nat, m: nat)
    requires m >= 1
    ensures (a % m + b) % m == (a + b) % m
    ensures (a + b % m) % m == (a + b) % m
  {
    ModAway(a + b, a % m + b, m, a / m);
    ModAway(a + b, a + b % m, m, b / m);
  }
}
