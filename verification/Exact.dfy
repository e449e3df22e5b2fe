/** Exact integer facts about floors and ceilings of quotients. Every proof about
    products or quotients of variables goes through this module. */
module Exact {

  function CeilDiv(a: nat, b: nat): nat
    requires b > 0
  {
    (a + b - 1) / b
  }

  lemma MulMono(a: int, x: int, b: int)
    requires a <= x && 0 <= b
    ensures a * b <= x * b
  {
  }

  lemma MulBound(a: int, x: int, b: int, y: int)
    requires 0 <= a <= x && 0 <= b <= y
    ensures 0 <= a * b <= x * y
  {
    MulMono(a, x, b);
    MulMono(b, y, x);
    MulMono(0, a, b);
  }

  /** q is the floor of a / b exactly when it is squeezed by b. */
  lemma FloorIs(a: int, b: int, q: int)
    requires b > 0 && q * b <= a < q * b + b
    ensures a / b == q
  {
    var d := a / b;
    assert a == d * b + a % b;
    assert (d + 1) * b == d * b + b && (q + 1) * b == q * b + b;
    if d < q {
      MulMono(d + 1, q, b);
    } else if d > q {
      MulMono(q + 1, d, b);
    }
  }

  lemma FloorBounds(a: int, b: int)
    requires b > 0
    ensures a / b * b <= a < a / b * b + b
  {
    assert a == b * (a / b) + a % b;
  }

  lemma CeilIs(a: nat, b: nat, q: nat)
    requires b > 0 && q * b - b < a <= q * b
    ensures CeilDiv(a, b) == q
  {
    FloorIs(a + b - 1, b, q);
  }

  lemma CeilBounds(a: nat, b: nat)
    requires b > 0
    ensures CeilDiv(a, b) * b - b < a <= CeilDiv(a, b) * b
  {
    FloorBounds(a + b - 1, b);
  }

  /** The defining property of the ceiling: it is the least bound. */
  lemma CeilLeast(a: nat, b: nat, q: nat)
    requires b > 0
    ensures CeilDiv(a, b) <= q <==> a <= q * b
  {
    CeilBounds(a, b);
    var c := CeilDiv(a, b);
    if c <= q {
      MulMono(c, q, b);
    } else {
      MulMono(q, c - 1, b);
      assert (c - 1) * b == c * b - b;
    }
  }

  /** The defining property of the floor: it is the greatest bound. */
  lemma FloorGreatest(a: nat, b: nat, q: nat)
    requires b > 0
    ensures q <= a / b <==> q * b <= a
  {
    FloorBounds(a, b);
    var f := a / b;
    if q <= f {
      MulMono(q, f, b);
    } else {
      MulMono(f + 1, q, b);
      assert (f + 1) * b == f * b + b;
    }
  }

  lemma FloorMono(a: nat, x: nat, b: nat)
    requires b > 0 && a <= x
    ensures a / b <= x / b
  {
    FloorBounds(a, b);
    FloorGreatest(x, b, a / b);
  }

  lemma CeilMono(a: nat, x: nat, b: nat)
    requires b > 0 && a <= x
    ensures CeilDiv(a, b) <= CeilDiv(x, b)
  {
    FloorMono(a + b - 1, x + b - 1, b);
  }

  lemma FloorBelowCeil(a: nat, b: nat)
    requires b > 0
    ensures a / b <= CeilDiv(a, b) <= a / b + 1
    ensures CeilDiv(a, b) == a / b + (if a % b != 0 then 1 else 0)
  {
    var f := a / b;
    assert a == b * f + a % b;
    assert f * b == b * f;
    if a % b == 0 {
      CeilIs(a, b, f);
    } else {
      assert (f + 1) * b == f * b + b;
      CeilIs(a, b, f + 1);
    }
  }

  /** Taking a part away from a rounded-up whole releases at least the part rounded down. */
  lemma CeilReleasesFloor(part: nat, rest: nat, b: nat)
    requires b > 0
    ensures CeilDiv(part + rest, b) >= CeilDiv(rest, b) + part / b
  {
    var c, f := CeilDiv(part + rest, b), part / b;
    CeilBounds(part + rest, b);
    FloorBounds(part, b);
    assert (c - f) * b == c * b - f * b && (f - 1) * b == f * b - b;
    if c >= f {
      CeilLeast(rest, b, c - f);
    } else {
      MulMono(c, f - 1, b);
    }
  }

  /** A whole multiple added below the line is added above it. */
  lemma FloorAddMultiple(a: int, x: int, b: int)
    requires b > 0
    ensures (a * b + x) / b == a + x / b
    ensures (a * b + x) % b == x % b
  {
    FloorBounds(x, b);
    assert (a + x / b) * b == a * b + x / b * b;
    FloorIs(a * b + x, b, a + x / b);
    assert a * b + x == b * ((a * b + x) / b) + (a * b + x) % b;
    assert x == b * (x / b) + x % b;
    assert b * (a + x / b) == b * a + b * (x / b);
  }

  lemma FloorOfMultiple(a: nat, b: nat)
    requires b > 0
    ensures (a * b) / b == a && (a * b) % b == 0 && CeilDiv(a * b, b) == a
  {
    FloorAddMultiple(a, 0, b);
    FloorAddMultiple(a, b - 1, b);
  }

  /** A positive multiple of b is at least b. */
  lemma MultipleAtLeast(a: nat, b: nat)
    requires b > 0 && a > 0 && a % b == 0
    ensures a >= b && a == a / b * b && a / b >= 1
  {
    assert a == b * (a / b) + a % b;
    FloorGreatest(a, b, 1);
    var k := a / b;
    if k <= 0 {
      MulMono(k, 0, b);
    }
  }

  lemma MultipleOf(a: int, k: int, b: int)
    requires b > 0 && a == k * b
    ensures a % b == 0 && a / b == k
  {
    FloorAddMultiple(k, 0, b);
  }

  lemma MultiplesSubtract(a: nat, c: nat, b: nat)
    requires b > 0 && a % b == 0 && c % b == 0 && c <= a
    ensures (a - c) % b == 0
  {
    assert a == b * (a / b) && c == b * (c / b);
    assert a - c == (a / b - c / b) * b;
    MultipleOf(a - c, a / b - c / b, b);
  }

  function Pow2(n: nat): (p: nat)
    ensures p >= 1
  {
    if n == 0 then 1 else 2 * Pow2(n - 1)
  }

  lemma {:induction false} Pow2Mono(n: nat, k: nat)
    requires n <= k
    ensures Pow2(n) <= Pow2(k)
    decreases k - n
  {
    if n < k {
      Pow2Mono(n, k - 1);
    }
  }

  lemma {:induction false} Pow2Add(n: nat, k: nat)
    ensures Pow2(n + k) == Pow2(n) * Pow2(k)
  {
    if k == 0 {
    } else {
      Pow2Add(n, k - 1);
      assert n + k - 1 == n + (k - 1);
      assert Pow2(n) * (2 * Pow2(k - 1)) == 2 * (Pow2(n) * Pow2(k - 1));
    }
  }

  lemma Pow2Square(n: nat, value: nat)
    requires Pow2(n) == value
    ensures Pow2(n + n) == value * value
  {
    Pow2Add(n, n);
  }

  lemma CancelFactor(a: int, x: int, b: int)
    requires b > 0 && a * b <= x * b
    ensures a <= x
  {
    assert (x + 1) * b == x * b + b;
    if a > x {
      MulMono(x + 1, a, b);
    }
  }

  lemma CancelStrict(a: int, x: int, b: int)
    requires b > 0 && a * b < x * b
    ensures a < x
  {
    if a >= x {
      MulMono(x, a, b);
    }
  }
}
