/**
 * JavaScript number arithmetic the dashboard uses on ratios: exact real division stands in
 * for floating-point division, and `Math.round` rounds half-way values up.
 */
module Numbers {

  /** `Math.round(x)`: the nearest integer, halves going toward +infinity. */
  function Round(x: real): (r: int)
    ensures x - 0.5 < r as real <= x + 0.5
  {
    (x + 0.5).Floor
  }

  /** `Math.min(a, b)` on reals. */
  function MinReal(a: real, b: real): (r: real)
    ensures r <= a && r <= b && (r == a || r == b)
  {
    if a <= b then a else b
  }

  lemma {:induction false} MulMono(x: real, y: real, c: real)
    requires c > 0.0 && x > y
    ensures x * c > y * c
  {
  }

  lemma {:induction false} DivMul(a: real, c: real)
    requires c > 0.0
    ensures (a / c) * c == a
  {
  }

  /** Round is monotone. */
  lemma {:induction false} RoundMono(x: real, y: real)
    requires x <= y
    ensures Round(x) <= Round(y)
  {
  }

  /** Rounding an integer gives it back. */
  lemma {:induction false} RoundInt(n: int)
    ensures Round(n as real) == n
  {
  }

  /** A share a / total of a positive total exceeds 0.4 exactly when 5 a > 2 total. */
  lemma {:induction false} ShareAbove(a: int, total: int)
    requires total > 0
    ensures (a as real / total as real > 0.4) <==> 5 * a > 2 * total
  {
    var t := total as real;
    var q := a as real / t;
    DivMul(a as real, t);
    if q > 0.4 {
      MulMono(q, 0.4, t);
    } else if 5 * a > 2 * total {
      assert 5.0 * (a as real) > 2.0 * t;
      if q < 0.4 {
        MulMono(0.4, q, t);
      }
    }
  }

  /** a / total is at most 1 when a <= total, and not negative when a >= 0. */
  lemma {:induction false} ShareBounds(a: int, total: int)
    requires total > 0
    ensures a <= total ==> a as real / total as real <= 1.0
    ensures a >= 0 ==> a as real / total as real >= 0.0
  {
    var t := total as real;
    var q := a as real / t;
    DivMul(a as real, t);
    if q > 1.0 {
      MulMono(q, 1.0, t);
    }
    if q < 0.0 {
      MulMono(0.0, q, t);
    }
  }

  /** For a positive total, (a / total) * 100 exceeds 100 exactly when a exceeds total. */
  lemma {:induction false} PercentAbove(a: int, total: int)
    requires total > 0
    ensures (a as real / total as real) * 100.0 > 100.0 <==> a > total
  {
    var t := total as real;
    var q := a as real / t;
    DivMul(a as real, t);
    if q > 1.0 {
      MulMono(q, 1.0, t);
    } else if q < 1.0 {
      MulMono(1.0, q, t);
    }
  }
}
