/**
 * Facts about real multiplication and division that the conversion and costing
 * proofs use, stated over plain numbers so that each is proved on its own.
 */
module Aritmetica {

  lemma DivMul(v: real, d: real, p: real)
    requires d != 0.0
    ensures v / d * p == v * p / d
  {
  }

  lemma MulDivAssoc(c: real, v: real, p: real, d: real)
    requires d != 0.0
    ensures (c * v) * p / d == c * (v * p / d)
  {
    assert (c * v) * p == c * (v * p);
  }

  /** With w = c * v, w scaled by p / d is c times v scaled by p / d. */
  lemma Encadeia(x: real, y: real, c: real, v: real, w: real, p: real, d: real)
    requires d != 0.0 && w == c * v && x == w * p / d && y == v * p / d
    ensures x == c * y
  {
    MulDivAssoc(c, v, p, d);
  }

  lemma MulDivCancela(v: real, p: real, d: real)
    requires d != 0.0 && p != 0.0
    ensures (v * p / d) * d / p == v
  {
    assert v * p / d * d == v * p;
  }

  lemma MulDivMonotono(v1: real, v2: real, p: real, d: real)
    requires p > 0.0 && d > 0.0
    ensures v1 <= v2 ==> v1 * p / d <= v2 * p / d
    ensures v1 < v2 ==> v1 * p / d < v2 * p / d
    ensures 0.0 <= v1 ==> 0.0 <= v1 * p / d
  {
    if v1 <= v2 {
      assert v1 * p <= v2 * p;
    }
    if v1 < v2 {
      assert v1 * p < v2 * p;
    }
    if 0.0 <= v1 {
      assert 0.0 <= v1 * p;
    }
  }

  /** A factor that is at least 1 and another no larger give products in the same order. */
  lemma MultiplicaMonotono(a: real, b: real, u: real)
    requires a <= b && u >= 0.0
    ensures a * u <= b * u
    ensures u > 0.0 && a < b ==> a * u < b * u
  {
  }

  lemma Comuta(a: real, c: real)
    ensures a * c == c * (a * 1.0)
  {
  }

  /** A non-negative u times ordered factors keeps their order, strictly when u > 0 and a < b. */
  lemma MultiplicaMonotono2(u: real, a: real, b: real)
    requires a <= b && u >= 0.0
    ensures u * a <= u * b
    ensures u > 0.0 && a < b ==> u * a < u * b
  {
  }

  lemma ProdutoNaoNegativo(a: real, b: real, c: real)
    requires a >= 0.0 && b >= 0.0 && c >= 0.0
    ensures a * b * c >= 0.0
  {
    assert a * b >= 0.0;
  }

  /** A whole number no larger than floor(s / q), times q, fits in s. */
  lemma PisoVezesDivisor(n: int, s: real, q: real)
    requires q > 0.0 && n <= (s / q).Floor
    ensures n as real * q <= s && q * n as real <= s
  {
    assert n as real <= s / q;
    assert n as real * q <= (s / q) * q;
  }

  /** One more than floor(s / q), times q, exceeds s. */
  lemma PisoMaisUm(s: real, q: real, k: int)
    requires q > 0.0 && k == (s / q).Floor + 1
    ensures q * k as real > s
  {
    var x := s / q;
    assert x < k as real;
    assert x * q == s;
    MultiplicaEstrito(x, k as real, q);
  }

  lemma MultiplicaEstrito(a: real, b: real, u: real)
    requires a < b && u > 0.0
    ensures a * u < b * u
  {
  }

  /** A total between n times two bounds, divided by n, lies between the bounds. */
  lemma QuocienteEntre(t: real, n: real, lo: real, hi: real)
    requires n > 0.0 && n * lo <= t <= n * hi
    ensures lo <= t / n <= hi
  {
    var m := t / n;
    assert m * n == t;
    if m < lo {
      MultiplicaEstrito(m, lo, n);
    }
    if hi < m {
      MultiplicaEstrito(hi, m, n);
    }
  }
}
