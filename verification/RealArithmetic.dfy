/** Products and quotients of reals, one small fact at a time. */
module RealArithmetic {
  type Pos = n: int | 1 <= n witness 1

  function Abs(x: real): real { if x < 0.0 then -x else x }
  function Max(a: real, b: real): real { if a < b then b else a }
  function Min(a: real, b: real): real { if b < a then b else a }

  function Times(a: real, b: real): real { a * b }

  lemma SignOfProduct(a: real, b: real)
    ensures a >= 0.0 && b >= 0.0 ==> a * b >= 0.0
    ensures a > 0.0 && b > 0.0 ==> a * b > 0.0
    ensures a > 0.0 && b < 0.0 ==> a * b < 0.0
    ensures a < 0.0 && b > 0.0 ==> a * b < 0.0
    ensures a <= 0.0 && b <= 0.0 ==> a * b >= 0.0
  {
  }

  lemma TimesAdds(a: real, x: real, y: real)
    ensures Times(a, x + y) == Times(a, x) + Times(a, y)
    ensures Times(x + y, a) == Times(x, a) + Times(y, a)
    ensures Times(a, 0.0) == Times(0.0, a) == 0.0
  {
  }

  lemma TimesMonotone(a: real, u: real, v: real)
    requires (a >= 0.0 && u <= v) || u == v
    ensures Times(a, u) <= Times(a, v)
  {
    SignOfProduct(a, v - u);
    assert a * (v - u) == a * v - a * u;
  }

  lemma SquareNonNegative(a: real)
    ensures a * a >= 0.0
  {
    SignOfProduct(a, a);
  }

  lemma TimesOneMore(m: real, d: int)
    ensures m * (d + 1) as real == m * d as real + m
    ensures Times((d + 1) as real, m) == Times(d as real, m) + m
  {
    assert (d + 1) as real == d as real + 1.0;
  }

  lemma {:induction false} RealProduct(a: int, n: nat)
    ensures (a * n) as real == a as real * n as real
  {
    if n > 0 {
      RealProduct(a, n - 1);
      TimesOneMore(a as real, n - 1);
      assert a * n == a * (n - 1) + a;
    }
  }

  lemma QuotientBack(x: real, y: real)
    requires y > 0.0
    ensures x / y * y == x
  {
  }

  /** A quotient by a positive number has the sign of its numerator. */
  lemma QuotientSign(x: real, y: real)
    requires y > 0.0
    ensures x > 0.0 ==> x / y > 0.0
    ensures x < 0.0 ==> x / y < 0.0
    ensures x == 0.0 ==> x / y == 0.0
  {
    QuotientBack(x, y);
    SignOfProduct(x / y, y);
  }

  lemma QuotientDifference(x: real, y: real, z: real)
    requires z > 0.0
    ensures (x + y) / z == x / z + y / z
    ensures (x - y) / z == x / z - y / z
  {
  }

  lemma Cancel(a: real, b: real, y: real)
    requires y > 0.0 && a * y == b * y
    ensures a == b
  {
    SignOfProduct(a - b, y);
    assert (a - b) * y == a * y - b * y;
  }

  /** A product is zero only with a zero factor. */
  lemma ZeroProduct(a: real, b: real)
    requires a * b == 0.0
    ensures a == 0.0 || b == 0.0
  {
    if b != 0.0 {
      assert a * b / b == a;
    }
  }
}
