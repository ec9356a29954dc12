/**
  Complex numbers over exact reals, standing in for Python's `complex` and
  numpy's `complex128`. Only the operations the solvers use are defined; the
  modulus (`abs`) is not computable over the reals without a square root, so
  the solvers that need it take it as a parameter constrained by `IsModulus`.

  Squares are written `Sq(x)` rather than `x * x`: the lemmas below state
  their sign once, and the rest of the model reasons about `Sq` terms.
*/
module ComplexNumbers {

  datatype Complex = Complex(re: real, im: real)

  const Zero := Complex(0.0, 0.0)
  const One := Complex(1.0, 0.0)

  function Add(a: Complex, b: Complex): Complex {
    Complex(a.re + b.re, a.im + b.im)
  }

  function Sub(a: Complex, b: Complex): Complex {
    Complex(a.re - b.re, a.im - b.im)
  }

  function Mul(a: Complex, b: Complex): Complex {
    Complex(a.re * b.re - a.im * b.im, a.re * b.im + a.im * b.re)
  }

  function Conj(a: Complex): Complex {
    Complex(a.re, -a.im)
  }

  /** A real number times a complex one (Python's `float * complex`). */
  function Scale(c: real, a: Complex): Complex {
    Complex(c * a.re, c * a.im)
  }

  function Sq(x: real): real {
    x * x
  }

  /** The squared modulus `re^2 + im^2`. */
  function NormSq(a: Complex): real {
    Sq(a.re) + Sq(a.im)
  }

  /** Complex division; Python raises ZeroDivisionError when `b` is zero. */
  function Div(a: Complex, b: Complex): (q: Complex)
    requires b != Zero
    ensures Mul(q, b) == a
  {
    NormSqPositive(b);
    var n := NormSq(b);
    var q := Complex((a.re * b.re + a.im * b.im) / n, (a.im * b.re - a.re * b.im) / n);
    DivMul(a, b, n, q);
    q
  }

  /** A complex number divided by a real one (Python's `complex / float`). */
  function DivReal(a: Complex, d: real): (q: Complex)
    requires d != 0.0
    ensures Scale(d, q) == a
  {
    var q := Complex(a.re / d, a.im / d);
    QuotientTimesDivisor(a.re, d, q.re);
    QuotientTimesDivisor(a.im, d, q.im);
    q
  }

  /** `abs` is the complex modulus: non-negative, and its square is `NormSq`. */
  ghost predicate IsModulus(abs: Complex -> real) {
    forall z :: 0.0 <= abs(z) && Sq(abs(z)) == NormSq(z)
  }

  /** `row[0]*v[0] + ... + row[upto-1]*v[upto-1]`, numpy's `np.dot` of a row with a vector. */
  function Dot(row: seq<Complex>, v: seq<Complex>, upto: nat): Complex
    requires upto <= |row| && upto <= |v|
  {
    if upto == 0 then Zero else Add(Dot(row, v, upto - 1), Mul(row[upto - 1], v[upto - 1]))
  }

  lemma ProductPositive(x: real, y: real, s: real)
    requires x > 0.0 && y > 0.0 && s == x * y
    ensures s > 0.0
  {}

  lemma ProductOfNegatives(x: real, y: real, s: real)
    requires x < 0.0 && y < 0.0 && s == x * y
    ensures s > 0.0
  {}

  lemma ProductNonnegative(x: real, y: real, s: real)
    requires x >= 0.0 && y >= 0.0 && s == x * y
    ensures s >= 0.0
  {}

  /** A square is never negative, and it is zero only for zero. */
  lemma SqSign(x: real)
    ensures Sq(x) >= 0.0
    ensures x != 0.0 ==> Sq(x) > 0.0
  {
    if x > 0.0 {
      ProductPositive(x, x, Sq(x));
    } else if x < 0.0 {
      ProductOfNegatives(x, x, Sq(x));
    }
  }

  /** The squared modulus is non-negative and vanishes exactly at zero. */
  lemma NormSqPositive(b: Complex)
    ensures NormSq(b) >= 0.0
    ensures NormSq(b) == 0.0 <==> b == Zero
  {
    SqSign(b.re);
    SqSign(b.im);
  }

  lemma QuotientTimesDivisor(x: real, d: real, q: real)
    requires d != 0.0 && q == x / d
    ensures d * q == x && q * d == x
  {}

  /** A factor that is not zero can be cancelled from both sides of an equation. */
  lemma CancelFactor(m: real, t: real, n: real)
    requires n != 0.0 && m * n == t * n
    ensures m == t
  {
    assert (m - t) * n == 0.0;
  }

  /** Dividing by `b` and multiplying back by `b` gives the dividend again. */
  lemma DivMul(a: Complex, b: Complex, n: real, q: Complex)
    requires n == NormSq(b) && n != 0.0
    requires q == Complex((a.re * b.re + a.im * b.im) / n, (a.im * b.re - a.re * b.im) / n)
    ensures Mul(q, b) == a
  {
    var x := a.re * b.re + a.im * b.im;
    var y := a.im * b.re - a.re * b.im;
    QuotientTimesDivisor(x, n, q.re);
    QuotientTimesDivisor(y, n, q.im);
    var m := Mul(q, b);
    assert m.re * n == (q.re * n) * b.re - (q.im * n) * b.im;
    assert m.im * n == (q.re * n) * b.im + (q.im * n) * b.re;
    assert x * b.re - y * b.im == a.re * n;
    assert x * b.im + y * b.re == a.im * n;
    CancelFactor(m.re, a.re, n);
    CancelFactor(m.im, a.im, n);
  }

  lemma NegatedQuotient(x: real, n: real)
    requires n != 0.0
    ensures (-x) / n == -1.0 * (x / n)
  {}

  /** Negating the dividend negates the quotient. */
  lemma DivNegated(a: Complex, b: Complex)
    requires b != Zero
    ensures Div(Scale(-1.0, a), b) == Scale(-1.0, Div(a, b))
  {
    NormSqPositive(b);
    var n := NormSq(b);
    var x := a.re * b.re + a.im * b.im;
    var y := a.im * b.re - a.re * b.im;
    assert Div(a, b) == Complex(x / n, y / n);
    assert Div(Scale(-1.0, a), b) == Complex((-x) / n, (-y) / n) by {
      var na := Scale(-1.0, a);
      assert na.re * b.re + na.im * b.im == -x;
      assert na.im * b.re - na.re * b.im == -y;
    }
    NegatedQuotient(x, n);
    NegatedQuotient(y, n);
  }

  /** Negation keeps the squared modulus. */
  lemma NormSqNegated(a: Complex)
    ensures NormSq(Scale(-1.0, a)) == NormSq(a)
  {}

  /** Squaring is strictly increasing on the non-negative reals. */
  lemma SqMonotone(x: real, y: real)
    requires 0.0 <= x < y
    ensures Sq(x) < Sq(y)
  {
    ProductNonnegative(x, y - x, x * (y - x));
    ProductPositive(y, y - x, y * (y - x));
    assert x * (y - x) == x * y - Sq(x);
    assert y * (y - x) == Sq(y) - x * y;
  }

  /** Two non-negative reals with equal squares are equal. */
  lemma SqrtUnique(x: real, y: real)
    requires 0.0 <= x && 0.0 <= y && Sq(x) == Sq(y)
    ensures x == y
  {
    if x < y {
      SqMonotone(x, y);
    } else if y < x {
      SqMonotone(y, x);
    }
  }

  lemma SqOfProduct(x: real, y: real)
    ensures Sq(x * y) == Sq(x) * Sq(y)
  {}

  /** Rescaling `u` to `c * (u / a)`, where `a` is the modulus of `u`, gives squared modulus `c^2`. */
  lemma NormSqOfRescaled(c: real, a: real, u: Complex)
    requires a != 0.0 && Sq(a) == NormSq(u)
    ensures NormSq(Scale(c, DivReal(u, a))) == Sq(c)
  {
    var d := DivReal(u, a);
    var z := Scale(c, d);
    assert z.re * a == c * u.re by { assert a * d.re == u.re; }
    assert z.im * a == c * u.im by { assert a * d.im == u.im; }
    SqOfProduct(z.re, a);
    SqOfProduct(z.im, a);
    SqOfProduct(c, u.re);
    SqOfProduct(c, u.im);
    assert NormSq(z) * Sq(a) == Sq(c) * Sq(a);
    SqSign(a);
    CancelFactor(NormSq(z), Sq(c), Sq(a));
  }

  /** `abs(c * (u / abs(u))) == c` for `c >= 0`: normalising keeps only the angle of `u`. */
  lemma ModulusOfRescaled(abs: Complex -> real, c: real, u: Complex)
    requires IsModulus(abs)
    requires 0.0 <= c && abs(u) != 0.0
    ensures abs(Scale(c, DivReal(u, abs(u)))) == c
  {
    NormSqOfRescaled(c, abs(u), u);
    SqrtUnique(abs(Scale(c, DivReal(u, abs(u)))), c);
  }
}
