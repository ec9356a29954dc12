/**
  The calculated bus powers of the Newton-Raphson solver, `P_calc` and
  `Q_calc`, accumulated term by term over the polar voltages `V[i]`,
  `theta[i]` and the admittance matrix. `cos` and `sin` stand for numpy's
  trigonometric functions and are parameters of the model.
*/
module CalculatedPower {
  import opened ComplexNumbers
  import opened Network

  /** The admittance matrix, the magnitudes and the angles all have one entry per bus. */
  predicate Fits(y: seq<seq<Complex>>, vm: seq<real>, th: seq<real>) {
    IsSquare(y, |vm|) && |th| == |vm|
  }

  /** Term `k` of `P_calc[i]`: `V[i]*V[k]*(G[i][k]*cos(theta[i]-theta[k]) + B[i][k]*sin(theta[i]-theta[k]))`. */
  function PTerm(y: seq<seq<Complex>>, vm: seq<real>, th: seq<real>, cos: real -> real, sin: real -> real,
                 i: nat, k: nat): real
    requires Fits(y, vm, th) && i < |vm| && k < |vm|
  {
    vm[i] * vm[k] * (y[i][k].re * cos(th[i] - th[k]) + y[i][k].im * sin(th[i] - th[k]))
  }

  /** Term `k` of `Q_calc[i]`: `V[i]*V[k]*(G[i][k]*sin(theta[i]-theta[k]) - B[i][k]*cos(theta[i]-theta[k]))`. */
  function QTerm(y: seq<seq<Complex>>, vm: seq<real>, th: seq<real>, cos: real -> real, sin: real -> real,
                 i: nat, k: nat): real
    requires Fits(y, vm, th) && i < |vm| && k < |vm|
  {
    vm[i] * vm[k] * (y[i][k].re * sin(th[i] - th[k]) - y[i][k].im * cos(th[i] - th[k]))
  }

  /** `P_calc[i]` after the inner loop has added the terms `k < upto`. */
  function PSum(y: seq<seq<Complex>>, vm: seq<real>, th: seq<real>, cos: real -> real, sin: real -> real,
                i: nat, upto: nat): real
    requires Fits(y, vm, th) && i < |vm| && upto <= |vm|
  {
    if upto == 0 then 0.0 else PSum(y, vm, th, cos, sin, i, upto - 1) + PTerm(y, vm, th, cos, sin, i, upto - 1)
  }

  /** `Q_calc[i]` after the inner loop has added the terms `k < upto`. */
  function QSum(y: seq<seq<Complex>>, vm: seq<real>, th: seq<real>, cos: real -> real, sin: real -> real,
                i: nat, upto: nat): real
    requires Fits(y, vm, th) && i < |vm| && upto <= |vm|
  {
    if upto == 0 then 0.0 else QSum(y, vm, th, cos, sin, i, upto - 1) + QTerm(y, vm, th, cos, sin, i, upto - 1)
  }

  /** The whole vector `P_calc`. */
  function CalcP(y: seq<seq<Complex>>, vm: seq<real>, th: seq<real>, cos: real -> real, sin: real -> real): (p: seq<real>)
    requires Fits(y, vm, th)
    ensures |p| == |vm|
  {
    seq(|vm|, i requires 0 <= i < |vm| => PSum(y, vm, th, cos, sin, i, |vm|))
  }

  /** The whole vector `Q_calc`. */
  function CalcQ(y: seq<seq<Complex>>, vm: seq<real>, th: seq<real>, cos: real -> real, sin: real -> real): (q: seq<real>)
    requires Fits(y, vm, th)
    ensures |q| == |vm|
  {
    seq(|vm|, i requires 0 <= i < |vm| => QSum(y, vm, th, cos, sin, i, |vm|))
  }

  /** `m * exp(j*t)`, written with the model's `cos` and `sin`. */
  function Polar(m: real, t: real, cos: real -> real, sin: real -> real): Complex {
    Complex(m * cos(t), m * sin(t))
  }

  /** `V * np.exp(1j*theta)`: the complex voltages from magnitudes and angles. */
  function Phasors(vm: seq<real>, th: seq<real>, cos: real -> real, sin: real -> real): (v: seq<Complex>)
    requires |th| == |vm|
    ensures |v| == |vm|
    ensures forall i :: 0 <= i < |vm| ==> v[i] == Polar(vm[i], th[i], cos, sin)
  {
    seq(|vm|, i requires 0 <= i < |vm| => Polar(vm[i], th[i], cos, sin))
  }

  /**
    The nested loops of one pass: both vectors start at zero and bus `i`
    accumulates its terms over every bus `k` in order.
  */
  method CalculatedPowers(y: seq<seq<Complex>>, vm: seq<real>, th: seq<real>, cos: real -> real, sin: real -> real)
    returns (pCalc: array<real>, qCalc: array<real>)
    requires Fits(y, vm, th)
    ensures fresh(pCalc) && fresh(qCalc)
    ensures pCalc[..] == CalcP(y, vm, th, cos, sin) && qCalc[..] == CalcQ(y, vm, th, cos, sin)
  {
    var n := |vm|;
    pCalc := new real[n](_ => 0.0);
    qCalc := new real[n](_ => 0.0);
    for i := 0 to n
      invariant forall a :: 0 <= a < i ==> pCalc[a] == PSum(y, vm, th, cos, sin, a, n) && qCalc[a] == QSum(y, vm, th, cos, sin, a, n)
      invariant forall a :: i <= a < n ==> pCalc[a] == 0.0 && qCalc[a] == 0.0
    {
      AccumulateBus(y, vm, th, cos, sin, pCalc, qCalc, i);
    }
    assert pCalc[..] == CalcP(y, vm, th, cos, sin);
    assert qCalc[..] == CalcQ(y, vm, th, cos, sin);
  }

  /** The inner loop for bus `i`: adds every term `k` to `P_calc[i]` and `Q_calc[i]`, which start at zero. */
  method AccumulateBus(y: seq<seq<Complex>>, vm: seq<real>, th: seq<real>, cos: real -> real, sin: real -> real,
                       pCalc: array<real>, qCalc: array<real>, i: nat)
    requires Fits(y, vm, th) && pCalc.Length == |vm| && qCalc.Length == |vm| && i < |vm| && pCalc != qCalc
    requires pCalc[i] == 0.0 && qCalc[i] == 0.0
    modifies pCalc, qCalc
    ensures pCalc[i] == PSum(y, vm, th, cos, sin, i, |vm|) && qCalc[i] == QSum(y, vm, th, cos, sin, i, |vm|)
    ensures forall a :: 0 <= a < |vm| && a != i ==> pCalc[a] == old(pCalc[a]) && qCalc[a] == old(qCalc[a])
  {
    for k := 0 to |vm|
      invariant pCalc[i] == PSum(y, vm, th, cos, sin, i, k) && qCalc[i] == QSum(y, vm, th, cos, sin, i, k)
      invariant forall a :: 0 <= a < |vm| && a != i ==> pCalc[a] == old(pCalc[a]) && qCalc[a] == old(qCalc[a])
    {
      pCalc[i] := pCalc[i] + PTerm(y, vm, th, cos, sin, i, k);
      qCalc[i] := qCalc[i] + QTerm(y, vm, th, cos, sin, i, k);
    }
  }

  /** `cos` and `sin` obey the angle-difference identities at every pair of the given angles. */
  ghost predicate AngleDifferences(cos: real -> real, sin: real -> real, th: seq<real>) {
    forall i, k :: 0 <= i < |th| && 0 <= k < |th| ==>
      cos(th[i] - th[k]) == cos(th[i]) * cos(th[k]) + sin(th[i]) * sin(th[k])
      && sin(th[i] - th[k]) == sin(th[i]) * cos(th[k]) - cos(th[i]) * sin(th[k])
  }

  /** One term of `V[i] * conj(Y[i][k] * V[k])` with both voltages in polar form, multiplied out. */
  lemma PolarTerm(g: real, b: real, mi: real, mk: real, ci: real, si: real, ck: real, sk: real)
    ensures var s := Mul(Complex(mi * ci, mi * si), Conj(Mul(Complex(g, b), Complex(mk * ck, mk * sk))));
            s.re == mi * mk * (g * (ci * ck + si * sk) + b * (si * ck - ci * sk))
            && s.im == mi * mk * (g * (si * ck - ci * sk) - b * (ci * ck + si * sk))
  {}

  /**
    With the angle-difference identities at `ti`, `tk`, the polar term
    `mi*mk*(g*cos(ti-tk) + b*sin(ti-tk))` and its reactive twin are the parts
    of `V_i * conj((g + jb) * V_k)`.
  */
  lemma TermIsComplexPower(g: real, b: real, mi: real, mk: real, ti: real, tk: real, cos: real -> real, sin: real -> real)
    requires cos(ti - tk) == cos(ti) * cos(tk) + sin(ti) * sin(tk)
    requires sin(ti - tk) == sin(ti) * cos(tk) - cos(ti) * sin(tk)
    ensures var s := Mul(Polar(mi, ti, cos, sin), Conj(Mul(Complex(g, b), Polar(mk, tk, cos, sin))));
            mi * mk * (g * cos(ti - tk) + b * sin(ti - tk)) == s.re
            && mi * mk * (g * sin(ti - tk) - b * cos(ti - tk)) == s.im
  {
    PolarTerm(g, b, mi, mk, cos(ti), sin(ti), cos(tk), sin(tk));
  }

  /** `V[i] * conj(a + b) == V[i] * conj(a) + V[i] * conj(b)`. */
  lemma MulConjAdd(v: Complex, a: Complex, b: Complex)
    ensures Mul(v, Conj(Add(a, b))) == Add(Mul(v, Conj(a)), Mul(v, Conj(b)))
  {}

  /** Term `k` of row `i` is the part bus `k` contributes to the complex power of bus `i`. */
  lemma {:induction false} TermOfRow(y: seq<seq<Complex>>, vm: seq<real>, th: seq<real>,
                                    cos: real -> real, sin: real -> real, i: nat, k: nat)
    requires Fits(y, vm, th) && i < |vm| && k < |vm|
    requires AngleDifferences(cos, sin, th)
    ensures var v := Phasors(vm, th, cos, sin);
            var c := Mul(v[i], Conj(Mul(y[i][k], v[k])));
            PTerm(y, vm, th, cos, sin, i, k) == c.re && QTerm(y, vm, th, cos, sin, i, k) == c.im
  {
    TermIsComplexPower(y[i][k].re, y[i][k].im, vm[i], vm[k], th[i], th[k], cos, sin);
  }

  /**
    With `cos` and `sin` obeying the angle-difference identities, `P_calc[i]`
    and `Q_calc[i]` are the real and imaginary parts of the complex power
    `V[i] * conj(sum_k Y[i][k] * V[k])` of the voltages `V * exp(j*theta)`.
  */
  lemma {:induction false} PowerSumIsComplexPower(y: seq<seq<Complex>>, vm: seq<real>, th: seq<real>,
                                                 cos: real -> real, sin: real -> real, i: nat, upto: nat)
    requires Fits(y, vm, th) && i < |vm| && upto <= |vm|
    requires AngleDifferences(cos, sin, th)
    ensures var v := Phasors(vm, th, cos, sin);
            var s := Mul(v[i], Conj(Dot(y[i], v, upto)));
            PSum(y, vm, th, cos, sin, i, upto) == s.re && QSum(y, vm, th, cos, sin, i, upto) == s.im
  {
    if upto > 0 {
      var k := upto - 1;
      var v := Phasors(vm, th, cos, sin);
      var front, term := Dot(y[i], v, k), Mul(y[i][k], v[k]);
      PowerSumIsComplexPower(y, vm, th, cos, sin, i, k);
      TermOfRow(y, vm, th, cos, sin, i, k);
      assert Dot(y[i], v, upto) == Add(front, term);
      MulConjAdd(v[i], front, term);
    }
  }
}
