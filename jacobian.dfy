/**
  The Jacobian of the Newton-Raphson solver. It is square, with one row and
  one column per unknown: the angle unknowns `var_theta` first, then the
  magnitude unknowns `var_V`. It is built zero-filled and then written block
  by block: dP/dtheta, dP/dV, dQ/dtheta and dQ/dV. Within a block an entry
  whose two buses coincide takes the diagonal closed form, any other entry
  the off-diagonal form.
*/
module Jacobian {
  import opened ComplexNumbers
  import opened Network
  import opened CalculatedPower

  /** The four blocks, named after the derivative each one holds. */
  datatype Block = PByTheta | PByV | QByTheta | QByV

  predicate MagnitudeBlock(b: Block) {
    b == PByV || b == QByV
  }

  /** The calculated powers have one entry per bus. */
  predicate PowersFit(vm: seq<real>, pCalc: seq<real>, qCalc: seq<real>) {
    |pCalc| == |vm| && |qCalc| == |vm|
  }

  /**
    The entry of block `b` for the row of bus `i` and the column of bus `j`.
    The diagonal form of the magnitude blocks divides by `V[i]`.
  */
  function Derivative(b: Block, y: seq<seq<Complex>>, vm: seq<real>, th: seq<real>, cos: real -> real, sin: real -> real,
                      pCalc: seq<real>, qCalc: seq<real>, i: nat, j: nat): real
    requires Fits(y, vm, th) && PowersFit(vm, pCalc, qCalc) && i < |vm| && j < |vm|
    requires MagnitudeBlock(b) && i == j ==> vm[i] != 0.0
  {
    var g := y[i][j].re;
    var s := y[i][j].im;
    var c := cos(th[i] - th[j]);
    var n := sin(th[i] - th[j]);
    match b
    case PByTheta =>
      if i == j then -qCalc[i] - Sq(vm[i]) * s else vm[i] * vm[j] * (g * n - s * c)
    case PByV =>
      if i == j then pCalc[i] / vm[i] + vm[i] * g else vm[i] * (g * c + s * n)
    case QByTheta =>
      if i == j then pCalc[i] - Sq(vm[i]) * g else -vm[i] * vm[j] * (g * c + s * n)
    case QByV =>
      if i == j then qCalc[i] / vm[i] - vm[i] * s else vm[i] * (g * n - s * c)
  }

  /** Every magnitude unknown is a bus whose magnitude is not zero. */
  predicate MagnitudesNonzero(vm: seq<real>, varV: seq<nat>) {
    forall a :: 0 <= a < |varV| ==> varV[a] < |vm| && vm[varV[a]] != 0.0
  }

  predicate InRange(s: seq<nat>, n: nat) {
    forall a :: 0 <= a < |s| ==> s[a] < n
  }

  /** The block an entry of `J` falls in, and the buses of its row and column. */
  function JacobianEntry(y: seq<seq<Complex>>, vm: seq<real>, th: seq<real>, cos: real -> real, sin: real -> real,
                         pCalc: seq<real>, qCalc: seq<real>, varTheta: seq<nat>, varV: seq<nat>, r: nat, c: nat): real
    requires Fits(y, vm, th) && PowersFit(vm, pCalc, qCalc)
    requires InRange(varTheta, |vm|) && MagnitudesNonzero(vm, varV)
    requires r < |varTheta| + |varV| && c < |varTheta| + |varV|
  {
    var nT := |varTheta|;
    if r < nT && c < nT then Derivative(PByTheta, y, vm, th, cos, sin, pCalc, qCalc, varTheta[r], varTheta[c])
    else if r < nT then Derivative(PByV, y, vm, th, cos, sin, pCalc, qCalc, varTheta[r], varV[c - nT])
    else if c < nT then Derivative(QByTheta, y, vm, th, cos, sin, pCalc, qCalc, varV[r - nT], varTheta[c])
    else Derivative(QByV, y, vm, th, cos, sin, pCalc, qCalc, varV[r - nT], varV[c - nT])
  }

  /** The Jacobian as the list of its rows, the form the linear solve takes. */
  function JacobianMatrix(y: seq<seq<Complex>>, vm: seq<real>, th: seq<real>, cos: real -> real, sin: real -> real,
                          pCalc: seq<real>, qCalc: seq<real>, varTheta: seq<nat>, varV: seq<nat>): (m: seq<seq<real>>)
    requires Fits(y, vm, th) && PowersFit(vm, pCalc, qCalc)
    requires InRange(varTheta, |vm|) && MagnitudesNonzero(vm, varV)
    ensures |m| == |varTheta| + |varV|
    ensures forall r :: 0 <= r < |m| ==> |m[r]| == |varTheta| + |varV|
  {
    var size := |varTheta| + |varV|;
    seq(size, r requires 0 <= r < size =>
      seq(size, c requires 0 <= c < size => JacobianEntry(y, vm, th, cos, sin, pCalc, qCalc, varTheta, varV, r, c)))
  }

  /** The rows of a two-dimensional array. */
  function Rows(a: array2<real>): (m: seq<seq<real>>)
    reads a
    ensures |m| == a.Length0
    ensures forall r, c :: 0 <= r < a.Length0 && 0 <= c < a.Length1 ==> |m[r]| == a.Length1 && m[r][c] == a[r, c]
  {
    seq(a.Length0, r requires 0 <= r < a.Length0 reads a =>
      seq(a.Length1, c requires 0 <= c < a.Length1 reads a => a[r, c]))
  }

  /** The buses of the columns of a magnitude block have non-zero magnitudes. */
  predicate DivisorsNonzero(b: Block, vm: seq<real>, cols: seq<nat>) {
    MagnitudeBlock(b) ==> forall c :: 0 <= c < |cols| ==> cols[c] < |vm| && vm[cols[c]] != 0.0
  }

  /**
    One block of the Jacobian: entry `(r, c)` of the block, which starts at
    `(r0, c0)`, gets the derivative of block `b` at the `(r - r0)`-th bus of
    `rows` and the `(c - c0)`-th bus of `cols`;
    every entry outside the block keeps its value.
  */
  method FillBlock(J: array2<real>, b: Block, r0: nat, c0: nat, rows: seq<nat>, cols: seq<nat>,
                   y: seq<seq<Complex>>, vm: seq<real>, th: seq<real>, cos: real -> real, sin: real -> real,
                   pCalc: seq<real>, qCalc: seq<real>)
    requires Fits(y, vm, th) && PowersFit(vm, pCalc, qCalc)
    requires InRange(rows, |vm|) && InRange(cols, |vm|) && DivisorsNonzero(b, vm, cols)
    requires r0 + |rows| <= J.Length0 && c0 + |cols| <= J.Length1
    modifies J
    ensures forall r, c :: r0 <= r < r0 + |rows| && c0 <= c < c0 + |cols| ==>
      J[r, c] == Derivative(b, y, vm, th, cos, sin, pCalc, qCalc, rows[r - r0], cols[c - c0])
    ensures forall r, c :: 0 <= r < J.Length0 && 0 <= c < J.Length1 && !(r0 <= r < r0 + |rows| && c0 <= c < c0 + |cols|) ==>
      J[r, c] == old(J[r, c])
  {
    for i := 0 to |rows|
      invariant forall r, c :: r0 <= r < r0 + i && c0 <= c < c0 + |cols| ==>
        J[r, c] == Derivative(b, y, vm, th, cos, sin, pCalc, qCalc, rows[r - r0], cols[c - c0])
      invariant forall r, c :: 0 <= r < J.Length0 && 0 <= c < J.Length1 && !(r0 <= r < r0 + i && c0 <= c < c0 + |cols|) ==>
        J[r, c] == old(J[r, c])
    {
      FillRow(J, b, r0 + i, c0, rows[i], cols, y, vm, th, cos, sin, pCalc, qCalc);
    }
  }

  /** The inner loop of a block: row `row` of `J` gets the derivatives of bus `bus` by the buses of `cols`. */
  method FillRow(J: array2<real>, b: Block, row: nat, c0: nat, bus: nat, cols: seq<nat>,
                 y: seq<seq<Complex>>, vm: seq<real>, th: seq<real>, cos: real -> real, sin: real -> real,
                 pCalc: seq<real>, qCalc: seq<real>)
    requires Fits(y, vm, th) && PowersFit(vm, pCalc, qCalc)
    requires bus < |vm| && InRange(cols, |vm|) && DivisorsNonzero(b, vm, cols)
    requires row < J.Length0 && c0 + |cols| <= J.Length1
    modifies J
    ensures forall c :: c0 <= c < c0 + |cols| ==> J[row, c] == Derivative(b, y, vm, th, cos, sin, pCalc, qCalc, bus, cols[c - c0])
    ensures forall r, c :: 0 <= r < J.Length0 && 0 <= c < J.Length1 && !(r == row && c0 <= c < c0 + |cols|) ==>
      J[r, c] == old(J[r, c])
  {
    for j := 0 to |cols|
      invariant forall c :: c0 <= c < c0 + j ==> J[row, c] == Derivative(b, y, vm, th, cos, sin, pCalc, qCalc, bus, cols[c - c0])
      invariant forall r, c :: 0 <= r < J.Length0 && 0 <= c < J.Length1 && !(r == row && c0 <= c < c0 + j) ==>
        J[r, c] == old(J[r, c])
    {
      J[row, c0 + j] := Derivative(b, y, vm, th, cos, sin, pCalc, qCalc, bus, cols[j]);
    }
  }

  /** The block of entry `(r, c)` when the first `nT` rows and columns belong to the angle unknowns. */
  function QuadrantOf(nT: nat, r: nat, c: nat): Block {
    if r < nT && c < nT then PByTheta
    else if r < nT then PByV
    else if c < nT then QByTheta
    else QByV
  }

  /** The order in which the four block loops run. */
  function Order(b: Block): nat {
    match b
    case PByTheta => 0
    case PByV => 1
    case QByTheta => 2
    case QByV => 3
  }

  /** Every entry of the blocks written by the first `k` block loops holds its Jacobian value. */
  ghost predicate Done(J: array2<real>, y: seq<seq<Complex>>, vm: seq<real>, th: seq<real>, cos: real -> real, sin: real -> real,
                       pCalc: seq<real>, qCalc: seq<real>, varTheta: seq<nat>, varV: seq<nat>, k: nat)
    requires Fits(y, vm, th) && PowersFit(vm, pCalc, qCalc)
    requires InRange(varTheta, |vm|) && MagnitudesNonzero(vm, varV)
    requires J.Length0 == |varTheta| + |varV| && J.Length1 == |varTheta| + |varV|
    reads J
  {
    forall r, c :: 0 <= r < J.Length0 && 0 <= c < J.Length1 && Order(QuadrantOf(|varTheta|, r, c)) < k ==>
      J[r, c] == JacobianEntry(y, vm, th, cos, sin, pCalc, qCalc, varTheta, varV, r, c)
  }

  /**
    `J = np.zeros(...)` followed by the four block loops: every entry ends
    up holding the derivative its block and buses call for.
  */
  method BuildJacobian(y: seq<seq<Complex>>, vm: seq<real>, th: seq<real>, cos: real -> real, sin: real -> real,
                       pCalc: seq<real>, qCalc: seq<real>, varTheta: seq<nat>, varV: seq<nat>)
    returns (J: array2<real>)
    requires Fits(y, vm, th) && PowersFit(vm, pCalc, qCalc)
    requires InRange(varTheta, |vm|) && MagnitudesNonzero(vm, varV)
    ensures fresh(J)
    ensures J.Length0 == |varTheta| + |varV| && J.Length1 == |varTheta| + |varV|
    ensures Rows(J) == JacobianMatrix(y, vm, th, cos, sin, pCalc, qCalc, varTheta, varV)
  {
    var size := |varTheta| + |varV|;
    J := new real[size, size]((_, _) => 0.0);
    FillQuadrant(J, PByTheta, y, vm, th, cos, sin, pCalc, qCalc, varTheta, varV);
    FillQuadrant(J, PByV, y, vm, th, cos, sin, pCalc, qCalc, varTheta, varV);
    FillQuadrant(J, QByTheta, y, vm, th, cos, sin, pCalc, qCalc, varTheta, varV);
    FillQuadrant(J, QByV, y, vm, th, cos, sin, pCalc, qCalc, varTheta, varV);
    FilledIsMatrix(J, y, vm, th, cos, sin, pCalc, qCalc, varTheta, varV);
  }

  /** One of the four block loops, writing block `b` at its place in `J`. */
  method FillQuadrant(J: array2<real>, b: Block, y: seq<seq<Complex>>, vm: seq<real>, th: seq<real>, cos: real -> real, sin: real -> real,
                      pCalc: seq<real>, qCalc: seq<real>, varTheta: seq<nat>, varV: seq<nat>)
    requires Fits(y, vm, th) && PowersFit(vm, pCalc, qCalc)
    requires InRange(varTheta, |vm|) && MagnitudesNonzero(vm, varV)
    requires J.Length0 == |varTheta| + |varV| && J.Length1 == |varTheta| + |varV|
    requires Done(J, y, vm, th, cos, sin, pCalc, qCalc, varTheta, varV, Order(b))
    modifies J
    ensures Done(J, y, vm, th, cos, sin, pCalc, qCalc, varTheta, varV, Order(b) + 1)
  {
    var nT := |varTheta|;
    var r0, rows := RowOffset(b, nT), RowBuses(b, varTheta, varV);
    var c0, cols := ColOffset(b, nT), ColBuses(b, varTheta, varV);
    BlockBuses(b, vm, varTheta, varV);
    FillBlock(J, b, r0, c0, rows, cols, y, vm, th, cos, sin, pCalc, qCalc);
    forall r, c | 0 <= r < J.Length0 && 0 <= c < J.Length1 && Order(QuadrantOf(nT, r, c)) < Order(b) + 1
      ensures J[r, c] == JacobianEntry(y, vm, th, cos, sin, pCalc, qCalc, varTheta, varV, r, c)
    {
      InBlock(b, varTheta, varV, r, c);
      if QuadrantOf(nT, r, c) == b {
        EntryInBlock(b, y, vm, th, cos, sin, pCalc, qCalc, varTheta, varV, r, c);
      } else {
        assert J[r, c] == old(J[r, c]);
        assert old(J[r, c]) == JacobianEntry(y, vm, th, cos, sin, pCalc, qCalc, varTheta, varV, r, c);
      }
    }
  }

  /** The row and column buses of every block are buses of the table, and a magnitude block divides by none that is zero. */
  lemma BlockBuses(b: Block, vm: seq<real>, varTheta: seq<nat>, varV: seq<nat>)
    requires InRange(varTheta, |vm|) && MagnitudesNonzero(vm, varV)
    ensures InRange(RowBuses(b, varTheta, varV), |vm|) && InRange(ColBuses(b, varTheta, varV), |vm|)
    ensures DivisorsNonzero(b, vm, ColBuses(b, varTheta, varV))
  {}

  /** The first row of block `b` in `J`. */
  function RowOffset(b: Block, nT: nat): nat {
    if b == PByTheta || b == PByV then 0 else nT
  }

  /** The buses of the rows of block `b`: angle unknowns for the `dP` rows, magnitude unknowns for the `dQ` rows. */
  function RowBuses(b: Block, varTheta: seq<nat>, varV: seq<nat>): seq<nat> {
    if b == PByTheta || b == PByV then varTheta else varV
  }

  /** The first column of block `b` in `J`. */
  function ColOffset(b: Block, nT: nat): nat {
    if b == PByTheta || b == QByTheta then 0 else nT
  }

  /** The buses of the columns of block `b`. */
  function ColBuses(b: Block, varTheta: seq<nat>, varV: seq<nat>): seq<nat> {
    if b == PByTheta || b == QByTheta then varTheta else varV
  }

  /** An entry of `J` lies in block `b` exactly when it lies in the rows and columns the loop of `b` writes. */
  lemma {:induction false} InBlock(b: Block, varTheta: seq<nat>, varV: seq<nat>, r: nat, c: nat)
    requires r < |varTheta| + |varV| && c < |varTheta| + |varV|
    ensures var nT := |varTheta|;
            QuadrantOf(nT, r, c) == b <==>
              RowOffset(b, nT) <= r < RowOffset(b, nT) + |RowBuses(b, varTheta, varV)|
              && ColOffset(b, nT) <= c < ColOffset(b, nT) + |ColBuses(b, varTheta, varV)|
  {}

  /** Inside block `b`, the Jacobian entry is the derivative of `b` at the buses of its row and column. */
  lemma {:induction false} EntryInBlock(b: Block, y: seq<seq<Complex>>, vm: seq<real>, th: seq<real>, cos: real -> real, sin: real -> real,
                     pCalc: seq<real>, qCalc: seq<real>, varTheta: seq<nat>, varV: seq<nat>, r: nat, c: nat)
    requires Fits(y, vm, th) && PowersFit(vm, pCalc, qCalc)
    requires InRange(varTheta, |vm|) && MagnitudesNonzero(vm, varV)
    requires r < |varTheta| + |varV| && c < |varTheta| + |varV|
    requires QuadrantOf(|varTheta|, r, c) == b
    ensures var nT := |varTheta|;
            JacobianEntry(y, vm, th, cos, sin, pCalc, qCalc, varTheta, varV, r, c)
            == Derivative(b, y, vm, th, cos, sin, pCalc, qCalc,
                          RowBuses(b, varTheta, varV)[r - RowOffset(b, nT)], ColBuses(b, varTheta, varV)[c - ColOffset(b, nT)])
  {}

  /** An array in which all four block loops are done has the Jacobian as its rows. */
  lemma {:induction false} FilledIsMatrix(J: array2<real>, y: seq<seq<Complex>>, vm: seq<real>, th: seq<real>, cos: real -> real, sin: real -> real,
                       pCalc: seq<real>, qCalc: seq<real>, varTheta: seq<nat>, varV: seq<nat>)
    requires Fits(y, vm, th) && PowersFit(vm, pCalc, qCalc)
    requires InRange(varTheta, |vm|) && MagnitudesNonzero(vm, varV)
    requires J.Length0 == |varTheta| + |varV| && J.Length1 == |varTheta| + |varV|
    requires Done(J, y, vm, th, cos, sin, pCalc, qCalc, varTheta, varV, 4)
    ensures Rows(J) == JacobianMatrix(y, vm, th, cos, sin, pCalc, qCalc, varTheta, varV)
  {
    var size := |varTheta| + |varV|;
    var m := JacobianMatrix(y, vm, th, cos, sin, pCalc, qCalc, varTheta, varV);
    forall r | 0 <= r < size
      ensures Rows(J)[r] == m[r]
    {
      forall c | 0 <= c < size
        ensures Rows(J)[r][c] == m[r][c]
      {
        assert J[r, c] == JacobianEntry(y, vm, th, cos, sin, pCalc, qCalc, varTheta, varV, r, c);
      }
    }
  }

  /**
    The calculated-power term that entry `(i, k)` of block `b` stands for
    off the diagonal: dP/dtheta holds the reactive term, dQ/dtheta minus the
    active term, and the magnitude blocks, scaled by `V[k]`, the term of
    their own power.
  */
  function Term(b: Block, y: seq<seq<Complex>>, vm: seq<real>, th: seq<real>, cos: real -> real, sin: real -> real,
                i: nat, k: nat): real
    requires Fits(y, vm, th) && i < |vm| && k < |vm|
  {
    match b
    case PByTheta => QTerm(y, vm, th, cos, sin, i, k)
    case PByV => PTerm(y, vm, th, cos, sin, i, k)
    case QByTheta => -PTerm(y, vm, th, cos, sin, i, k)
    case QByV => QTerm(y, vm, th, cos, sin, i, k)
  }

  /** The calculated power that the terms of block `b` add up to, with its sign. */
  function TermSum(b: Block, y: seq<seq<Complex>>, vm: seq<real>, th: seq<real>, cos: real -> real, sin: real -> real,
                   i: nat, upto: nat): real
    requires Fits(y, vm, th) && i < |vm| && upto <= |vm|
  {
    match b
    case PByTheta => QSum(y, vm, th, cos, sin, i, upto)
    case PByV => PSum(y, vm, th, cos, sin, i, upto)
    case QByTheta => -PSum(y, vm, th, cos, sin, i, upto)
    case QByV => QSum(y, vm, th, cos, sin, i, upto)
  }

  /** An entry as it enters the row balance: angle derivatives as they are, magnitude derivatives times `V[k]`. */
  function Weighted(b: Block, y: seq<seq<Complex>>, vm: seq<real>, th: seq<real>, cos: real -> real, sin: real -> real,
                    pCalc: seq<real>, qCalc: seq<real>, i: nat, k: nat): real
    requires Fits(y, vm, th) && PowersFit(vm, pCalc, qCalc) && i < |vm| && k < |vm|
    requires MagnitudeBlock(b) && i == k ==> vm[i] != 0.0
  {
    var d := Derivative(b, y, vm, th, cos, sin, pCalc, qCalc, i, k);
    if MagnitudeBlock(b) then vm[k] * d else d
  }

  /** The weighted off-diagonal entries of the row of bus `i` over the buses `k < upto`. */
  function OffSum(b: Block, y: seq<seq<Complex>>, vm: seq<real>, th: seq<real>, cos: real -> real, sin: real -> real,
                  pCalc: seq<real>, qCalc: seq<real>, i: nat, upto: nat): real
    requires Fits(y, vm, th) && PowersFit(vm, pCalc, qCalc) && i < |vm| && upto <= |vm|
  {
    if upto == 0 then 0.0
    else
      var k := upto - 1;
      OffSum(b, y, vm, th, cos, sin, pCalc, qCalc, i, k)
      + (if k == i then 0.0 else Weighted(b, y, vm, th, cos, sin, pCalc, qCalc, i, k))
  }

  /** Off the diagonal, a weighted entry is the calculated-power term it stands for. */
  lemma {:induction false} OffDiagonalIsTerm(b: Block, y: seq<seq<Complex>>, vm: seq<real>, th: seq<real>, cos: real -> real, sin: real -> real,
                                             pCalc: seq<real>, qCalc: seq<real>, i: nat, k: nat)
    requires Fits(y, vm, th) && PowersFit(vm, pCalc, qCalc) && i < |vm| && k < |vm| && i != k
    ensures Weighted(b, y, vm, th, cos, sin, pCalc, qCalc, i, k) == Term(b, y, vm, th, cos, sin, i, k)
  {
  }

  /** The weighted off-diagonal entries add up to the whole power sum less its diagonal term. */
  lemma {:induction false} OffSumIsTermSum(b: Block, y: seq<seq<Complex>>, vm: seq<real>, th: seq<real>, cos: real -> real, sin: real -> real,
                                           pCalc: seq<real>, qCalc: seq<real>, i: nat, upto: nat)
    requires Fits(y, vm, th) && PowersFit(vm, pCalc, qCalc) && i < |vm| && upto <= |vm|
    ensures OffSum(b, y, vm, th, cos, sin, pCalc, qCalc, i, upto)
            == TermSum(b, y, vm, th, cos, sin, i, upto) - (if i < upto then Term(b, y, vm, th, cos, sin, i, i) else 0.0)
  {
    if upto > 0 {
      var k := upto - 1;
      OffSumIsTermSum(b, y, vm, th, cos, sin, pCalc, qCalc, i, k);
      if k != i {
        OffDiagonalIsTerm(b, y, vm, th, cos, sin, pCalc, qCalc, i, k);
      }
    }
  }

  /** With `cos(0) = 1` and `sin(0) = 0`, the diagonal term of bus `i` is `V[i]^2` times its own admittance. */
  lemma {:induction false} DiagonalTerms(y: seq<seq<Complex>>, vm: seq<real>, th: seq<real>, cos: real -> real, sin: real -> real, i: nat)
    requires Fits(y, vm, th) && i < |vm|
    requires cos(0.0) == 1.0 && sin(0.0) == 0.0
    ensures PTerm(y, vm, th, cos, sin, i, i) == Sq(vm[i]) * y[i][i].re
    ensures QTerm(y, vm, th, cos, sin, i, i) == -Sq(vm[i]) * y[i][i].im
  {
    assert th[i] - th[i] == 0.0;
  }

  /**
    Turning every angle by the same amount changes no power, so in the
    angle blocks the diagonal entry of a row balances the sum of its
    off-diagonal entries taken over all buses: the diagonal closed forms
    `-Q_calc[i] - V[i]^2*B[i][i]` and `P_calc[i] - V[i]^2*G[i][i]` are the
    negated sums of the off-diagonal forms.
  */
  lemma {:induction false} AngleRowsBalance(b: Block, y: seq<seq<Complex>>, vm: seq<real>, th: seq<real>, cos: real -> real, sin: real -> real,
                                            pCalc: seq<real>, qCalc: seq<real>, i: nat)
    requires Fits(y, vm, th) && i < |vm| && !MagnitudeBlock(b)
    requires pCalc == CalcP(y, vm, th, cos, sin) && qCalc == CalcQ(y, vm, th, cos, sin)
    requires cos(0.0) == 1.0 && sin(0.0) == 0.0
    ensures Derivative(b, y, vm, th, cos, sin, pCalc, qCalc, i, i) + OffSum(b, y, vm, th, cos, sin, pCalc, qCalc, i, |vm|) == 0.0
  {
    OffSumIsTermSum(b, y, vm, th, cos, sin, pCalc, qCalc, i, |vm|);
    DiagonalTerms(y, vm, th, cos, sin, i);
  }

  /**
    The calculated powers are homogeneous of degree two in the magnitudes
    (Euler's identity): in the magnitude blocks, the entries of a row
    weighted by `V[k]` add up to twice the calculated power of the row's bus.
  */
  lemma {:induction false} MagnitudeRowsEuler(b: Block, y: seq<seq<Complex>>, vm: seq<real>, th: seq<real>, cos: real -> real, sin: real -> real,
                                              pCalc: seq<real>, qCalc: seq<real>, i: nat)
    requires Fits(y, vm, th) && i < |vm| && MagnitudeBlock(b) && vm[i] != 0.0
    requires pCalc == CalcP(y, vm, th, cos, sin) && qCalc == CalcQ(y, vm, th, cos, sin)
    requires cos(0.0) == 1.0 && sin(0.0) == 0.0
    ensures vm[i] * Derivative(b, y, vm, th, cos, sin, pCalc, qCalc, i, i) + OffSum(b, y, vm, th, cos, sin, pCalc, qCalc, i, |vm|)
            == 2.0 * (if b == PByV then pCalc[i] else qCalc[i])
  {
    var p := if b == PByV then pCalc[i] else qCalc[i];
    var a := if b == PByV then y[i][i].re else -y[i][i].im;
    MagnitudeOffSum(b, y, vm, th, cos, sin, pCalc, qCalc, i);
    MagnitudeDiagonal(b, y, vm, th, cos, sin, pCalc, qCalc, i);
    ScaledDiagonal(vm[i], p, a, OffSum(b, y, vm, th, cos, sin, pCalc, qCalc, i, |vm|));
  }

  /** In a magnitude block the off-diagonal entries of a row add up to its power less the diagonal term. */
  lemma {:induction false} MagnitudeOffSum(b: Block, y: seq<seq<Complex>>, vm: seq<real>, th: seq<real>, cos: real -> real, sin: real -> real,
                        pCalc: seq<real>, qCalc: seq<real>, i: nat)
    requires Fits(y, vm, th) && i < |vm| && MagnitudeBlock(b)
    requires pCalc == CalcP(y, vm, th, cos, sin) && qCalc == CalcQ(y, vm, th, cos, sin)
    requires cos(0.0) == 1.0 && sin(0.0) == 0.0
    ensures OffSum(b, y, vm, th, cos, sin, pCalc, qCalc, i, |vm|)
            == (if b == PByV then pCalc[i] else qCalc[i]) - Sq(vm[i]) * (if b == PByV then y[i][i].re else -y[i][i].im)
  {
    OffSumIsTermSum(b, y, vm, th, cos, sin, pCalc, qCalc, i, |vm|);
    DiagonalTerms(y, vm, th, cos, sin, i);
  }

  /** The diagonal closed form of the magnitude blocks. */
  lemma {:induction false} MagnitudeDiagonal(b: Block, y: seq<seq<Complex>>, vm: seq<real>, th: seq<real>, cos: real -> real, sin: real -> real,
                          pCalc: seq<real>, qCalc: seq<real>, i: nat)
    requires Fits(y, vm, th) && PowersFit(vm, pCalc, qCalc) && i < |vm| && MagnitudeBlock(b) && vm[i] != 0.0
    ensures Derivative(b, y, vm, th, cos, sin, pCalc, qCalc, i, i)
            == (if b == PByV then pCalc[i] else qCalc[i]) / vm[i] + vm[i] * (if b == PByV then y[i][i].re else -y[i][i].im)
  {}

  lemma ScaledDiagonal(m: real, p: real, a: real, off: real)
    requires m != 0.0 && off == p - Sq(m) * a
    ensures m * (p / m + m * a) + off == 2.0 * p
  {}
}
