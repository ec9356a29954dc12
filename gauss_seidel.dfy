/**
  The Gauss-Seidel load-flow solver. Each sweep visits the buses in order and
  overwrites the voltage of every PQ and PV bus in place, so a bus already
  visited contributes its new voltage to the buses after it. The slack bus is
  skipped. A division by zero while updating a bus restores that bus's
  voltage from the snapshot taken at the start of the sweep. Sweeps repeat
  while the error is above the tolerance and the sweep cap is not reached.

  `abs` is the complex modulus (Python's `abs` on a complex number), passed
  in because it needs a square root; `IsModulus` pins it down.
*/
module GaussSeidel {
  import opened ComplexNumbers
  import opened Network

  /** Acceleration factor of the PQ update. */
  const E1 := 1.09
  /** Acceleration factor of the PV update. */
  const E2 := 1.0
  /** The error the loop starts from, before any sweep. */
  const InitialError := 0.0001
  /** The defaults of `erro_max` and `K_max`. */
  const DefaultErrMax := 0.000001
  const DefaultKMax := 1000

  /** The per-unit vectors the solver prepares from the bus table. */
  datatype PerUnitData = PerUnitData(p: seq<real>, q: seq<real>, qLoad: seq<real>)

  /** Voltages, sweep count and final error, as the solver returns them. */
  datatype Outcome = Outcome(voltages: seq<Complex>, iterations: int, error: real)

  predicate FitsBuses(pu: PerUnitData, n: nat) {
    |pu.p| == n && |pu.q| == n && |pu.qLoad| == n
  }

  /**
    Net active and reactive injection and reactive load of every bus in per
    unit; the slack bus gets no reactive injection.
  */
  function PerUnit(buses: seq<Bus>): (pu: PerUnitData)
    ensures FitsBuses(pu, |buses|)
    ensures forall i :: 0 <= i < |buses| ==> pu.p[i] * BaseMVA == buses[i].genMW - buses[i].loadMW
    ensures forall i :: 0 <= i < |buses| ==>
      if buses[i].tag == Slack then pu.q[i] == 0.0 else pu.q[i] * BaseMVA == buses[i].genMVAR - buses[i].loadMVAR
    ensures forall i :: 0 <= i < |buses| ==> pu.qLoad[i] * BaseMVA == buses[i].loadMVAR
  {
    PerUnitData(
      seq(|buses|, i requires 0 <= i < |buses| => NetActive(buses[i])),
      seq(|buses|, i requires 0 <= i < |buses| => if buses[i].tag != Slack then NetReactive(buses[i]) else 0.0),
      seq(|buses|, i requires 0 <= i < |buses| => ReactiveLoad(buses[i])))
  }

  /** The starting voltages: each bus's magnitude column as a complex number with zero angle. */
  function InitialVoltages(buses: seq<Bus>): (v: seq<Complex>)
    ensures |v| == |buses|
    ensures forall i :: 0 <= i < |buses| ==> v[i] == Complex(buses[i].vm, 0.0)
  {
    seq(|buses|, i requires 0 <= i < |buses| => Complex(buses[i].vm, 0.0))
  }

  /** `YV`: the sum of `row[n] * v[n]` over `n < upto` with `n != k`. */
  function OthersSum(row: seq<Complex>, v: seq<Complex>, k: int, upto: nat): Complex
    requires upto <= |row| && upto <= |v|
  {
    if upto == 0 then Zero
    else if upto - 1 == k then OthersSum(row, v, k, upto - 1)
    else Add(OthersSum(row, v, k, upto - 1), Mul(row[upto - 1], v[upto - 1]))
  }

  /** The reactive power a PV bus injects at voltages `v`, minus its reactive load. */
  function PvNetReactive(ykk: Complex, yv: Complex, vk: Complex, qLoad: real): real {
    -Mul(Conj(vk), Add(yv, Mul(ykk, vk))).im - qLoad
  }

  /** `(1 / ykk) * e * (s / conj(vk) - yv)`, the update of a PQ or PV bus before renormalisation. */
  function Accelerated(e: real, ykk: Complex, s: Complex, vk: Complex, yv: Complex): Complex
    requires ykk != Zero && vk != Zero
  {
    Mul(Scale(e, Div(One, ykk)), Sub(Div(s, Conj(vk)), yv))
  }

  /**
    The voltage bus `k` holds after its turn in a sweep: `v` is the vector as
    the sweep has left it so far and `snap` the copy taken when the sweep began.
  */
  function BusUpdate(y: seq<seq<Complex>>, buses: seq<Bus>, pu: PerUnitData, abs: Complex -> real,
                     v: seq<Complex>, snap: seq<Complex>, k: nat): Complex
    requires IsSquare(y, |buses|) && FitsBuses(pu, |buses|)
    requires |v| == |buses| && |snap| == |buses| && k < |buses|
  {
    var ykk := y[k][k];
    var yv := OthersSum(y[k], v, k, |v|);
    if buses[k].tag == PQ then
      if ykk == Zero || v[k] == Zero then snap[k]
      else Accelerated(E1, ykk, Complex(pu.p[k], pu.q[k]), v[k], yv)
    else if buses[k].tag == PV then
      if ykk == Zero || v[k] == Zero then snap[k]
      else
        var u := Accelerated(E2, ykk, Complex(pu.p[k], PvNetReactive(ykk, yv, v[k], pu.qLoad[k])), v[k], yv);
        if abs(u) == 0.0 then snap[k] else Scale(abs(snap[k]), DivReal(u, abs(u)))
    else v[k]
  }

  /** The voltage vector after the first `upto` buses of a sweep that started from `snap`. */
  function SweepPrefix(y: seq<seq<Complex>>, buses: seq<Bus>, pu: PerUnitData, abs: Complex -> real,
                       snap: seq<Complex>, upto: nat): (v: seq<Complex>)
    requires IsSquare(y, |buses|) && FitsBuses(pu, |buses|)
    requires |snap| == |buses| && upto <= |buses|
    ensures |v| == |buses|
  {
    if upto == 0 then snap
    else
      var w := SweepPrefix(y, buses, pu, abs, snap, upto - 1);
      if buses[upto - 1].tag == Slack then w
      else w[upto - 1 := BusUpdate(y, buses, pu, abs, w, snap, upto - 1)]
  }

  function Max(a: real, b: real): real {
    if a >= b then a else b
  }

  /** The sweep error after the first `upto` buses: the largest change of a visited non-slack bus. */
  function SweepError(y: seq<seq<Complex>>, buses: seq<Bus>, pu: PerUnitData, abs: Complex -> real,
                      snap: seq<Complex>, upto: nat): real
    requires IsSquare(y, |buses|) && FitsBuses(pu, |buses|)
    requires |snap| == |buses| && upto <= |buses|
  {
    if upto == 0 then 0.0
    else
      var e := SweepError(y, buses, pu, abs, snap, upto - 1);
      if buses[upto - 1].tag == Slack then e
      else Max(e, abs(Sub(SweepPrefix(y, buses, pu, abs, snap, upto)[upto - 1], snap[upto - 1])))
  }

  /** The solver's loop from voltages `v`, error `err` and sweep count `count` on. */
  function Iterate(y: seq<seq<Complex>>, buses: seq<Bus>, pu: PerUnitData, abs: Complex -> real,
                   errMax: real, kMax: int, v: seq<Complex>, err: real, count: int): (r: Outcome)
    requires IsSquare(y, |buses|) && FitsBuses(pu, |buses|) && |v| == |buses|
    ensures |r.voltages| == |buses|
    decreases kMax - count
  {
    if err > errMax && count < kMax then
      Iterate(y, buses, pu, abs, errMax, kMax,
              SweepPrefix(y, buses, pu, abs, v, |buses|), SweepError(y, buses, pu, abs, v, |buses|), count + 1)
    else Outcome(v, count, err)
  }

  /** Buses the sweep has not reached yet still hold their snapshot voltages. */
  lemma {:induction false} PrefixLeavesRest(y: seq<seq<Complex>>, buses: seq<Bus>, pu: PerUnitData, abs: Complex -> real,
                                            snap: seq<Complex>, upto: nat)
    requires IsSquare(y, |buses|) && FitsBuses(pu, |buses|)
    requires |snap| == |buses| && upto <= |buses|
    ensures forall j :: upto <= j < |buses| ==> SweepPrefix(y, buses, pu, abs, snap, upto)[j] == snap[j]
  {
    if upto > 0 {
      PrefixLeavesRest(y, buses, pu, abs, snap, upto - 1);
    }
  }

  /** Once a bus has had its turn, the rest of the sweep leaves it alone. */
  lemma {:induction false} PrefixKeepsVisited(y: seq<seq<Complex>>, buses: seq<Bus>, pu: PerUnitData, abs: Complex -> real,
                                              snap: seq<Complex>, i: nat, upto: nat)
    requires IsSquare(y, |buses|) && FitsBuses(pu, |buses|)
    requires |snap| == |buses| && i <= upto <= |buses|
    ensures forall j :: 0 <= j < i ==> SweepPrefix(y, buses, pu, abs, snap, upto)[j] == SweepPrefix(y, buses, pu, abs, snap, i)[j]
    decreases upto
  {
    if upto > i {
      PrefixKeepsVisited(y, buses, pu, abs, snap, i, upto - 1);
    }
  }

  /**
    Gauss-Seidel order: when bus `k` takes its turn, the buses before it hold
    the voltages this sweep gives them and the others their snapshot voltages.
  */
  lemma {:induction false} GaussSeidelOrder(y: seq<seq<Complex>>, buses: seq<Bus>, pu: PerUnitData, abs: Complex -> real,
                         snap: seq<Complex>, k: nat)
    requires IsSquare(y, |buses|) && FitsBuses(pu, |buses|)
    requires |snap| == |buses| && k <= |buses|
    ensures SweepPrefix(y, buses, pu, abs, snap, k) == SweepPrefix(y, buses, pu, abs, snap, |buses|)[..k] + snap[k..]
  {
    PrefixLeavesRest(y, buses, pu, abs, snap, k);
    PrefixKeepsVisited(y, buses, pu, abs, snap, k, |buses|);
  }

  /** The voltage a sweep leaves at a non-slack bus is that bus's update at its turn. */
  lemma {:induction false} SweepAt(y: seq<seq<Complex>>, buses: seq<Bus>, pu: PerUnitData, abs: Complex -> real,
                snap: seq<Complex>, k: nat)
    requires IsSquare(y, |buses|) && FitsBuses(pu, |buses|)
    requires |snap| == |buses| && k < |buses| && buses[k].tag != Slack
    ensures var w := SweepPrefix(y, buses, pu, abs, snap, k);
            SweepPrefix(y, buses, pu, abs, snap, |buses|)[k] == BusUpdate(y, buses, pu, abs, w, snap, k)
            && w[k] == snap[k]
  {
    PrefixLeavesRest(y, buses, pu, abs, snap, k);
    PrefixKeepsVisited(y, buses, pu, abs, snap, k + 1, |buses|);
  }

  /**
    A sweep changes only PQ and PV buses; and a PQ or PV bus whose
    self-admittance or voltage is zero (Python raises ZeroDivisionError) gets
    its snapshot voltage back.
  */
  lemma {:induction false} SweepKeepsFixedBuses(y: seq<seq<Complex>>, buses: seq<Bus>, pu: PerUnitData, abs: Complex -> real,
                             snap: seq<Complex>)
    requires IsSquare(y, |buses|) && FitsBuses(pu, |buses|) && |snap| == |buses|
    ensures forall j :: 0 <= j < |buses| && buses[j].tag != PQ && buses[j].tag != PV ==>
      SweepPrefix(y, buses, pu, abs, snap, |buses|)[j] == snap[j]
    ensures forall j :: 0 <= j < |buses| && (y[j][j] == Zero || snap[j] == Zero) ==>
      SweepPrefix(y, buses, pu, abs, snap, |buses|)[j] == snap[j]
  {
    forall j | 0 <= j < |buses|
      ensures buses[j].tag != PQ && buses[j].tag != PV ==> SweepPrefix(y, buses, pu, abs, snap, |buses|)[j] == snap[j]
      ensures y[j][j] == Zero || snap[j] == Zero ==> SweepPrefix(y, buses, pu, abs, snap, |buses|)[j] == snap[j]
    {
      if buses[j].tag == Slack {
        PrefixKeepsVisited(y, buses, pu, abs, snap, j + 1, |buses|);
        PrefixLeavesRest(y, buses, pu, abs, snap, j);
      } else {
        SweepAt(y, buses, pu, abs, snap, j);
      }
    }
  }

  /** The update of a PV bus keeps the magnitude the bus had when the sweep began. */
  lemma {:induction false} PvUpdateKeepsMagnitude(y: seq<seq<Complex>>, buses: seq<Bus>, pu: PerUnitData, abs: Complex -> real,
                                                  v: seq<Complex>, snap: seq<Complex>, k: nat)
    requires IsSquare(y, |buses|) && FitsBuses(pu, |buses|)
    requires |v| == |buses| && |snap| == |buses| && k < |buses| && buses[k].tag == PV
    requires IsModulus(abs)
    ensures abs(BusUpdate(y, buses, pu, abs, v, snap, k)) == abs(snap[k])
  {
    var ykk := y[k][k];
    if ykk != Zero && v[k] != Zero {
      var yv := OthersSum(y[k], v, k, |v|);
      var u := Accelerated(E2, ykk, Complex(pu.p[k], PvNetReactive(ykk, yv, v[k], pu.qLoad[k])), v[k], yv);
      if abs(u) != 0.0 {
        ModulusOfRescaled(abs, abs(snap[k]), u);
      }
    }
  }

  /** A PV bus leaves the sweep with the magnitude it entered it with. */
  lemma {:induction false} SweepHoldsPvMagnitude(y: seq<seq<Complex>>, buses: seq<Bus>, pu: PerUnitData, abs: Complex -> real,
                                                 snap: seq<Complex>)
    requires IsSquare(y, |buses|) && FitsBuses(pu, |buses|) && |snap| == |buses|
    requires IsModulus(abs)
    ensures forall j :: 0 <= j < |buses| && buses[j].tag == PV ==>
      abs(SweepPrefix(y, buses, pu, abs, snap, |buses|)[j]) == abs(snap[j])
  {
    forall j | 0 <= j < |buses| && buses[j].tag == PV
      ensures abs(SweepPrefix(y, buses, pu, abs, snap, |buses|)[j]) == abs(snap[j])
    {
      SweepAt(y, buses, pu, abs, snap, j);
      PvUpdateKeepsMagnitude(y, buses, pu, abs, SweepPrefix(y, buses, pu, abs, snap, j), snap, j);
    }
  }

  /** `u = (1/ykk) * e * (s / conj(vk) - yv)` solves the bus equation `conj(vk) * (ykk * u / e + yv) == s`. */
  lemma {:induction false} AcceleratedSolvesBusEquation(e: real, ykk: Complex, s: Complex, vk: Complex, yv: Complex)
    requires e != 0.0 && ykk != Zero && vk != Zero
    ensures Mul(Conj(vk), Add(Scale(1.0 / e, Mul(ykk, Accelerated(e, ykk, s, vk, yv))), yv)) == s
  {
    var inv := Div(One, ykk);
    var d := Sub(Div(s, Conj(vk)), yv);
    assert Mul(inv, ykk) == One;
    ScaleOut(inv, d, e);
    ScaleThrough(ykk, Mul(inv, d), e);
    MulRotate(ykk, inv, d);
    OneTimes(d);
    UnscaleOne(e, d);
    assert Add(d, yv) == Div(s, Conj(vk));
  }

  lemma ScaleOut(b: Complex, d: Complex, e: real)
    ensures Mul(Scale(e, b), d) == Scale(e, Mul(b, d))
  {}

  lemma ScaleThrough(a: Complex, x: Complex, e: real)
    ensures Mul(a, Scale(e, x)) == Scale(e, Mul(a, x))
  {}

  lemma MulRotate(a: Complex, b: Complex, d: Complex)
    ensures Mul(a, Mul(b, d)) == Mul(Mul(b, a), d)
  {}

  lemma OneTimes(d: Complex)
    ensures Mul(One, d) == d
  {}

  /** Scaling by `e` and then by `1 / e` changes nothing. */
  lemma UnscaleOne(e: real, d: Complex)
    requires e != 0.0
    ensures Scale(1.0 / e, Scale(e, d)) == d
  {}

  /**
    The PQ update of a sweep satisfies the bus power equation
    `P + jQ == conj(V) * (Ykk * V_new / e1 + YV)`, with `V` the voltage before
    the update and `YV` taken over the new voltages of the buses before `k`
    and the snapshot voltages of the buses after it.
  */
  lemma {:induction false} PqUpdateSolvesBusEquation(y: seq<seq<Complex>>, buses: seq<Bus>, pu: PerUnitData, abs: Complex -> real,
                                  snap: seq<Complex>, k: nat)
    requires IsSquare(y, |buses|) && FitsBuses(pu, |buses|) && |snap| == |buses|
    requires k < |buses| && buses[k].tag == PQ && y[k][k] != Zero && snap[k] != Zero
    ensures var v := SweepPrefix(y, buses, pu, abs, snap, |buses|);
            Mul(Conj(snap[k]), Add(Scale(1.0 / E1, Mul(y[k][k], v[k])), OthersSum(y[k], v[..k] + snap[k..], k, |buses|)))
            == Complex(pu.p[k], pu.q[k])
  {
    SweepAt(y, buses, pu, abs, snap, k);
    GaussSeidelOrder(y, buses, pu, abs, snap, k);
    var w := SweepPrefix(y, buses, pu, abs, snap, k);
    AcceleratedSolvesBusEquation(E1, y[k][k], Complex(pu.p[k], pu.q[k]), snap[k], OthersSum(y[k], w, k, |w|));
  }

  /** `YV` plus the diagonal term is the whole row product `np.dot(Y[k], v)`. */
  lemma {:induction false} OthersSumPlusDiagonal(row: seq<Complex>, v: seq<Complex>, k: nat, upto: nat)
    requires upto <= |row| && upto <= |v| && k < |row| && k < |v|
    ensures Add(OthersSum(row, v, k, upto), if k < upto then Mul(row[k], v[k]) else Zero) == Dot(row, v, upto)
  {
    if upto > 0 {
      var j := upto - 1;
      var rest := OthersSum(row, v, k, j);
      OthersSumPlusDiagonal(row, v, k, j);
      if j == k {
        AddZero(rest);
      } else {
        AddSwap(rest, Mul(row[j], v[j]), if k < j then Mul(row[k], v[k]) else Zero);
      }
    }
  }

  lemma AddZero(a: Complex)
    ensures Add(a, Zero) == a
  {}

  lemma AddSwap(a: Complex, b: Complex, c: Complex)
    ensures Add(Add(a, b), c) == Add(Add(a, c), b)
  {}

  /**
    The reactive power a PV update uses is the bus's calculated injection
    `-Im(conj(V) * (Y[k] . V))` minus its reactive load.
  */
  lemma {:induction false} PvReactiveIsRowInjection(row: seq<Complex>, v: seq<Complex>, k: nat, qLoad: real)
    requires |row| == |v| && k < |v|
    ensures PvNetReactive(row[k], OthersSum(row, v, k, |v|), v[k], qLoad) == -Mul(Conj(v[k]), Dot(row, v, |v|)).im - qLoad
  {
    OthersSumPlusDiagonal(row, v, k, |v|);
  }

  /**
    The sweep error is the maximum of the changes of the visited non-slack
    buses: no smaller than any of them, and zero or equal to one of them.
  */
  lemma {:induction false} SweepErrorIsMax(y: seq<seq<Complex>>, buses: seq<Bus>, pu: PerUnitData, abs: Complex -> real,
                                           snap: seq<Complex>, upto: nat)
    requires IsSquare(y, |buses|) && FitsBuses(pu, |buses|)
    requires |snap| == |buses| && upto <= |buses|
    ensures var v := SweepPrefix(y, buses, pu, abs, snap, |buses|);
            var e := SweepError(y, buses, pu, abs, snap, upto);
            (forall j :: 0 <= j < upto && buses[j].tag != Slack ==> abs(Sub(v[j], snap[j])) <= e)
            && (e == 0.0 || exists j :: 0 <= j < upto && buses[j].tag != Slack && e == abs(Sub(v[j], snap[j])))
    ensures (forall z :: 0.0 <= abs(z)) ==> 0.0 <= SweepError(y, buses, pu, abs, snap, upto)
  {
    if upto > 0 {
      SweepErrorIsMax(y, buses, pu, abs, snap, upto - 1);
      PrefixKeepsVisited(y, buses, pu, abs, snap, upto, |buses|);
    }
  }

  /**
    The loop only ever runs sweeps: a bus that is neither PQ nor PV keeps its
    starting voltage; the count never passes `kMax`; the loop ends with the
    error within tolerance or the count at the cap; and when it runs no sweep
    it returns what it started from.
  */
  lemma {:induction false} IterateProperties(y: seq<seq<Complex>>, buses: seq<Bus>, pu: PerUnitData, abs: Complex -> real,
                                             errMax: real, kMax: int, v: seq<Complex>, err: real, count: int)
    requires IsSquare(y, |buses|) && FitsBuses(pu, |buses|) && |v| == |buses|
    ensures var r := Iterate(y, buses, pu, abs, errMax, kMax, v, err, count);
            && (forall j :: 0 <= j < |buses| && buses[j].tag != PQ && buses[j].tag != PV ==> r.voltages[j] == v[j])
            && count <= r.iterations
            && (count <= kMax ==> r.iterations <= kMax)
            && (r.error <= errMax || r.iterations >= kMax)
            && (r.iterations == count <==> !(err > errMax && count < kMax))
            && (r.iterations == count ==> r == Outcome(v, count, err))
    decreases kMax - count
  {
    if err > errMax && count < kMax {
      SweepKeepsFixedBuses(y, buses, pu, abs, v);
      IterateProperties(y, buses, pu, abs, errMax, kMax, SweepPrefix(y, buses, pu, abs, v, |buses|),
                        SweepError(y, buses, pu, abs, v, |buses|), count + 1);
    }
  }

  /**
    With `abs` the complex modulus, every PV bus ends the loop with its
    starting magnitude, and the error after at least one sweep is non-negative.
  */
  lemma {:induction false} IterateHoldsPvMagnitude(y: seq<seq<Complex>>, buses: seq<Bus>, pu: PerUnitData, abs: Complex -> real,
                                                   errMax: real, kMax: int, v: seq<Complex>, err: real, count: int)
    requires IsSquare(y, |buses|) && FitsBuses(pu, |buses|) && |v| == |buses|
    requires IsModulus(abs)
    ensures var r := Iterate(y, buses, pu, abs, errMax, kMax, v, err, count);
            && (forall j :: 0 <= j < |buses| && buses[j].tag == PV ==> abs(r.voltages[j]) == abs(v[j]))
            && (r.iterations != count ==> 0.0 <= r.error)
    decreases kMax - count
  {
    if err > errMax && count < kMax {
      SweepHoldsPvMagnitude(y, buses, pu, abs, v);
      SweepErrorIsMax(y, buses, pu, abs, v, |buses|);
      assert forall z :: 0.0 <= abs(z);
      IterateProperties(y, buses, pu, abs, errMax, kMax, SweepPrefix(y, buses, pu, abs, v, |buses|),
                        SweepError(y, buses, pu, abs, v, |buses|), count + 1);
      IterateHoldsPvMagnitude(y, buses, pu, abs, errMax, kMax, SweepPrefix(y, buses, pu, abs, v, |buses|),
                              SweepError(y, buses, pu, abs, v, |buses|), count + 1);
    }
  }

  /** With the default tolerance and cap, the starting error is above the tolerance: the loop runs at least one sweep and at most 1000. */
  lemma {:induction false} DefaultsSweep(y: seq<seq<Complex>>, buses: seq<Bus>, abs: Complex -> real)
    requires IsSquare(y, |buses|)
    ensures var r := Iterate(y, buses, PerUnit(buses), abs, DefaultErrMax, DefaultKMax, InitialVoltages(buses), InitialError, 0);
            1 <= r.iterations <= DefaultKMax
  {
    IterateProperties(y, buses, PerUnit(buses), abs, DefaultErrMax, DefaultKMax, InitialVoltages(buses), InitialError, 0);
  }

  /**
    `solve_power_flow`: Gauss-Seidel sweeps from the voltage magnitudes of the
    bus table until the error is at most `errMax` or `kMax` sweeps have run.
  */
  method SolvePowerFlow(y: seq<seq<Complex>>, buses: seq<Bus>, abs: Complex -> real, errMax: real, kMax: int)
    returns (v: seq<Complex>, count: int, err: real)
    requires IsSquare(y, |buses|)
    ensures Outcome(v, count, err)
         == Iterate(y, buses, PerUnit(buses), abs, errMax, kMax, InitialVoltages(buses), InitialError, 0)
    ensures |v| == |buses| && 0 <= count && (count <= kMax || count == 0)
    ensures err <= errMax || count >= kMax
    ensures count == 0 <==> !(InitialError > errMax && 0 < kMax)
    ensures count == 0 ==> v == InitialVoltages(buses) && err == InitialError
    ensures forall j :: 0 <= j < |buses| && buses[j].tag != PQ && buses[j].tag != PV ==> v[j] == Complex(buses[j].vm, 0.0)
    ensures IsModulus(abs) ==> forall j :: 0 <= j < |buses| && buses[j].tag == PV ==> abs(v[j]) == abs(Complex(buses[j].vm, 0.0))
    ensures IsModulus(abs) && count > 0 ==> 0.0 <= err
  {
    var pu := PerUnit(buses);
    v := InitialVoltages(buses);
    count := 0;
    err := InitialError;
    while err > errMax && count < kMax
      invariant |v| == |buses| && 0 <= count && (count <= kMax || count == 0)
      invariant Iterate(y, buses, pu, abs, errMax, kMax, v, err, count)
             == Iterate(y, buses, pu, abs, errMax, kMax, InitialVoltages(buses), InitialError, 0)
      decreases kMax - count
    {
      count := count + 1;
      v, err := Sweep(y, buses, pu, abs, v);
    }
    IterateProperties(y, buses, pu, abs, errMax, kMax, InitialVoltages(buses), InitialError, 0);
    if IsModulus(abs) {
      IterateHoldsPvMagnitude(y, buses, pu, abs, errMax, kMax, InitialVoltages(buses), InitialError, 0);
    }
  }

  /**
    One sweep of the `while` loop: `snap` is the copy of the voltages taken
    when the sweep begins; every bus but the slack is updated in table order
    from the vector as the sweep has left it, and the error is the largest
    change of an updated bus.
  */
  method Sweep(y: seq<seq<Complex>>, buses: seq<Bus>, pu: PerUnitData, abs: Complex -> real, snap: seq<Complex>)
    returns (v: seq<Complex>, err: real)
    requires IsSquare(y, |buses|) && FitsBuses(pu, |buses|) && |snap| == |buses|
    ensures v == SweepPrefix(y, buses, pu, abs, snap, |buses|)
    ensures err == SweepError(y, buses, pu, abs, snap, |buses|)
  {
    v := snap;
    err := 0.0;
    for k := 0 to |buses|
      invariant v == SweepPrefix(y, buses, pu, abs, snap, k)
      invariant err == SweepError(y, buses, pu, abs, snap, k)
    {
      if buses[k].tag == Slack {
        continue;
      }
      var yv := OthersSum(y[k], v, k, |v|);
      if buses[k].tag == PQ {
        if y[k][k] == Zero || v[k] == Zero {
          v := v[k := snap[k]];
        } else {
          v := v[k := Accelerated(E1, y[k][k], Complex(pu.p[k], pu.q[k]), v[k], yv)];
        }
      } else if buses[k].tag == PV {
        if y[k][k] == Zero || v[k] == Zero {
          v := v[k := snap[k]];
        } else {
          var qLiq := PvNetReactive(y[k][k], yv, v[k], pu.qLoad[k]);
          v := v[k := Accelerated(E2, y[k][k], Complex(pu.p[k], qLiq), v[k], yv)];
          if abs(v[k]) == 0.0 {
            v := v[k := snap[k]];
          } else {
            v := v[k := Scale(abs(snap[k]), DivReal(v[k], abs(v[k])))];
          }
        }
      }
      err := Max(err, abs(Sub(v[k], snap[k])));
    }
  }
}
