/**
  The Newton-Raphson solver `newton_raphson_power_flow`. Angles start at
  zero and magnitudes at the bus table's values; every pass computes the
  calculated powers, the mismatch vector and, unless the mismatch is already
  below the tolerance, the Jacobian, solves for the correction, applies it
  damped to the angle and magnitude unknowns and clamps the PQ magnitudes.

  `np.cos`/`np.sin` are the parameters `cos` and `sin`; `np.linalg.solve`
  is the parameter `solve`, which either returns a vector of the right-hand
  side's length or reports a singular matrix (`None`).
*/
module NewtonRaphson {
  import opened Wrappers
  import opened ComplexNumbers
  import opened Network
  import opened BusIndex
  import opened CalculatedPower
  import opened Jacobian

  /** The defaults of `max_iter`, `tol` and `damping`. */
  const DefaultMaxIter := 30
  const DefaultTol := 0.000001
  const DefaultDamping := 1.0

  /** The interval `np.clip` holds the PQ magnitudes to after every update. */
  const VMin := 0.9
  const VMax := 1.1

  /**
    The ways a run ends in an exception: no slack bus (`np.where(...)[0][0]`
    on an empty array), `max_iter <= 0` (the return reads the unbound loop
    variable), an empty mismatch vector (`np.max` of an empty array, when
    every bus is a slack bus or of an unknown type) and a singular Jacobian.
  */
  datatype NrError = NoSlackBus | NoIterations | EmptyMismatch | SingularJacobian

  /** The returned triple: bus voltages `V * exp(j*theta)`, `it + 1` and the last max |mismatch|. */
  datatype NrOutcome = NrOutcome(voltages: seq<Complex>, iterations: int, error: real)

  /** `np.linalg.solve`: a solution, or `None` for a singular matrix. */
  type Solver = (seq<seq<real>>, seq<real>) -> Option<seq<real>>

  /** A solution has one entry per entry of the right-hand side. */
  ghost predicate SolveKeepsLength(solve: Solver) {
    forall m, b :: solve(m, b).Some? ==> |solve(m, b).value| == |b|
  }

  /** Everything a pass reads that does not change from pass to pass. */
  datatype Problem = Problem(y: seq<seq<Complex>>, p: seq<real>, q: seq<real>, varTheta: seq<nat>, varV: seq<nat>,
                             maxIter: int, tol: real, damping: real,
                             cos: real -> real, sin: real -> real, solve: Solver)

  /** The problem fits a network of `n` buses. */
  ghost predicate Ready(pr: Problem, n: nat) {
    IsSquare(pr.y, n) && |pr.p| == n && |pr.q| == n
    && InRange(pr.varTheta, n) && InRange(pr.varV, n) && SolveKeepsLength(pr.solve)
  }

  function Abs(x: real): (r: real)
    ensures 0.0 <= r && (r == x || r == -x)
  {
    if x < 0.0 then -x else x
  }

  /** `np.max(np.abs(s))`: an upper bound of every |s[a]| that is one of them. */
  function MaxAbs(s: seq<real>): (m: real)
    requires |s| > 0
    ensures forall a :: 0 <= a < |s| ==> Abs(s[a]) <= m
    ensures exists a :: 0 <= a < |s| && m == Abs(s[a])
  {
    if |s| == 1 then Abs(s[0])
    else
      var m := MaxAbs(s[..|s| - 1]);
      var last := Abs(s[|s| - 1]);
      assert forall a :: 0 <= a < |s| - 1 ==> s[..|s| - 1][a] == s[a];
      if last > m then last else m
  }

  /**
    `np.concatenate([dP, dQ])`: the active mismatches of the angle unknowns
    in their order, then the reactive mismatches of the magnitude unknowns.
  */
  function Mismatch(p: seq<real>, q: seq<real>, pCalc: seq<real>, qCalc: seq<real>, varTheta: seq<nat>, varV: seq<nat>): (m: seq<real>)
    requires |q| == |p| && |pCalc| == |p| && |qCalc| == |p|
    requires InRange(varTheta, |p|) && InRange(varV, |p|)
    ensures |m| == |varTheta| + |varV|
    ensures forall a :: 0 <= a < |varTheta| ==> m[a] == p[varTheta[a]] - pCalc[varTheta[a]]
    ensures forall a :: 0 <= a < |varV| ==> m[|varTheta| + a] == q[varV[a]] - qCalc[varV[a]]
  {
    seq(|varTheta|, a requires 0 <= a < |varTheta| => p[varTheta[a]] - pCalc[varTheta[a]])
    + seq(|varV|, a requires 0 <= a < |varV| => q[varV[a]] - qCalc[varV[a]])
  }

  /** `damping * dx`. */
  function ScaledBy(c: real, s: seq<real>): (r: seq<real>)
    ensures |r| == |s| && forall a :: 0 <= a < |s| ==> r[a] == c * s[a]
  {
    seq(|s|, a requires 0 <= a < |s| => c * s[a])
  }

  /**
    `s[idx] += d`, one index after the other. Positions outside `idx` keep
    their values; with distinct indices this is numpy's fancy-index update
    (`AddedAtDistinct`).
  */
  function AddedAt(s: seq<real>, idx: seq<nat>, d: seq<real>): (r: seq<real>)
    requires InRange(idx, |s|) && |d| == |idx|
    ensures |r| == |s|
    ensures forall j :: 0 <= j < |s| && j !in idx ==> r[j] == s[j]
  {
    if |idx| == 0 then s
    else
      var last := |idx| - 1;
      var front := AddedAt(s, idx[..last], d[..last]);
      assert forall j :: j !in idx ==> j !in idx[..last] && j != idx[last];
      front[idx[last] := front[idx[last]] + d[last]]
  }

  /** `np.clip(x, lo, hi)`. */
  function Clip(x: real, lo: real, hi: real): (r: real)
    requires lo <= hi
    ensures lo <= r <= hi
    ensures lo <= x <= hi ==> r == x
    ensures x < lo ==> r == lo
    ensures hi < x ==> r == hi
  {
    if x < lo then lo else if x > hi then hi else x
  }

  /** `s[idx] = np.clip(s[idx], lo, hi)`: the positions in `idx` end up in `[lo, hi]`, the others keep their values. */
  function ClippedAt(s: seq<real>, idx: seq<nat>, lo: real, hi: real): (r: seq<real>)
    requires InRange(idx, |s|) && lo <= hi
    ensures |r| == |s|
    ensures forall j :: 0 <= j < |s| && j !in idx ==> r[j] == s[j]
    ensures forall a :: 0 <= a < |idx| ==> lo <= r[idx[a]] <= hi
  {
    if |idx| == 0 then s
    else
      var last := |idx| - 1;
      var front := ClippedAt(s, idx[..last], lo, hi);
      assert forall a :: 0 <= a < last ==> idx[..last][a] == idx[a];
      assert forall j :: j !in idx ==> j !in idx[..last] && j != idx[last];
      front[idx[last] := Clip(front[idx[last]], lo, hi)]
  }

  /** `theta[var_theta] += damping * dx[:n_theta]`. */
  function NewAngles(pr: Problem, th: seq<real>, dx: seq<real>): (r: seq<real>)
    requires InRange(pr.varTheta, |th|) && |dx| == |pr.varTheta| + |pr.varV|
    ensures |r| == |th|
  {
    AddedAt(th, pr.varTheta, ScaledBy(pr.damping, dx[..|pr.varTheta|]))
  }

  /** `V[var_V] += damping * dx[n_theta:]` followed by the clamp to `[0.9, 1.1]`. */
  function NewMagnitudes(pr: Problem, vm: seq<real>, dx: seq<real>): (r: seq<real>)
    requires InRange(pr.varV, |vm|) && |dx| == |pr.varTheta| + |pr.varV|
    ensures |r| == |vm|
    ensures MagnitudesNonzero(r, pr.varV)
  {
    ClippedAt(AddedAt(vm, pr.varV, ScaledBy(pr.damping, dx[|pr.varTheta|..])), pr.varV, VMin, VMax)
  }

  /** How one pass ends: the run stops with `result`, or the correction `dx` is applied after a pass whose max |mismatch| was `err`. */
  datatype Step = Stop(result: Result<NrOutcome, NrError>) | Continue(dx: seq<real>, err: real)

  /**
    Pass `it` of the `for it in range(max_iter)` loop from magnitudes `vm`
    and angles `th`: the mismatch of the calculated powers, the convergence
    test, the Jacobian and the linear solve.
  */
  function PassStep(pr: Problem, vm: seq<real>, th: seq<real>, it: int): (s: Step)
    requires Ready(pr, |vm|) && |th| == |vm| && MagnitudesNonzero(vm, pr.varV)
    ensures s == Stop(Failure(EmptyMismatch)) <==> |pr.varTheta| + |pr.varV| == 0
    ensures s.Stop? && s.result.Failure? ==> s.result.error == EmptyMismatch || s.result.error == SingularJacobian
    ensures s.Stop? && s.result.Success? ==>
      s.result.value == NrOutcome(Phasors(vm, th, pr.cos, pr.sin), it + 1, s.result.value.error)
      && 0.0 <= s.result.value.error < pr.tol
    ensures s.Continue? ==> |s.dx| == |pr.varTheta| + |pr.varV| && pr.tol <= s.err && 0.0 <= s.err
  {
    var pCalc := CalcP(pr.y, vm, th, pr.cos, pr.sin);
    var qCalc := CalcQ(pr.y, vm, th, pr.cos, pr.sin);
    var mis := Mismatch(pr.p, pr.q, pCalc, qCalc, pr.varTheta, pr.varV);
    if |mis| == 0 then Stop(Failure(EmptyMismatch))
    else
      var err := MaxAbs(mis);
      if err < pr.tol then Stop(Success(NrOutcome(Phasors(vm, th, pr.cos, pr.sin), it + 1, err)))
      else
        match pr.solve(JacobianMatrix(pr.y, vm, th, pr.cos, pr.sin, pCalc, qCalc, pr.varTheta, pr.varV), mis)
        case None => Stop(Failure(SingularJacobian))
        case Some(dx) => Continue(dx, err)
  }

  /**
    The passes `it, it + 1, ...` of the loop, starting from magnitudes `vm`
    and angles `th`; `lastErr` is the max |mismatch| of the pass before,
    returned when the loop runs out.
  */
  function Passes(pr: Problem, vm: seq<real>, th: seq<real>, it: int, lastErr: real): Result<NrOutcome, NrError>
    requires Ready(pr, |vm|) && |th| == |vm| && MagnitudesNonzero(vm, pr.varV) && 0 <= it <= pr.maxIter
    decreases pr.maxIter - it
  {
    if it == pr.maxIter then Success(NrOutcome(Phasors(vm, th, pr.cos, pr.sin), it, lastErr))
    else
      match PassStep(pr, vm, th, it)
      case Stop(r) => r
      case Continue(dx, err) => Passes(pr, NewMagnitudes(pr, vm, dx), NewAngles(pr, th, dx), it + 1, err)
  }

  /** The "VOLTAGE MAGNITUDE" column. */
  function InitialMagnitudes(buses: seq<Bus>): (vm: seq<real>)
    ensures |vm| == |buses| && forall i :: 0 <= i < |buses| ==> vm[i] == buses[i].vm
  {
    seq(|buses|, i requires 0 <= i < |buses| => buses[i].vm)
  }

  /** `np.zeros(n)`. */
  function Zeros(n: nat): (z: seq<real>)
    ensures |z| == n && forall i :: 0 <= i < n ==> z[i] == 0.0
  {
    seq(n, _ => 0.0)
  }

  /** Every PQ bus starts with a non-zero magnitude (the dP/dV diagonal divides by it). */
  predicate PqMagnitudesNonzero(buses: seq<Bus>) {
    forall i :: 0 <= i < |buses| && buses[i].tag == PQ ==> buses[i].vm != 0.0
  }

  /** The net injections in per unit and the two lists of unknowns of a bus table. */
  function ProblemOf(y: seq<seq<Complex>>, buses: seq<Bus>, maxIter: int, tol: real, damping: real,
                     cos: real -> real, sin: real -> real, solve: Solver): (pr: Problem)
    requires IsSquare(y, |buses|) && SolveKeepsLength(solve)
    ensures Ready(pr, |buses|)
    ensures PqMagnitudesNonzero(buses) ==> MagnitudesNonzero(InitialMagnitudes(buses), pr.varV)
  {
    var tags := Tags(buses);
    var p := seq(|buses|, i requires 0 <= i < |buses| => NetActive(buses[i]));
    var q := seq(|buses|, i requires 0 <= i < |buses| => NetReactive(buses[i]));
    Problem(y, p, q, VarTheta(tags), VarV(tags), maxIter, tol, damping, cos, sin, solve)
  }

  /** The whole run of `newton_raphson_power_flow`, from the bus table to the returned triple or the exception. */
  function NewtonRaphson(y: seq<seq<Complex>>, buses: seq<Bus>, maxIter: int, tol: real, damping: real,
                         cos: real -> real, sin: real -> real, solve: Solver): Result<NrOutcome, NrError>
    requires IsSquare(y, |buses|) && SolveKeepsLength(solve) && PqMagnitudesNonzero(buses)
  {
    if |Where(Tags(buses), Slack)| == 0 then Failure(NoSlackBus)
    else if maxIter <= 0 then Failure(NoIterations)
    else
      var pr := ProblemOf(y, buses, maxIter, tol, damping, cos, sin, solve);
      Passes(pr, InitialMagnitudes(buses), Zeros(|buses|), 0, 0.0)
  }

  /** The in-place update `a[idx] += d`, index by index. */
  method AddAt(a: array<real>, idx: seq<nat>, d: seq<real>)
    requires InRange(idx, a.Length) && |d| == |idx|
    modifies a
    ensures a[..] == AddedAt(old(a[..]), idx, d)
  {
    for k := 0 to |idx|
      invariant a[..] == AddedAt(old(a[..]), idx[..k], d[..k])
    {
      assert idx[..k + 1][..k] == idx[..k] && d[..k + 1][..k] == d[..k];
      a[idx[k]] := a[idx[k]] + d[k];
    }
    assert idx[..|idx|] == idx && d[..|d|] == d;
  }

  /** The in-place clamp `a[idx] = np.clip(a[idx], lo, hi)`, index by index. */
  method ClipAt(a: array<real>, idx: seq<nat>, lo: real, hi: real)
    requires InRange(idx, a.Length) && lo <= hi
    modifies a
    ensures a[..] == ClippedAt(old(a[..]), idx, lo, hi)
  {
    for k := 0 to |idx|
      invariant a[..] == ClippedAt(old(a[..]), idx[..k], lo, hi)
    {
      assert idx[..k + 1][..k] == idx[..k];
      a[idx[k]] := Clip(a[idx[k]], lo, hi);
    }
    assert idx[..|idx|] == idx;
  }

  /**
    `newton_raphson_power_flow`: `V` and `theta` are arrays updated in place
    pass by pass; `P_calc`, `Q_calc` and `J` are rebuilt by every pass.
  */
  method NewtonRaphsonPowerFlow(y: seq<seq<Complex>>, buses: seq<Bus>, maxIter: int, tol: real, damping: real,
                                cos: real -> real, sin: real -> real, solve: Solver)
    returns (r: Result<NrOutcome, NrError>)
    requires IsSquare(y, |buses|) && SolveKeepsLength(solve) && PqMagnitudesNonzero(buses)
    ensures r == NewtonRaphson(y, buses, maxIter, tol, damping, cos, sin, solve)
  {
    var n := |buses|;
    var vm := new real[n](i requires 0 <= i < n => buses[i].vm);
    var th := new real[n](_ => 0.0);
    assert vm[..] == InitialMagnitudes(buses) && th[..] == Zeros(n);
    var tags := Tags(buses);
    if |Where(tags, Slack)| == 0 {
      return Failure(NoSlackBus);
    }
    var pr := ProblemOf(y, buses, maxIter, tol, damping, cos, sin, solve);
    if maxIter <= 0 {
      return Failure(NoIterations);
    }
    var err := 0.0;
    for it := 0 to maxIter
      invariant MagnitudesNonzero(vm[..], pr.varV)
      invariant Passes(pr, vm[..], th[..], it, err) == NewtonRaphson(y, buses, maxIter, tol, damping, cos, sin, solve)
    {
      var step := Pass(pr, vm, th, it);
      if step.Stop? {
        return step.result;
      }
      err := step.err;
    }
    return Success(NrOutcome(Phasors(vm[..], th[..], cos, sin), maxIter, err));
  }

  /**
    One pass of the loop: the calculated powers, the mismatch, and either
    the end of the run or the damped, clamped update of `V` and `theta` in
    place.
  */
  method Pass(pr: Problem, vm: array<real>, th: array<real>, it: nat) returns (step: Step)
    requires vm != th && th.Length == vm.Length && Ready(pr, vm.Length) && MagnitudesNonzero(vm[..], pr.varV)
    modifies vm, th
    ensures step == PassStep(pr, old(vm[..]), old(th[..]), it)
    ensures step.Continue? ==>
      vm[..] == NewMagnitudes(pr, old(vm[..]), step.dx) && th[..] == NewAngles(pr, old(th[..]), step.dx)
    ensures step.Stop? ==> unchanged(vm, th)
  {
    var pCalc, qCalc := CalculatedPowers(pr.y, vm[..], th[..], pr.cos, pr.sin);
    var mis := Mismatch(pr.p, pr.q, pCalc[..], qCalc[..], pr.varTheta, pr.varV);
    if |mis| == 0 {
      return Stop(Failure(EmptyMismatch));
    }
    var err := MaxAbs(mis);
    if err < pr.tol {
      return Stop(Success(NrOutcome(Phasors(vm[..], th[..], pr.cos, pr.sin), it + 1, err)));
    }
    var J := BuildJacobian(pr.y, vm[..], th[..], pr.cos, pr.sin, pCalc[..], qCalc[..], pr.varTheta, pr.varV);
    var sol := pr.solve(Rows(J), mis);
    if sol.None? {
      return Stop(Failure(SingularJacobian));
    }
    var dx := sol.value;
    var nT := |pr.varTheta|;
    AddAt(th, pr.varTheta, ScaledBy(pr.damping, dx[..nT]));
    AddAt(vm, pr.varV, ScaledBy(pr.damping, dx[nT..]));
    ClipAt(vm, pr.varV, VMin, VMax);
    step := Continue(dx, err);
  }

  /** With distinct indices, `AddedAt` adds `d[a]` to position `idx[a]`, as numpy's `s[idx] += d` does. */
  lemma {:induction false} AddedAtDistinct(s: seq<real>, idx: seq<nat>, d: seq<real>)
    requires InRange(idx, |s|) && |d| == |idx| && Distinct(idx)
    ensures forall a :: 0 <= a < |idx| ==> AddedAt(s, idx, d)[idx[a]] == s[idx[a]] + d[a]
  {
    if |idx| > 0 {
      var last := |idx| - 1;
      var front := AddedAt(s, idx[..last], d[..last]);
      AddedAtDistinct(s, idx[..last], d[..last]);
      assert idx[last] !in idx[..last];
    }
  }

  /** With distinct indices, `ClippedAt` clamps each position of `idx` once, as numpy's `s[idx] = np.clip(s[idx], lo, hi)` does. */
  lemma {:induction false} ClippedAtDistinct(s: seq<real>, idx: seq<nat>, lo: real, hi: real)
    requires InRange(idx, |s|) && lo <= hi && Distinct(idx)
    ensures forall a :: 0 <= a < |idx| ==> ClippedAt(s, idx, lo, hi)[idx[a]] == Clip(s[idx[a]], lo, hi)
  {
    if |idx| > 0 {
      var last := |idx| - 1;
      ClippedAtDistinct(s, idx[..last], lo, hi);
      assert idx[last] !in idx[..last];
    }
  }

  /**
    What the run keeps: buses that are neither PQ nor PV keep their
    magnitude and angle 0, PV buses their magnitude, and PQ buses either
    their magnitude (before any update) or one within `[0.9, 1.1]`.
  */
  ghost predicate Held(buses: seq<Bus>, vm: seq<real>, th: seq<real>, updated: bool) {
    |vm| == |buses| && |th| == |buses|
    && forall i :: 0 <= i < |buses| ==>
         (buses[i].tag != PQ && buses[i].tag != PV ==> vm[i] == buses[i].vm && th[i] == 0.0)
         && (buses[i].tag == PV ==> vm[i] == buses[i].vm)
         && (buses[i].tag == PQ ==> if updated then VMin <= vm[i] <= VMax else vm[i] == buses[i].vm)
  }

  /** `Held`, read off the returned complex voltages `V * exp(j*theta)`. */
  ghost predicate VoltagesHeld(buses: seq<Bus>, v: seq<Complex>, updated: bool, cos: real -> real, sin: real -> real) {
    |v| == |buses|
    && forall i :: 0 <= i < |buses| ==>
         (buses[i].tag != PQ && buses[i].tag != PV ==> v[i] == Polar(buses[i].vm, 0.0, cos, sin))
         && (buses[i].tag == PV ==> exists t :: v[i] == Polar(buses[i].vm, t, cos, sin))
         && (buses[i].tag == PQ ==> exists m, t :: v[i] == Polar(m, t, cos, sin)
                                                 && if updated then VMin <= m <= VMax else m == buses[i].vm)
  }

  /** The promises of a successful run. */
  ghost predicate Sound(buses: seq<Bus>, o: NrOutcome, maxIter: int, tol: real, cos: real -> real, sin: real -> real) {
    1 <= o.iterations <= maxIter
    && (o.iterations < maxIter ==> o.error < tol)
    && 0.0 <= o.error
    && (VoltagesHeld(buses, o.voltages, true, cos, sin) || VoltagesHeld(buses, o.voltages, false, cos, sin))
    && (o.iterations >= 2 ==> VoltagesHeld(buses, o.voltages, true, cos, sin))
  }

  /** The unknowns of a problem are those of the bus table. */
  predicate UnknownsOf(pr: Problem, buses: seq<Bus>) {
    pr.varTheta == VarTheta(Tags(buses)) && pr.varV == VarV(Tags(buses))
  }

  /** The complex voltages of a kept state keep it too. */
  lemma {:induction false} HeldVoltages(buses: seq<Bus>, vm: seq<real>, th: seq<real>, updated: bool, cos: real -> real, sin: real -> real)
    requires Held(buses, vm, th, updated)
    ensures VoltagesHeld(buses, Phasors(vm, th, cos, sin), updated, cos, sin)
  {
    var v := Phasors(vm, th, cos, sin);
    forall i | 0 <= i < |buses|
      ensures buses[i].tag == PV ==> exists t :: v[i] == Polar(buses[i].vm, t, cos, sin)
      ensures buses[i].tag == PQ ==> exists m, t :: v[i] == Polar(m, t, cos, sin)
                                                  && if updated then VMin <= m <= VMax else m == buses[i].vm
    {
      assert v[i] == Polar(vm[i], th[i], cos, sin);
    }
  }

  /** One damped, clamped update keeps what `Held` describes, with the PQ magnitudes now clamped. */
  lemma {:induction false} UpdateHolds(pr: Problem, buses: seq<Bus>, vm: seq<real>, th: seq<real>, dx: seq<real>, updated: bool)
    requires Ready(pr, |buses|) && UnknownsOf(pr, buses) && |dx| == |pr.varTheta| + |pr.varV|
    requires Held(buses, vm, th, updated)
    ensures Held(buses, NewMagnitudes(pr, vm, dx), NewAngles(pr, th, dx), true)
  {
    var tags := Tags(buses);
    UnknownsArePqAndPv(tags);
    var vm' := NewMagnitudes(pr, vm, dx);
    var th' := NewAngles(pr, th, dx);
    var added := AddedAt(vm, pr.varV, ScaledBy(pr.damping, dx[|pr.varTheta|..]));
    forall i | 0 <= i < |buses|
      ensures buses[i].tag != PQ && buses[i].tag != PV ==> vm'[i] == buses[i].vm && th'[i] == 0.0
      ensures buses[i].tag == PV ==> vm'[i] == buses[i].vm
      ensures buses[i].tag == PQ ==> VMin <= vm'[i] <= VMax
    {
      assert tags[i] == buses[i].tag;
      if buses[i].tag == PQ {
        assert i in pr.varV;
        var a :| 0 <= a < |pr.varV| && pr.varV[a] == i;
      } else {
        assert i !in pr.varV;
        assert vm'[i] == added[i] == vm[i];
      }
    }
  }

  /**
    The passes from `it` on keep `Held`; a run that stops early stops on a
    max |mismatch| below the tolerance, and the count stays within `1 ..
    max_iter`.
  */
  lemma {:induction false} PassesAreSound(pr: Problem, buses: seq<Bus>, vm: seq<real>, th: seq<real>, it: int, lastErr: real)
    requires Ready(pr, |buses|) && UnknownsOf(pr, buses) && 0 < pr.maxIter
    requires Held(buses, vm, th, it > 0) && MagnitudesNonzero(vm, pr.varV) && 0 <= it <= pr.maxIter
    requires it > 0 ==> 0.0 <= lastErr
    ensures SoundFrom(buses, Passes(pr, vm, th, it, lastErr), it, pr.maxIter, pr.tol, pr.cos, pr.sin)
    decreases pr.maxIter - it
  {
    if it == pr.maxIter {
      LastPassSound(buses, vm, th, it, lastErr, pr.maxIter, pr.tol, pr.cos, pr.sin);
    } else {
      var step := PassStep(pr, vm, th, it);
      if step.Continue? {
        var vm', th' := NewMagnitudes(pr, vm, step.dx), NewAngles(pr, th, step.dx);
        UpdateHolds(pr, buses, vm, th, step.dx, it > 0);
        PassesAreSound(pr, buses, vm', th', it + 1, step.err);
        assert Passes(pr, vm, th, it, lastErr) == Passes(pr, vm', th', it + 1, step.err);
      } else if step.result.Success? {
        ConvergedSound(buses, vm, th, it, step.result.value.error, pr.maxIter, pr.tol, pr.cos, pr.sin);
      }
    }
  }

  /** A successful result from pass `it` on keeps the promises of a run, with at least `it` passes. */
  ghost predicate SoundFrom(buses: seq<Bus>, r: Result<NrOutcome, NrError>, it: int, maxIter: int, tol: real, cos: real -> real, sin: real -> real) {
    r.Success? ==> Sound(buses, r.value, maxIter, tol, cos, sin) && it <= r.value.iterations
  }

  /** A loop that runs out returns the voltages of the last update. */
  lemma {:induction false} LastPassSound(buses: seq<Bus>, vm: seq<real>, th: seq<real>, it: int, lastErr: real,
                      maxIter: int, tol: real, cos: real -> real, sin: real -> real)
    requires 0 < it == maxIter && Held(buses, vm, th, true) && 0.0 <= lastErr
    ensures SoundFrom(buses, Success(NrOutcome(Phasors(vm, th, cos, sin), it, lastErr)), it, maxIter, tol, cos, sin)
  {
    HeldVoltages(buses, vm, th, true, cos, sin);
  }

  /** A pass that converges returns the voltages it started from, with its error below the tolerance. */
  lemma {:induction false} ConvergedSound(buses: seq<Bus>, vm: seq<real>, th: seq<real>, it: int, err: real,
                       maxIter: int, tol: real, cos: real -> real, sin: real -> real)
    requires 0 <= it < maxIter && Held(buses, vm, th, it > 0) && 0.0 <= err < tol
    ensures SoundFrom(buses, Success(NrOutcome(Phasors(vm, th, cos, sin), it + 1, err)), it, maxIter, tol, cos, sin)
  {
    HeldVoltages(buses, vm, th, it > 0, cos, sin);
  }

  /** With no unknowns the first pass ends in `EmptyMismatch`. */
  lemma {:induction false} PassesWithoutUnknowns(pr: Problem, vm: seq<real>, th: seq<real>, it: int, lastErr: real)
    requires Ready(pr, |vm|) && |th| == |vm| && MagnitudesNonzero(vm, pr.varV) && 0 <= it < pr.maxIter
    requires |pr.varTheta| + |pr.varV| == 0
    ensures Passes(pr, vm, th, it, lastErr) == Failure(EmptyMismatch)
  {}

  /** With unknowns no pass ends in `EmptyMismatch`, and none raises the errors of the code before the loop. */
  lemma {:induction false} PassesWithUnknowns(pr: Problem, vm: seq<real>, th: seq<real>, it: int, lastErr: real)
    requires Ready(pr, |vm|) && |th| == |vm| && MagnitudesNonzero(vm, pr.varV) && 0 <= it <= pr.maxIter
    requires |pr.varTheta| + |pr.varV| > 0
    ensures Passes(pr, vm, th, it, lastErr) != Failure(EmptyMismatch)
    ensures Passes(pr, vm, th, it, lastErr) != Failure(NoSlackBus)
    ensures Passes(pr, vm, th, it, lastErr) != Failure(NoIterations)
    decreases pr.maxIter - it
  {
    if it < pr.maxIter {
      var step := PassStep(pr, vm, th, it);
      if step.Continue? {
        PassesWithUnknowns(pr, NewMagnitudes(pr, vm, step.dx), NewAngles(pr, th, step.dx), it + 1, step.err);
      }
    }
  }

  /** The table has a slack bus. */
  predicate HasSlack(buses: seq<Bus>) {
    exists i :: 0 <= i < |buses| && buses[i].tag == Slack
  }

  /** The table has a PQ or a PV bus, so there are unknowns. */
  predicate HasUnknowns(buses: seq<Bus>) {
    exists i :: 0 <= i < |buses| && (buses[i].tag == PQ || buses[i].tag == PV)
  }

  /** The slack lookup fails exactly on a table without a slack bus. */
  lemma {:induction false} SlackFound(buses: seq<Bus>)
    ensures |Where(Tags(buses), Slack)| == 0 <==> !HasSlack(buses)
  {
    var found := Where(Tags(buses), Slack);
    if HasSlack(buses) {
      var i :| 0 <= i < |buses| && buses[i].tag == Slack;
      assert Tags(buses)[i] == Slack;
    }
    if |found| > 0 {
      assert 0 <= found[0] < |buses| && buses[found[0]].tag == Slack;
    }
  }

  /** There are unknowns exactly when the table has a PQ or a PV bus. */
  lemma {:induction false} UnknownsFound(buses: seq<Bus>)
    ensures |VarTheta(Tags(buses))| + |VarV(Tags(buses))| == 0 <==> !HasUnknowns(buses)
  {
    var tags := Tags(buses);
    UnknownsArePqAndPv(tags);
    if HasUnknowns(buses) {
      var i :| 0 <= i < |buses| && (buses[i].tag == PQ || buses[i].tag == PV);
      assert tags[i] == buses[i].tag;
      assert i in VarTheta(tags);
    }
    if |VarTheta(tags)| > 0 {
      var i := VarTheta(tags)[0];
      assert i in VarTheta(tags);
      assert 0 <= i < |buses| && (buses[i].tag == PQ || buses[i].tag == PV);
    }
  }

  /** A table without a slack bus fails at the slack lookup, whatever else holds. */
  lemma {:induction false} RunWithoutSlack(y: seq<seq<Complex>>, buses: seq<Bus>, maxIter: int, tol: real, damping: real,
                                           cos: real -> real, sin: real -> real, solve: Solver)
    requires IsSquare(y, |buses|) && SolveKeepsLength(solve) && PqMagnitudesNonzero(buses)
    requires !HasSlack(buses)
    ensures NewtonRaphson(y, buses, maxIter, tol, damping, cos, sin, solve) == Failure(NoSlackBus)
  {
    SlackFound(buses);
  }

  /** With a slack bus and `max_iter <= 0`, the loop never runs and the return fails. */
  lemma {:induction false} RunWithoutIterations(y: seq<seq<Complex>>, buses: seq<Bus>, maxIter: int, tol: real, damping: real,
                                                cos: real -> real, sin: real -> real, solve: Solver)
    requires IsSquare(y, |buses|) && SolveKeepsLength(solve) && PqMagnitudesNonzero(buses)
    requires HasSlack(buses) && maxIter <= 0
    ensures NewtonRaphson(y, buses, maxIter, tol, damping, cos, sin, solve) == Failure(NoIterations)
  {
    SlackFound(buses);
  }

  /** With a slack bus, passes to run and no PQ or PV bus, the first pass fails on the empty mismatch. */
  lemma {:induction false} RunWithoutUnknowns(y: seq<seq<Complex>>, buses: seq<Bus>, maxIter: int, tol: real, damping: real,
                                              cos: real -> real, sin: real -> real, solve: Solver)
    requires IsSquare(y, |buses|) && SolveKeepsLength(solve) && PqMagnitudesNonzero(buses)
    requires HasSlack(buses) && 0 < maxIter && !HasUnknowns(buses)
    ensures NewtonRaphson(y, buses, maxIter, tol, damping, cos, sin, solve) == Failure(EmptyMismatch)
  {
    SlackFound(buses);
    UnknownsFound(buses);
    var pr := ProblemOf(y, buses, maxIter, tol, damping, cos, sin, solve);
    PassesWithoutUnknowns(pr, InitialMagnitudes(buses), Zeros(|buses|), 0, 0.0);
  }

  /**
    With a slack bus, passes to run and unknowns, the run either returns or
    fails on a singular Jacobian: none of the other three failures happens.
  */
  lemma {:induction false} RunWithUnknowns(y: seq<seq<Complex>>, buses: seq<Bus>, maxIter: int, tol: real, damping: real,
                                           cos: real -> real, sin: real -> real, solve: Solver)
    requires IsSquare(y, |buses|) && SolveKeepsLength(solve) && PqMagnitudesNonzero(buses)
    requires HasSlack(buses) && 0 < maxIter && HasUnknowns(buses)
    ensures NewtonRaphson(y, buses, maxIter, tol, damping, cos, sin, solve) != Failure(NoSlackBus)
    ensures NewtonRaphson(y, buses, maxIter, tol, damping, cos, sin, solve) != Failure(NoIterations)
    ensures NewtonRaphson(y, buses, maxIter, tol, damping, cos, sin, solve) != Failure(EmptyMismatch)
  {
    SlackFound(buses);
    UnknownsFound(buses);
    var pr := ProblemOf(y, buses, maxIter, tol, damping, cos, sin, solve);
    PassesWithUnknowns(pr, InitialMagnitudes(buses), Zeros(|buses|), 0, 0.0);
  }

  /**
    Pass `max_iter - 1` ran from magnitudes `vm` and angles `th`, measured a
    max |mismatch| of at least the tolerance and applied its correction `dx`:
    `o` holds the voltages after that update and the mismatch measured before
    it.
  */
  ghost predicate LastUpdate(pr: Problem, vm: seq<real>, th: seq<real>, o: NrOutcome)
    requires Ready(pr, |vm|) && |th| == |vm| && MagnitudesNonzero(vm, pr.varV)
  {
    var step := PassStep(pr, vm, th, pr.maxIter - 1);
    var mis := Mismatch(pr.p, pr.q, CalcP(pr.y, vm, th, pr.cos, pr.sin), CalcQ(pr.y, vm, th, pr.cos, pr.sin),
                        pr.varTheta, pr.varV);
    step.Continue? && |mis| > 0
    && o == NrOutcome(Phasors(NewMagnitudes(pr, vm, step.dx), NewAngles(pr, th, step.dx), pr.cos, pr.sin),
                      pr.maxIter, MaxAbs(mis))
  }

  /** A result that counts `max_iter` passes and an error of at least the tolerance comes from a last update. */
  ghost predicate AtCap(pr: Problem, n: nat, r: Result<NrOutcome, NrError>) {
    r.Success? && r.value.iterations == pr.maxIter && pr.tol <= r.value.error ==>
      exists vm, th :: |vm| == n && |th| == n && Ready(pr, n) && MagnitudesNonzero(vm, pr.varV)
                       && LastUpdate(pr, vm, th, r.value)
  }

  /** A pass that goes on has measured a non-empty mismatch, and its error is the max |mismatch|. */
  lemma ContinueMeasures(pr: Problem, vm: seq<real>, th: seq<real>, it: int)
    requires Ready(pr, |vm|) && |th| == |vm| && MagnitudesNonzero(vm, pr.varV)
    ensures var mis := Mismatch(pr.p, pr.q, CalcP(pr.y, vm, th, pr.cos, pr.sin), CalcQ(pr.y, vm, th, pr.cos, pr.sin),
                                pr.varTheta, pr.varV);
            PassStep(pr, vm, th, it).Continue? ==> |mis| > 0 && PassStep(pr, vm, th, it).err == MaxAbs(mis)
  {}

  /** The last pass either stops, or goes on and its update and error are what the loop returns. */
  lemma {:induction false} LastPassAtCap(pr: Problem, vm: seq<real>, th: seq<real>, lastErr: real)
    requires Ready(pr, |vm|) && |th| == |vm| && MagnitudesNonzero(vm, pr.varV) && 0 < pr.maxIter
    ensures AtCap(pr, |vm|, Passes(pr, vm, th, pr.maxIter - 1, lastErr))
  {
    var step := PassStep(pr, vm, th, pr.maxIter - 1);
    if step.Continue? {
      ContinueMeasures(pr, vm, th, pr.maxIter - 1);
      var vm', th' := NewMagnitudes(pr, vm, step.dx), NewAngles(pr, th, step.dx);
      var o := NrOutcome(Phasors(vm', th', pr.cos, pr.sin), pr.maxIter, step.err);
      assert Passes(pr, vm, th, pr.maxIter - 1, lastErr) == Success(o);
      assert LastUpdate(pr, vm, th, o);
    }
  }

  /**
    A run that reaches the cap without converging returns the voltages of
    the last update together with the max |mismatch| of the state before it.
  */
  lemma {:induction false} PassesAtCap(pr: Problem, vm: seq<real>, th: seq<real>, it: int, lastErr: real)
    requires Ready(pr, |vm|) && |th| == |vm| && MagnitudesNonzero(vm, pr.varV) && 0 <= it < pr.maxIter
    ensures AtCap(pr, |vm|, Passes(pr, vm, th, it, lastErr))
    decreases pr.maxIter - it
  {
    if it + 1 == pr.maxIter {
      LastPassAtCap(pr, vm, th, lastErr);
    } else {
      var step := PassStep(pr, vm, th, it);
      if step.Continue? {
        var vm', th' := NewMagnitudes(pr, vm, step.dx), NewAngles(pr, th, step.dx);
        PassesAtCap(pr, vm', th', it + 1, step.err);
        assert Passes(pr, vm, th, it, lastErr) == Passes(pr, vm', th', it + 1, step.err);
      }
    }
  }

  /**
    A successful run that counts `max_iter` passes and an error of at least
    the tolerance is a run that ran out: its voltages are those after the
    last update and its error the max |mismatch| measured before that update.
  */
  lemma {:induction false} RunAtCap(y: seq<seq<Complex>>, buses: seq<Bus>, maxIter: int, tol: real, damping: real,
                                    cos: real -> real, sin: real -> real, solve: Solver)
    requires IsSquare(y, |buses|) && SolveKeepsLength(solve) && PqMagnitudesNonzero(buses)
    ensures var r := NewtonRaphson(y, buses, maxIter, tol, damping, cos, sin, solve);
            var pr := ProblemOf(y, buses, maxIter, tol, damping, cos, sin, solve);
            r.Success? && r.value.iterations == maxIter && tol <= r.value.error ==>
              exists vm, th :: |vm| == |buses| && |th| == |buses| && Ready(pr, |buses|) && MagnitudesNonzero(vm, pr.varV)
                               && LastUpdate(pr, vm, th, r.value)
  {
    if |Where(Tags(buses), Slack)| != 0 && maxIter > 0 {
      var pr := ProblemOf(y, buses, maxIter, tol, damping, cos, sin, solve);
      PassesAtCap(pr, InitialMagnitudes(buses), Zeros(|buses|), 0, 0.0);
    }
  }

  /**
    A run that returns keeps the slack bus (and any bus of an unknown type)
    at `V * exp(j*0)` and the PV magnitudes, leaves every PQ magnitude at its
    value or within `[0.9, 1.1]` (within it once a second pass has run),
    counts between 1 and `max_iter` passes, and returns before the cap only
    with a max |mismatch| below the tolerance.
  */
  lemma {:induction false} RunSucceeds(y: seq<seq<Complex>>, buses: seq<Bus>, maxIter: int, tol: real, damping: real,
                                       cos: real -> real, sin: real -> real, solve: Solver)
    requires IsSquare(y, |buses|) && SolveKeepsLength(solve) && PqMagnitudesNonzero(buses)
    requires NewtonRaphson(y, buses, maxIter, tol, damping, cos, sin, solve).Success?
    ensures var o := NewtonRaphson(y, buses, maxIter, tol, damping, cos, sin, solve).value;
            |o.voltages| == |buses| && Sound(buses, o, maxIter, tol, cos, sin)
  {
    SlackFound(buses);
    var pr := ProblemOf(y, buses, maxIter, tol, damping, cos, sin, solve);
    PassesAreSound(pr, buses, InitialMagnitudes(buses), Zeros(|buses|), 0, 0.0);
  }
}
