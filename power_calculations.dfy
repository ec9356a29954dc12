/**
  The power post-processor run on a solved voltage vector: the generation
  at every bus (the complex power the bus injects into the network plus its
  load) and, for every branch of the impedance table, the series current,
  the power sent into the branch at its `DE` end and the active and
  reactive losses on its series impedance.
*/
module PowerCalculations {
  import opened Wrappers
  import opened ComplexNumbers
  import opened Network
  import CalculatedPower

  /**
    One row of the impedance table: the 1-based bus labels `DE` (from) and
    `PARA` (to), the series resistance and the series reactance, in per unit.
  */
  datatype Branch = Branch(from: int, to: int, r: real, x: real)

  /** The six result vectors, one entry per bus for the first two and one per branch for the rest. */
  datatype Flows = Flows(pGen: seq<real>, qGen: seq<real>,
                         pFlow: seq<real>, qFlow: seq<real>,
                         pLoss: seq<real>, qLoss: seq<real>)

  /** Indexing the voltage vector with a branch end outside it raises `IndexError` at that branch. */
  datatype FlowError = EndpointOutOfRange(branch: nat)

  /** The admittance matrix and the voltage vector both have one entry per bus of the table. */
  predicate Shaped(v: seq<Complex>, y: seq<seq<Complex>>, buses: seq<Bus>) {
    IsSquare(y, |buses|) && |v| == |buses|
  }

  /** `R + jX`, the series impedance of a branch. */
  function Impedance(br: Branch): Complex {
    Complex(br.r, br.x)
  }

  /** No branch has a zero series impedance. */
  predicate NonzeroImpedances(branches: seq<Branch>) {
    forall k :: 0 <= k < |branches| ==> Impedance(branches[k]) != Zero
  }

  // ---------------------------------------------------------------------
  // Bus generation
  // ---------------------------------------------------------------------

  /** `V[i] * conj(Y[i,:] . V)`: the complex power bus `i` injects into the network. */
  function Injection(y: seq<seq<Complex>>, v: seq<Complex>, i: nat): Complex
    requires IsSquare(y, |v|) && i < |v|
  {
    Mul(v[i], Conj(Dot(y[i], v, |v|)))
  }

  /** `P_gerada[i]`: the active injection plus the active load in per unit. */
  function GeneratedActive(y: seq<seq<Complex>>, v: seq<Complex>, buses: seq<Bus>, i: nat): real
    requires Shaped(v, y, buses) && i < |buses|
  {
    Injection(y, v, i).re + ActiveLoad(buses[i])
  }

  /** `Q_gerada[i]`: minus the imaginary part of the injection, plus the reactive load in per unit. */
  function GeneratedReactive(y: seq<seq<Complex>>, v: seq<Complex>, buses: seq<Bus>, i: nat): real
    requires Shaped(v, y, buses) && i < |buses|
  {
    -Injection(y, v, i).im + ReactiveLoad(buses[i])
  }

  // ---------------------------------------------------------------------
  // Branches
  // ---------------------------------------------------------------------

  /**
    The position in the voltage vector named by a 1-based number: `number - 1`,
    which Python, like every negative index, counts from the end of the
    vector, so the number 0 names the last bus. Labels that fall outside the
    vector either way raise `IndexError`.
  */
  function Endpoint(number: int, n: nat): (e: Option<nat>)
    ensures 1 <= number <= n ==> e == Some(number - 1)
    ensures 1 - n <= number <= 0 ==> e == Some(number - 1 + n)
    ensures e.None? <==> number <= -(n as int) || n < number
  {
    var idx := number - 1;
    if 0 <= idx < n then Some(idx)
    else if -(n as int) <= idx < 0 then Some(idx + n)
    else None
  }

  /** Both ends of the branch name a bus of a vector of `n` voltages. */
  predicate Valid(br: Branch, n: nat) {
    Endpoint(br.from, n).Some? && Endpoint(br.to, n).Some?
  }

  /** `I = (V[de] - V[para]) / Z`: the series current of a branch, which obeys Ohm's law. */
  function Current(vFrom: Complex, vTo: Complex, br: Branch): (c: Complex)
    requires Impedance(br) != Zero
    ensures Mul(c, Impedance(br)) == Sub(vFrom, vTo)
  {
    Div(Sub(vFrom, vTo), Impedance(br))
  }

  /** `V[de] * conj(I)`: the complex power sent into the branch at the end whose voltage is `vFrom`. */
  function Sent(vFrom: Complex, c: Complex): Complex {
    Mul(vFrom, Conj(c))
  }

  /** `|I|^2 * R`, the active loss. */
  function ActiveLoss(c: Complex, br: Branch): real {
    NormSq(c) * br.r
  }

  /** `|I|^2 * X`, the reactive loss. */
  function ReactiveLoss(c: Complex, br: Branch): real {
    NormSq(c) * br.x
  }

  /** What the loop over branches stores for one branch. */
  datatype Line = Line(p: real, q: real, pLoss: real, qLoss: real)

  /** The flows and losses of a branch between the buses with voltages `vFrom` and `vTo`. */
  function LineBetween(vFrom: Complex, vTo: Complex, br: Branch): Line
    requires Impedance(br) != Zero
  {
    var c := Current(vFrom, vTo, br);
    var s := Sent(vFrom, c);
    Line(s.re, s.im, ActiveLoss(c, br), ReactiveLoss(c, br))
  }

  /** The flows and losses of a branch of the table, its ends looked up in `v`. */
  function LineOf(v: seq<Complex>, br: Branch): Line
    requires Valid(br, |v|) && Impedance(br) != Zero
  {
    LineBetween(v[Endpoint(br.from, |v|).value], v[Endpoint(br.to, |v|).value], br)
  }

  /** The first branch with an end outside the vector, or `|branches|` when there is none. */
  function FirstInvalid(branches: seq<Branch>, n: nat): (k: nat)
    ensures k <= |branches|
    ensures forall j :: 0 <= j < k ==> Valid(branches[j], n)
    ensures k < |branches| ==> !Valid(branches[k], n)
  {
    if |branches| == 0 then 0
    else if !Valid(branches[0], n) then 0
    else 1 + FirstInvalid(branches[1..], n)
  }

  /** The vector `P_gerada`. */
  function ActiveGeneration(v: seq<Complex>, y: seq<seq<Complex>>, buses: seq<Bus>): seq<real>
    requires Shaped(v, y, buses)
  {
    seq(|buses|, i requires 0 <= i < |buses| => GeneratedActive(y, v, buses, i))
  }

  /** The vector `Q_gerada`. */
  function ReactiveGeneration(v: seq<Complex>, y: seq<seq<Complex>>, buses: seq<Bus>): seq<real>
    requires Shaped(v, y, buses)
  {
    seq(|buses|, i requires 0 <= i < |buses| => GeneratedReactive(y, v, buses, i))
  }

  /** The flows and losses of every branch, when every branch names buses of the vector. */
  function Lines(v: seq<Complex>, branches: seq<Branch>): (ls: seq<Line>)
    requires NonzeroImpedances(branches)
    requires forall k :: 0 <= k < |branches| ==> Valid(branches[k], |v|)
    ensures |ls| == |branches|
  {
    seq(|branches|, k requires 0 <= k < |branches| => LineOf(v, branches[k]))
  }

  function ActiveFlows(ls: seq<Line>): seq<real> {
    seq(|ls|, k requires 0 <= k < |ls| => ls[k].p)
  }

  function ReactiveFlows(ls: seq<Line>): seq<real> {
    seq(|ls|, k requires 0 <= k < |ls| => ls[k].q)
  }

  function ActiveLosses(ls: seq<Line>): seq<real> {
    seq(|ls|, k requires 0 <= k < |ls| => ls[k].pLoss)
  }

  function ReactiveLosses(ls: seq<Line>): seq<real> {
    seq(|ls|, k requires 0 <= k < |ls| => ls[k].qLoss)
  }

  /** The result of the whole post-processor, or the branch at which it raises. */
  function PowerFlows(v: seq<Complex>, y: seq<seq<Complex>>, buses: seq<Bus>, branches: seq<Branch>): (r: Result<Flows, FlowError>)
    requires Shaped(v, y, buses) && NonzeroImpedances(branches)
  {
    var bad := FirstInvalid(branches, |v|);
    if bad < |branches| then Failure(EndpointOutOfRange(bad))
    else
      var ls := Lines(v, branches);
      Success(Flows(ActiveGeneration(v, y, buses), ReactiveGeneration(v, y, buses),
                    ActiveFlows(ls), ReactiveFlows(ls), ActiveLosses(ls), ReactiveLosses(ls)))
  }

  /**
    `calculate_power_flows`: six zero-initialised arrays filled by index, the
    bus loop first and then the branch loop, which stops at the first branch
    that names a bus outside the voltage vector.
  */
  method CalculatePowerFlows(v: seq<Complex>, y: seq<seq<Complex>>, buses: seq<Bus>, branches: seq<Branch>)
    returns (r: Result<Flows, FlowError>)
    requires Shaped(v, y, buses) && NonzeroImpedances(branches)
    ensures r == PowerFlows(v, y, buses, branches)
  {
    var n := |buses|;
    var pGen := new real[n](_ => 0.0);
    var qGen := new real[n](_ => 0.0);
    BusGeneration(v, y, buses, pGen, qGen);
    var m := |branches|;
    var pFlow := new real[m](_ => 0.0);
    var qFlow := new real[m](_ => 0.0);
    var pLoss := new real[m](_ => 0.0);
    var qLoss := new real[m](_ => 0.0);
    var bad := BranchFlows(v, branches, pFlow, qFlow, pLoss, qLoss);
    if bad < m {
      return Failure(EndpointOutOfRange(bad));
    }
    r := Success(Flows(pGen[..], qGen[..], pFlow[..], qFlow[..], pLoss[..], qLoss[..]));
  }

  /** The loop over buses: entry `i` of each vector is the generation at bus `i`. */
  method BusGeneration(v: seq<Complex>, y: seq<seq<Complex>>, buses: seq<Bus>, pGen: array<real>, qGen: array<real>)
    requires Shaped(v, y, buses) && pGen.Length == |buses| && qGen.Length == |buses| && pGen != qGen
    modifies pGen, qGen
    ensures pGen[..] == ActiveGeneration(v, y, buses) && qGen[..] == ReactiveGeneration(v, y, buses)
  {
    for i := 0 to |buses|
      invariant forall a :: 0 <= a < i ==> pGen[a] == GeneratedActive(y, v, buses, a)
      invariant forall a :: 0 <= a < i ==> qGen[a] == GeneratedReactive(y, v, buses, a)
    {
      var s := Injection(y, v, i);
      pGen[i] := s.re + ActiveLoad(buses[i]);
      qGen[i] := -s.im + ReactiveLoad(buses[i]);
    }
  }

  /** Entries `j < k` of the four branch vectors hold the flows and losses of branch `j`. */
  ghost predicate Stored(v: seq<Complex>, branches: seq<Branch>,
                         pFlow: array<real>, qFlow: array<real>, pLoss: array<real>, qLoss: array<real>, k: nat)
    reads pFlow, qFlow, pLoss, qLoss
    requires NonzeroImpedances(branches) && k <= |branches|
    requires pFlow.Length == qFlow.Length == pLoss.Length == qLoss.Length == |branches|
  {
    forall j :: 0 <= j < k ==>
      Valid(branches[j], |v|)
      && pFlow[j] == LineOf(v, branches[j]).p && qFlow[j] == LineOf(v, branches[j]).q
      && pLoss[j] == LineOf(v, branches[j]).pLoss && qLoss[j] == LineOf(v, branches[j]).qLoss
  }

  /**
    The loop over branches. It returns the index of the first branch with an
    end outside the voltage vector, or the number of branches when every
    branch was stored.
  */
  method BranchFlows(v: seq<Complex>, branches: seq<Branch>,
                     pFlow: array<real>, qFlow: array<real>, pLoss: array<real>, qLoss: array<real>)
    returns (bad: nat)
    requires NonzeroImpedances(branches)
    requires pFlow.Length == qFlow.Length == pLoss.Length == qLoss.Length == |branches|
    requires pFlow != qFlow && pFlow != pLoss && pFlow != qLoss && qFlow != pLoss && qFlow != qLoss && pLoss != qLoss
    modifies pFlow, qFlow, pLoss, qLoss
    ensures bad == FirstInvalid(branches, |v|)
    ensures bad == |branches| ==>
      var ls := Lines(v, branches);
      pFlow[..] == ActiveFlows(ls) && qFlow[..] == ReactiveFlows(ls)
      && pLoss[..] == ActiveLosses(ls) && qLoss[..] == ReactiveLosses(ls)
  {
    var n := |v|;
    for k := 0 to |branches|
      invariant Stored(v, branches, pFlow, qFlow, pLoss, qLoss, k)
    {
      var br := branches[k];
      var de := Endpoint(br.from, n);
      var para := Endpoint(br.to, n);
      if de.None? || para.None? {
        assert FirstInvalid(branches, n) == k;
        return k;
      }
      var current := Current(v[de.value], v[para.value], br);
      var sent := Sent(v[de.value], current);
      pFlow[k] := sent.re;
      qFlow[k] := sent.im;
      pLoss[k] := ActiveLoss(current, br);
      qLoss[k] := ReactiveLoss(current, br);
    }
    assert FirstInvalid(branches, n) == |branches|;
    bad := |branches|;
    var ls := Lines(v, branches);
    assert pFlow[..] == ActiveFlows(ls) && qFlow[..] == ReactiveFlows(ls);
    assert pLoss[..] == ActiveLosses(ls) && qLoss[..] == ReactiveLosses(ls);
  }

  // ---------------------------------------------------------------------
  // Properties
  // ---------------------------------------------------------------------

  /**
    The post-processor raises exactly when some branch names a bus outside
    the voltage vector, and then at the first such branch; otherwise it
    returns one generation entry per bus and one flow and loss entry per
    branch.
  */
  lemma {:induction false} ResultShape(v: seq<Complex>, y: seq<seq<Complex>>, buses: seq<Bus>, branches: seq<Branch>)
    requires Shaped(v, y, buses) && NonzeroImpedances(branches)
    ensures var r := PowerFlows(v, y, buses, branches);
            (r.Failure? <==> exists k :: 0 <= k < |branches| && !Valid(branches[k], |buses|))
            && (r.Failure? ==>
                  var k := r.error.branch;
                  k < |branches| && !Valid(branches[k], |buses|)
                  && forall j :: 0 <= j < k ==> Valid(branches[j], |buses|))
            && (r.Success? ==>
                  |r.value.pGen| == |buses| && |r.value.qGen| == |buses|
                  && |r.value.pFlow| == |branches| && |r.value.qFlow| == |branches|
                  && |r.value.pLoss| == |branches| && |r.value.qLoss| == |branches|)
  {
    var bad := FirstInvalid(branches, |buses|);
    if bad == |branches| {
      assert forall k :: 0 <= k < |branches| ==> Valid(branches[k], |buses|);
    }
  }

  /**
    With the voltages `vm * exp(j*theta)` of the Newton-Raphson solver and
    `cos`, `sin` obeying the angle-difference identities, the generation at
    bus `i` is the solver's calculated active power plus the active load, and
    minus its calculated reactive power plus the reactive load.
  */
  lemma {:induction false} GenerationFromCalculatedPowers(y: seq<seq<Complex>>, vm: seq<real>, th: seq<real>,
                                       cos: real -> real, sin: real -> real, buses: seq<Bus>, i: nat)
    requires CalculatedPower.Fits(y, vm, th) && |buses| == |vm| && i < |vm|
    requires CalculatedPower.AngleDifferences(cos, sin, th)
    ensures var v := CalculatedPower.Phasors(vm, th, cos, sin);
            GeneratedActive(y, v, buses, i) == CalculatedPower.CalcP(y, vm, th, cos, sin)[i] + ActiveLoad(buses[i])
            && GeneratedReactive(y, v, buses, i) == -CalculatedPower.CalcQ(y, vm, th, cos, sin)[i] + ReactiveLoad(buses[i])
  {
    CalculatedPower.PowerSumIsComplexPower(y, vm, th, cos, sin, i, |vm|);
  }

  /**
    At a bus whose injection matches its scheduled net injection (generation
    minus load, over the 100 MVA base, with the reactive part counted with the
    sign `Q_gerada` uses), the post-processor gives back the scheduled
    generation.
  */
  lemma {:induction false} GenerationAtBalancedBus(y: seq<seq<Complex>>, v: seq<Complex>, buses: seq<Bus>, i: nat)
    requires Shaped(v, y, buses) && i < |buses|
    requires Injection(y, v, i).re == NetActive(buses[i])
    requires -Injection(y, v, i).im == NetReactive(buses[i])
    ensures GeneratedActive(y, v, buses, i) * BaseMVA == buses[i].genMW
    ensures GeneratedReactive(y, v, buses, i) * BaseMVA == buses[i].genMVAR
  {
    var b := buses[i];
    calc {
      GeneratedActive(y, v, buses, i) * BaseMVA;
      NetActive(b) * BaseMVA + ActiveLoad(b) * BaseMVA;
      (b.genMW - b.loadMW) + b.loadMW;
    }
    calc {
      GeneratedReactive(y, v, buses, i) * BaseMVA;
      NetReactive(b) * BaseMVA + ReactiveLoad(b) * BaseMVA;
      (b.genMVAR - b.loadMVAR) + b.loadMVAR;
    }
  }

  /** The active loss is never negative on a branch whose resistance is not; likewise the reactive loss and the reactance. */
  lemma LossSign(c: Complex, br: Branch)
    ensures br.r >= 0.0 ==> ActiveLoss(c, br) >= 0.0
    ensures br.x >= 0.0 ==> ReactiveLoss(c, br) >= 0.0
  {
    var s := NormSq(c);
    NormSqPositive(c);
    if br.r >= 0.0 {
      ProductNonnegative(s, br.r, s * br.r);
      assert ActiveLoss(c, br) == s * br.r;
    }
    if br.x >= 0.0 {
      ProductNonnegative(s, br.x, s * br.x);
      assert ReactiveLoss(c, br) == s * br.x;
    }
  }

  /** The reactive and active losses are in the ratio `X : R` of the branch. */
  lemma LossRatio(c: Complex, br: Branch)
    ensures ReactiveLoss(c, br) * br.r == ActiveLoss(c, br) * br.x
  {
    var s := NormSq(c);
    assert (s * br.x) * br.r == (s * br.r) * br.x;
  }

  /**
    Swapping `DE` and `PARA` reverses the current and leaves both losses
    unchanged.
  */
  lemma DirectionIndependent(vFrom: Complex, vTo: Complex, br: Branch)
    requires Impedance(br) != Zero
    ensures Current(vTo, vFrom, br) == Scale(-1.0, Current(vFrom, vTo, br))
    ensures LineBetween(vTo, vFrom, br).pLoss == LineBetween(vFrom, vTo, br).pLoss
    ensures LineBetween(vTo, vFrom, br).qLoss == LineBetween(vFrom, vTo, br).qLoss
  {
    var a := Sub(vFrom, vTo);
    assert Sub(vTo, vFrom) == Scale(-1.0, a);
    DivNegated(a, Impedance(br));
    NormSqNegated(Current(vFrom, vTo, br));
  }

  /** A branch whose two ends are at the same voltage carries no current, sends no power and loses none. */
  lemma EqualEndsNoFlow(u: Complex, br: Branch)
    requires Impedance(br) != Zero
    ensures Current(u, u, br) == Zero
    ensures LineBetween(u, u, br) == Line(0.0, 0.0, 0.0, 0.0)
  {
    NoVoltageDropNoCurrent(u, br);
    NoCurrentNoFlow(u, Current(u, u, br), br);
  }

  /** Equal end voltages drive no current through the impedance. */
  lemma NoVoltageDropNoCurrent(u: Complex, br: Branch)
    requires Impedance(br) != Zero
    ensures Current(u, u, br) == Zero
  {
    var z := Impedance(br);
    var n := NormSq(z);
    NormSqPositive(z);
    var a := Sub(u, u);
    assert a == Zero;
    assert a.re * z.re + a.im * z.im == 0.0 && a.im * z.re - a.re * z.im == 0.0;
    assert Current(u, u, br) == Complex(0.0 / n, 0.0 / n);
  }

  /** No current, no power sent and no loss. */
  lemma NoCurrentNoFlow(u: Complex, c: Complex, br: Branch)
    requires c == Zero
    ensures Sent(u, c) == Zero
    ensures ActiveLoss(c, br) == 0.0 && ReactiveLoss(c, br) == 0.0
  {
    SentScales(u, Zero, 0.0);
    LossesScale(Zero, br, 0.0);
  }

  /** Scaling the current scales the power sent. */
  lemma SentScales(u: Complex, c: Complex, k: real)
    ensures Sent(u, Scale(k, c)) == Scale(k, Sent(u, c))
  {}

  /** Scaling the current by `k` scales both losses by `k^2`. */
  lemma LossesScale(c: Complex, br: Branch, k: real)
    ensures ActiveLoss(Scale(k, c), br) == (k * k) * ActiveLoss(c, br)
    ensures ReactiveLoss(Scale(k, c), br) == (k * k) * ReactiveLoss(c, br)
  {}

  /** `(I * Z) * conj(I) == |I|^2 * Z`. */
  lemma CurrentTimesConj(c: Complex, z: Complex)
    ensures Sent(Mul(c, z), c) == Scale(NormSq(c), z)
  {}

  /** What is sent at one end with current `c` plus what is sent at the other with `-c`. */
  lemma SentBothWays(a: Complex, b: Complex, c: Complex)
    ensures Add(Sent(a, c), Sent(b, Scale(-1.0, c))) == Sent(Sub(a, b), c)
  {}

  /**
    The power sent in at the `DE` end plus the power sent in at the `PARA` end,
    where the current is reversed, is exactly what the branch loses: active
    flows sum to the active loss and reactive flows to the reactive loss.
  */
  lemma BranchBalance(vFrom: Complex, vTo: Complex, br: Branch)
    requires Impedance(br) != Zero
    ensures var there := LineBetween(vFrom, vTo, br);
            var back := LineBetween(vTo, vFrom, br);
            there.p + back.p == there.pLoss && there.q + back.q == there.qLoss
  {
    var c := Current(vFrom, vTo, br);
    var z := Impedance(br);
    DirectionIndependent(vFrom, vTo, br);
    SentBothWays(vFrom, vTo, c);
    assert Sub(vFrom, vTo) == Mul(c, z);
    CurrentTimesConj(c, z);
  }
}
