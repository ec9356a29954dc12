/**
  The network data shared by both solvers and the power post-processor: one
  row of the bus table per bus, the complex admittance matrix, and the bus
  type labels (0 = PQ, 1 = slack, 2 = PV).
*/
module Network {
  import opened ComplexNumbers

  const PQ := 0
  const Slack := 1
  const PV := 2

  /** Powers in the bus table are in MW / MVAr; the solvers work in per unit on a 100 MVA base. */
  const BaseMVA := 100.0

  /**
    One row of the bus table. `tag` is the bus type label, `vm` the
    "VOLTAGE MAGNITUDE" column; the four power columns are in MW and MVAr.
  */
  datatype Bus = Bus(tag: int, vm: real, genMW: real, loadMW: real, genMVAR: real, loadMVAR: real)

  /** The admittance matrix has one row and one column per bus. */
  predicate IsSquare(y: seq<seq<Complex>>, n: nat) {
    |y| == n && forall i :: 0 <= i < n ==> |y[i]| == n
  }

  /** Net active injection of a bus in per unit. */
  function NetActive(b: Bus): (p: real)
    ensures p * BaseMVA == b.genMW - b.loadMW
  {
    (b.genMW - b.loadMW) / BaseMVA
  }

  /** Net reactive injection of a bus in per unit. */
  function NetReactive(b: Bus): (q: real)
    ensures q * BaseMVA == b.genMVAR - b.loadMVAR
  {
    (b.genMVAR - b.loadMVAR) / BaseMVA
  }

  /** Reactive load of a bus in per unit. */
  function ReactiveLoad(b: Bus): (q: real)
    ensures q * BaseMVA == b.loadMVAR
  {
    b.loadMVAR / BaseMVA
  }

  /** Active load of a bus in per unit. */
  function ActiveLoad(b: Bus): (p: real)
    ensures p * BaseMVA == b.loadMW
  {
    b.loadMW / BaseMVA
  }
}
