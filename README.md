# Power-flow solvers, modelled in Dafny

This project models the computational core of a small load-flow program.

- **Gauss-Seidel solver** (`solve_power_flow`). It sweeps the buses in table order and overwrites the voltage of every PQ and PV bus in place. The slack bus is skipped.
  - PQ buses get an accelerated update with factor `e1 = 1.09`.
  - PV buses get their reactive injection recomputed, are updated with `e2 = 1.0` and are renormalised to the magnitude they had when the sweep began.
  - A division by zero restores the bus from the sweep's snapshot.
  - The loop stops once the error is at most the tolerance or the sweep cap is reached.
- **Newton-Raphson solver** (`newton_raphson_power_flow`). Angles start at zero and magnitudes at the bus table's values. Each pass:
  - accumulates the calculated powers `P_calc` and `Q_calc`;
  - builds the mismatch vector: angle unknowns (PQ buses, then PV buses), then magnitude unknowns (PQ buses);
  - stops if the largest |mismatch| is below the tolerance;
  - otherwise fills the four-block Jacobian, solves for the correction, applies it damped and clips the PQ magnitudes to `[0.9, 1.1]`.
- **Post-processor** (`calculate_power_flows`). From a solved voltage vector it computes:
  - the generation at every bus: the injected complex power plus the load;
  - for every branch of the impedance table: the series current, the power sent in at the `DE` end, and the active and reactive losses.

Modelling choices:

- Complex numbers are pairs of exact reals. No floating-point behaviour is modelled.
- Some functions are parameters of the model, constrained only by what the proofs need:
  - the complex modulus (`abs`), which must satisfy `IsModulus`;
  - `np.cos` and `np.sin` (`cos` and `sin`);
  - `np.linalg.solve` (`solve`), which returns a vector as long as the right-hand side or reports a singular matrix.
- State the code changes in place keeps that form:
  - the Gauss-Seidel voltage vector is a local sequence rewritten bus by bus;
  - the Newton-Raphson `V` and `theta`, `P_calc`/`Q_calc`, the Jacobian and the post-processor's six result vectors are arrays filled by index.
- Each method is proved equal to a specification function: `Iterate`/`SweepPrefix`, `NewtonRaphson`/`Passes`, `JacobianMatrix` or `PowerFlows`. The properties are lemmas about those functions.
- Errors the Python code raises are modelled as `Failure` values:
  - no slack bus: indexing an empty `np.where` result;
  - `max_iter <= 0`: the return reads the unbound loop variable;
  - an empty mismatch vector: `np.max` of an empty array;
  - a singular Jacobian;
  - a branch naming a bus outside the voltage vector.

How the code treats bus references, the slack bus and signs:

- **Bus references in the post-processor.** The label minus one is used as a Python index, so:
  - labels `1-n .. 0` wrap around to the end of the vector;
  - larger or smaller labels raise `IndexError`.

  `Endpoint` and `FlowError` model exactly this.
- **Slack bus.** Newton-Raphson takes the first bus tagged 1 and needs only that one to exist. Gauss-Seidel never looks for a slack bus: it skips every bus tagged 1.
- **Sign conventions.** The three parts use different ones, and the model keeps each as written:
  - the Gauss-Seidel PQ update solves `conj(V) * (Ykk * V_new / e1 + YV) = P + jQ`;
  - the PV update takes `Q = -Im(conj(V) * (Y V))`;
  - the post-processor's `Q_gerada` is `-Im(V * conj(Y V))` plus the load.

## Model

| member | source | states |
|---|---|---|
| Network.NetActive | metodo_newton_raphson/main.py:61 | the per-unit net active injection, times the 100 MVA base, is generation minus load in MW |
| Network.NetReactive | metodo_newton_raphson/main.py:62 | the per-unit net reactive injection, times 100, is generation minus load in MVAr |
| Network.ActiveLoad | metodo_newton_raphson/power_calculations.py:6 | the per-unit active load, times 100, is the load in MW |
| Network.ReactiveLoad | metodo_newton_raphson/power_calculations.py:7 | the per-unit reactive load, times 100, is the load in MVAr |
| ComplexNumbers.Div | metodo_newton_raphson/power_calculations.py:29 | complex division by a non-zero divisor: the quotient times the divisor is the dividend |
| ComplexNumbers.DivReal | metodo_gauss_seidel/lib/gauss_seidel.py:56 | dividing by a non-zero real: scaling the quotient back gives the dividend |
| ComplexNumbers.ModulusOfRescaled | metodo_gauss_seidel/lib/gauss_seidel.py:56 | `abs(c * (u / abs(u))) == c` for `c >= 0` and `abs(u) != 0` |
| ComplexNumbers.DivNegated | metodo_newton_raphson/power_calculations.py:29 | negating the dividend negates the quotient |
| GaussSeidel.PerUnit | metodo_gauss_seidel/lib/gauss_seidel.py:17-26 | per bus, active power times 100 is generation minus load; reactive power is 0 at the slack bus and otherwise (generation minus load)/100; reactive load times 100 is the load |
| GaussSeidel.InitialVoltages | metodo_gauss_seidel/lib/gauss_seidel.py:16 | the starting voltage of each bus is its magnitude column at angle zero |
| GaussSeidel.PrefixLeavesRest | metodo_gauss_seidel/lib/gauss_seidel.py:30-38 | buses the sweep has not reached still hold their snapshot voltages |
| GaussSeidel.PrefixKeepsVisited | metodo_gauss_seidel/lib/gauss_seidel.py:34-58 | once a bus has had its turn, the rest of the sweep leaves its voltage alone |
| GaussSeidel.GaussSeidelOrder | metodo_gauss_seidel/lib/gauss_seidel.py:30-38 | at bus k's turn, the vector is the sweep's final values for the buses before k and the snapshot from k on |
| GaussSeidel.SweepAt | metodo_gauss_seidel/lib/gauss_seidel.py:34-58 | a non-slack bus leaves the sweep with its update at its turn, computed while it still holds its snapshot voltage |
| GaussSeidel.SweepKeepsFixedBuses | metodo_gauss_seidel/lib/gauss_seidel.py:35-58 | a sweep changes no bus that is neither PQ nor PV, and a bus with zero self-admittance or zero voltage gets its snapshot voltage back |
| GaussSeidel.PvUpdateKeepsMagnitude | metodo_gauss_seidel/lib/gauss_seidel.py:48-58 | the PV update gives a voltage whose modulus is the bus's modulus at the start of the sweep, on every branch including the division-by-zero ones |
| GaussSeidel.SweepHoldsPvMagnitude | metodo_gauss_seidel/lib/gauss_seidel.py:48-58 | every PV bus leaves a sweep with the modulus it entered it with |
| GaussSeidel.AcceleratedSolvesBusEquation | metodo_gauss_seidel/lib/gauss_seidel.py:42-44 | `u = (1/Ykk) * e * (S / conj(V) - YV)` solves `conj(V) * (Ykk * u / e + YV) == S` |
| GaussSeidel.PqUpdateSolvesBusEquation | metodo_gauss_seidel/lib/gauss_seidel.py:38-44 | the PQ update satisfies the bus power equation with `YV` taken over the new voltages before k and the snapshot voltages after it |
| GaussSeidel.OthersSumPlusDiagonal | metodo_gauss_seidel/lib/gauss_seidel.py:38-50 | `YV` plus the diagonal term is the full row product `Y[k] . V` |
| GaussSeidel.PvReactiveIsRowInjection | metodo_gauss_seidel/lib/gauss_seidel.py:50-51 | the PV update's `Q_liq` is `-Im(conj(V[k]) * (Y[k] . V))` minus the reactive load |
| GaussSeidel.SweepErrorIsMax | metodo_gauss_seidel/lib/gauss_seidel.py:32-60 | the sweep error bounds the change of every visited non-slack bus, is 0 or equal to one of those changes, and is non-negative when `abs` is |
| GaussSeidel.IterateProperties | metodo_gauss_seidel/lib/gauss_seidel.py:29-62 | buses neither PQ nor PV keep their starting voltage; the count never passes `K_max`; the loop ends within tolerance or at the cap; it runs no sweep exactly when the loop test fails at the start, and then returns its inputs |
| GaussSeidel.IterateHoldsPvMagnitude | metodo_gauss_seidel/lib/gauss_seidel.py:48-62 | with `abs` the modulus, every PV bus ends with its starting modulus, and the error after at least one sweep is non-negative |
| GaussSeidel.DefaultsSweep | metodo_gauss_seidel/lib/gauss_seidel.py:10-13 | with the defaults `erro_max = 1e-6` and `K_max = 1000`, the loop runs at least one sweep and at most 1000 |
| GaussSeidel.SolvePowerFlow | metodo_gauss_seidel/lib/gauss_seidel.py:10-62 | the returned triple is `Iterate` from the initial voltages, error 0.0001 and count 0. It also states: the count is at most `K_max`, or 0; the loop ends within tolerance or at the cap; no sweep runs exactly when `erro_max >= 0.0001` or `K_max <= 0`, and then the initial voltages come back; every bus neither PQ nor PV keeps its initial voltage; with `abs` the modulus, PV magnitudes are held and the final error after a sweep is non-negative |
| GaussSeidel.Sweep | metodo_gauss_seidel/lib/gauss_seidel.py:30-60 | one pass of the `for k` loop leaves the voltages `SweepPrefix(.., n)` and the error `SweepError(.., n)` |
| BusIndex.Where | metodo_newton_raphson/main.py:64-66 | `np.where(tipo == t)[0]`: in-range positions holding `t`, every such position, in strictly increasing order |
| BusIndex.IncreasingIsDistinct | metodo_newton_raphson/main.py:65-66 | a strictly increasing index list names no bus twice |
| BusIndex.VarThetaIsIndexList | metodo_newton_raphson/main.py:67 | `var_theta` names buses of the table, each once |
| BusIndex.VarThetaMembers | metodo_newton_raphson/main.py:65-67 | a bus is an angle unknown exactly when it is PQ or PV |
| BusIndex.VarVMembers | metodo_newton_raphson/main.py:66-68 | a bus is a magnitude unknown exactly when it is PQ |
| BusIndex.UnknownsArePqAndPv | metodo_newton_raphson/main.py:65-70 | both unknown lists are index lists without repeats, with exactly the PQ+PV and the PQ buses; `var_V` is the prefix of `var_theta`, and a position of `var_theta` is below `n_V` exactly when its bus is PQ |
| CalculatedPower.CalculatedPowers | metodo_newton_raphson/main.py:72-77 | the zero-initialised arrays end up holding `CalcP` and `CalcQ`, the sums of the `k` terms of every bus |
| CalculatedPower.AccumulateBus | metodo_newton_raphson/main.py:75-77 | the inner loop leaves `P_calc[i]` and `Q_calc[i]` at their full sums and changes no other entry |
| CalculatedPower.TermIsComplexPower | metodo_newton_raphson/main.py:76-77 | under the angle-difference identities, the polar `P` and `Q` terms are the real and imaginary parts of `V_i * conj(Y_ik * V_k)` |
| CalculatedPower.TermOfRow | metodo_newton_raphson/main.py:76-77 | term `k` of row `i` is bus `k`'s part of the complex power of bus `i` at the voltages `V * exp(j*theta)` |
| CalculatedPower.PowerSumIsComplexPower | metodo_newton_raphson/main.py:72-77 | `P_calc[i]` and `Q_calc[i]` are the real and imaginary parts of `V[i] * conj(Y[i] . V)` for `V = vm * exp(j*theta)` |
| Jacobian.FillRow | metodo_newton_raphson/main.py:87-91 | one row of a block gets the derivatives of its bus; no other entry changes |
| Jacobian.FillBlock | metodo_newton_raphson/main.py:86-110 | a block's rectangle gets the block's derivatives at its row and column buses; every entry outside it keeps its value |
| Jacobian.FillQuadrant | metodo_newton_raphson/main.py:86-110 | after the loop of block `b`, every entry of `b` and of the blocks before it holds its Jacobian value |
| Jacobian.InBlock | metodo_newton_raphson/main.py:84-110 | an entry lies in block `b` exactly when it lies in the rows and columns the loop of `b` writes, so each entry is written by exactly one block |
| Jacobian.EntryInBlock | metodo_newton_raphson/main.py:84-110 | inside block `b`, the Jacobian entry is `b`'s derivative at the entry's row and column buses |
| Jacobian.FilledIsMatrix | metodo_newton_raphson/main.py:84-110 | an array in which all four block loops are done equals `JacobianMatrix` |
| Jacobian.BuildJacobian | metodo_newton_raphson/main.py:84-110 | `J` is fresh, `(n_theta + n_V)` square and equals `JacobianMatrix` |
| Jacobian.OffDiagonalIsTerm | metodo_newton_raphson/main.py:86-110 | each off-diagonal form, weighted by `V[k]` in the magnitude blocks, is a signed calculated-power term |
| Jacobian.OffSumIsTermSum | metodo_newton_raphson/main.py:86-110 | the weighted off-diagonal entries of a row add up to the power sum less its diagonal term |
| Jacobian.DiagonalTerms | metodo_newton_raphson/main.py:76-77 | with `cos 0 = 1` and `sin 0 = 0`, the diagonal terms are `V^2 G` and `-V^2 B` |
| Jacobian.AngleRowsBalance | metodo_newton_raphson/main.py:88-104 | in the angle blocks, the diagonal closed form plus the off-diagonal forms over all buses is 0 |
| Jacobian.MagnitudeOffSum | metodo_newton_raphson/main.py:92-110 | in the magnitude blocks, the weighted off-diagonal entries of a row are its calculated power less `V^2` times its own admittance part |
| Jacobian.MagnitudeRowsEuler | metodo_newton_raphson/main.py:92-110 | in the magnitude blocks, the row entries weighted by `V[k]` add up to twice the row's calculated power (Euler's identity) |
| NewtonRaphson.Abs | metodo_newton_raphson/main.py:81 | `np.abs` is non-negative and equals `x` or `-x` |
| NewtonRaphson.MaxAbs | metodo_newton_raphson/main.py:81 | `np.max(np.abs(s))` bounds the absolute value of every entry and equals one of them |
| NewtonRaphson.Mismatch | metodo_newton_raphson/main.py:78-80 | the mismatch has `n_theta + n_V` entries: dP at the angle unknowns in order, then dQ at the magnitude unknowns |
| NewtonRaphson.AddedAt | metodo_newton_raphson/main.py:113-114 | `s[idx] += d` leaves every position outside `idx` unchanged |
| NewtonRaphson.AddedAtDistinct | metodo_newton_raphson/main.py:113-114 | with distinct indices, position `idx[a]` gains exactly `d[a]` |
| NewtonRaphson.Clip | metodo_newton_raphson/main.py:116 | `np.clip` lies in `[lo, hi]`, keeps values inside, and sends values below to `lo` and values above to `hi` |
| NewtonRaphson.ClippedAt | metodo_newton_raphson/main.py:116 | after `s[idx] = np.clip(s[idx], lo, hi)` every indexed position is in `[lo, hi]` and the others are unchanged |
| NewtonRaphson.ClippedAtDistinct | metodo_newton_raphson/main.py:116 | with distinct indices each indexed position is its own clipped value |
| NewtonRaphson.NewMagnitudes | metodo_newton_raphson/main.py:114-116 | after the damped update and the clip, no magnitude unknown is zero |
| NewtonRaphson.PassStep | metodo_newton_raphson/main.py:72-116 | a pass fails on an empty mismatch exactly when there are no unknowns, and otherwise can fail only on a singular Jacobian; it returns the unchanged voltages with count `it + 1` and an error in `[0, tol)`, or continues with a correction of `n_theta + n_V` entries after an error of at least `tol` |
| NewtonRaphson.ProblemOf | metodo_newton_raphson/main.py:57-70 | the prepared problem fits the table; with non-zero PQ magnitudes no magnitude unknown starts at zero |
| NewtonRaphson.AddAt | metodo_newton_raphson/main.py:113-114 | the in-place update leaves `AddedAt` of the old array |
| NewtonRaphson.ClipAt | metodo_newton_raphson/main.py:116 | the in-place clip leaves `ClippedAt` of the old array |
| NewtonRaphson.Pass | metodo_newton_raphson/main.py:72-116 | one pass returns `PassStep` of the old arrays; on continuing, `V` and `theta` become `NewMagnitudes` and `NewAngles`; on stopping, neither changes |
| NewtonRaphson.NewtonRaphsonPowerFlow | metodo_newton_raphson/main.py:56-117 | the run returns `NewtonRaphson(...)`, the specification of the whole function including its four failures |
| NewtonRaphson.HeldVoltages | metodo_newton_raphson/main.py:117 | the returned `V * exp(j*theta)` keeps what `Held` says about magnitudes and the slack angle |
| NewtonRaphson.UpdateHolds | metodo_newton_raphson/main.py:113-116 | a damped, clipped update keeps every non-PQ/PV bus's magnitude and zero angle and every PV magnitude, and puts every PQ magnitude in `[0.9, 1.1]` |
| NewtonRaphson.PassesAreSound | metodo_newton_raphson/main.py:71-117 | from any pass on, a successful run keeps `Held`, counts between 1 and `max_iter`, stops early only below tolerance, and counts at least the passes already run |
| NewtonRaphson.LastPassSound | metodo_newton_raphson/main.py:71-117 | when the loop runs out after updates that kept the bounds, the returned `V * exp(j*theta)`, with count `max_iter` and a non-negative error, keeps every promise of a successful run |
| NewtonRaphson.ConvergedSound | metodo_newton_raphson/main.py:81-82 | a pass `it` whose error is below `tol` returns an outcome with count `it + 1` that keeps every promise of a successful run |
| NewtonRaphson.PassesAtCap | metodo_newton_raphson/main.py:71-117 | from any pass on, a successful result that counts `max_iter` passes with an error of at least `tol` holds the voltages after the update of pass `max_iter - 1` and the max mismatch magnitude measured before that update |
| NewtonRaphson.RunAtCap | metodo_newton_raphson/main.py:71-117 | a run that returns with count `max_iter` and an error of at least `tol` ran out: it returns `V * exp(j*theta)` after the last update, paired with the max mismatch magnitude of the state that update started from |
| NewtonRaphson.PassesWithoutUnknowns | metodo_newton_raphson/main.py:78-81 | with no unknowns the first pass fails on the empty mismatch |
| NewtonRaphson.PassesWithUnknowns | metodo_newton_raphson/main.py:71-117 | with unknowns, no pass fails on an empty mismatch, a missing slack bus or a missing iteration |
| NewtonRaphson.SlackFound | metodo_newton_raphson/main.py:64 | the slack lookup finds nothing exactly when no bus is labelled 1 |
| NewtonRaphson.UnknownsFound | metodo_newton_raphson/main.py:65-70 | there are no unknowns exactly when no bus is PQ or PV |
| NewtonRaphson.RunWithoutSlack | metodo_newton_raphson/main.py:64 | a table without a slack bus fails with `NoSlackBus` |
| NewtonRaphson.RunWithoutIterations | metodo_newton_raphson/main.py:71-117 | with a slack bus and `max_iter <= 0` the run fails with `NoIterations` |
| NewtonRaphson.RunWithoutUnknowns | metodo_newton_raphson/main.py:78-81 | with a slack bus, passes to run and no PQ or PV bus, the run fails with `EmptyMismatch` |
| NewtonRaphson.RunWithUnknowns | metodo_newton_raphson/main.py:64-117 | with a slack bus, passes to run and unknowns, the only possible failure is a singular Jacobian |
| NewtonRaphson.RunSucceeds | metodo_newton_raphson/main.py:56-117 | a successful run returns one voltage per bus. Every bus neither PQ nor PV (the slack bus) is `V * exp(j*0)`, every PV bus has its table magnitude, and every PQ magnitude is its table value or in `[0.9, 1.1]` (always in it after a second pass). It counts 1 to `max_iter` passes, stops early only below `tol`, and its error is non-negative |
| PowerCalculations.Endpoint | metodo_newton_raphson/power_calculations.py:15-16 | a 1-based label `1..n` names bus `label - 1`; `1-n..0` wrap to the end of the vector; any other label raises `IndexError` |
| PowerCalculations.Current | metodo_newton_raphson/power_calculations.py:28-29 | the branch current obeys Ohm's law: `I * Z == V[de] - V[para]` |
| PowerCalculations.FirstInvalid | metodo_newton_raphson/power_calculations.py:25-29 | the first branch with an end outside the vector, every branch before it being valid, or the number of branches |
| PowerCalculations.BusGeneration | metodo_newton_raphson/power_calculations.py:9-13 | the bus loop fills `P_gerada` and `Q_gerada` with the generation of every bus |
| PowerCalculations.BranchFlows | metodo_newton_raphson/power_calculations.py:25-33 | the branch loop stops at the first invalid branch; when there is none it fills the four vectors with every branch's flows and losses |
| PowerCalculations.CalculatePowerFlows | metodo_newton_raphson/power_calculations.py:3-42 | the function returns `PowerFlows`: the six vectors, or the branch at which it raises |
| PowerCalculations.ResultShape | metodo_newton_raphson/power_calculations.py:3-42 | it fails exactly when some branch is invalid, and then at the first one; on success the generation vectors have one entry per bus and the branch vectors one per branch |
| PowerCalculations.GenerationFromCalculatedPowers | metodo_newton_raphson/power_calculations.py:10-13 | at the voltages `vm * exp(j*theta)`, `P_gerada[i]` is the solver's `P_calc[i]` plus the load, and `Q_gerada[i]` is `-Q_calc[i]` plus the load |
| PowerCalculations.GenerationAtBalancedBus | metodo_newton_raphson/power_calculations.py:6-13 | at a bus whose injection is its scheduled net injection, the generation in MW and MVAr is the table's generation |
| PowerCalculations.LossSign | metodo_newton_raphson/power_calculations.py:32-33 | the active loss is non-negative when `R >= 0`, and the reactive loss when `X >= 0` |
| PowerCalculations.LossRatio | metodo_newton_raphson/power_calculations.py:32-33 | `perdas_reativas * R == perdas_ativas * X` |
| PowerCalculations.DirectionIndependent | metodo_newton_raphson/power_calculations.py:29-33 | swapping `DE` and `PARA` negates the current and leaves both losses unchanged |
| PowerCalculations.EqualEndsNoFlow | metodo_newton_raphson/power_calculations.py:29-33 | equal end voltages give zero current, zero flows and zero losses |
| PowerCalculations.BranchBalance | metodo_newton_raphson/power_calculations.py:29-33 | the flow in at `DE` plus the flow in at `PARA` is exactly the loss, for both active and reactive power |

## Left out

- File loading (the Excel readers), `str_to_complex`, console formatting, both `main` functions and the matrix-inversion demo script are not part of this model. The shape check that `main` performs becomes the `IsSquare` precondition of the solvers.
- Floating point is not modelled: reals are exact, and there is no rounding, overflow, `inf` or `nan`. Convergence, and agreement between the two solvers, are not claimed.
- `abs`, `cos`, `sin` and `np.linalg.solve` are parameters. The proofs use only the properties written as preconditions: `IsModulus`, `cos 0 = 1` and `sin 0 = 0`, the angle-difference identities, and `SolveKeepsLength`.
- The extra acceleration constants `e3`..`e14` and the `impedancias` parameter of `solve_power_flow` are never read by the code, so they are not modelled.
- `solve_power_flow` declares `erro_max` and `K_max` as parameters with defaults. The model takes them as arguments and names the defaults `DefaultErrMax` and `DefaultKMax`.
- GaussSeidel.InitialVoltages: the magnitude column is taken as a real number at angle zero. A cell holding a complex literal, which `str_to_complex` would accept, is not modelled.
- GaussSeidel.SolvePowerFlow: division by zero follows Python's `ZeroDivisionError` on complex numbers. Division by a zero numpy scalar, which yields `inf`/`nan` instead, is not modelled.
- GaussSeidel.SolvePowerFlow: the PV magnitude, the final-error sign and the modulus lemmas hold only when `abs` satisfies `IsModulus`.
- The bus type is the label column `tag`. The Gauss-Seidel code reads the data frame's index, and Newton-Raphson reads the "TIPO DE BARRA" column when there is one and the index otherwise. Both are modelled as the same integer label.
- NewtonRaphson.NewtonRaphsonPowerFlow: requires every PQ bus to start with a non-zero magnitude, because the dP/dV and dQ/dV diagonals divide by it. With a zero magnitude numpy would produce `inf`/`nan` rather than raise. The same precondition is on the specification `NewtonRaphson` and on the `Run*` lemmas.
- NewtonRaphson.AddedAt: applies `s[idx] += d` one index at a time. This equals numpy's fancy-index update only for distinct indices (`AddedAtDistinct`), and the unknown lists are always distinct (`UnknownsArePqAndPv`).
- NewtonRaphson.RunSucceeds: says a PV or PQ angle is some angle, not which one. The angles come from the abstract linear solve.
- The damping factor is any real, as the code accepts any value.
- PowerCalculations.CalculatePowerFlows: requires every branch impedance to be non-zero. numpy division by zero yields `inf`/`nan` rather than raising.
- PowerCalculations.Endpoint: the `DE`/`PARA` labels are integers. `int(...)` applied to a non-integral or non-numeric cell is not modelled.
