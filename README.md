# Kalman altitude filter and two-sensor fusion, in Dafny

This project models the numerical core of a small altitude-tracking program.
A scalar Kalman filter smooths one sensor's altitude measurements. Two such
filter runs are then fused by inverse-variance weighting. All arithmetic is
over Dafny's `real`, so the formulas are exact and IEEE rounding is not part
of the model.

- `common.dfy` (module `Common`): the `Result` type used for the program's
  error paths, and a few facts about real multiplication that the proofs use.
- `kalman.dfy` (module `Kalman`): the filter of `filters.py`.
  - Pure functions give the specification: `MeasurementNoise` (R from the
    velocity), `Seed`, `Predict`, `ProcessNoise`, `Gain`, `Correct` (the
    update phase), `Advance` (one step) and `Filter` (a whole run).
  - The class `KalmanFilter` has the mutable fields `x` and `p`. Its methods
    `Prediction`, `Update` and `Run` follow the source statement by statement.
    Each is proved equal to the matching specification function.
- `fusion.dfy` (module `Fusion`): `combine_estimates`,
  `calculate_reduction_percentage`, and the fusion loop of `show_random`
  from `main.py`.

The error paths of the source are modelled as `Result` values:
- An empty measurement list makes the source raise at `noised_signals_height[0]`.
  `Seed` and `KalmanFilter.Create` return `Err(EmptyMeasurements)` for it.
- A zero total variance makes `combine_estimates` divide by zero.
  `Combine` and `FuseSeries` return `Err(ZeroTotalVariance)` for it.

The error paths follow the code:
- Fusion fails only when `P1 + P2 == 0`. This is the one case where the code
  divides by zero. Negative variances whose sum is non-zero still give a result.
- The filter constructor fails on an empty list through an index error. No
  dedicated check exists in the code.

## Model

| member | source | states |
|---|---|---|
| `Kalman.MeasurementNoise` | filters.py:23-30 | R always lies in [0.1, 1] |
| `Kalman.MeasurementNoiseBands` | filters.py:24-30 | R is 0.1 exactly when v <= 3, 0.3 exactly when 3 < v <= 7, 0.6 exactly when 7 < v <= 12, and 1 exactly when v > 12 |
| `Kalman.MeasurementNoiseMonotone` | filters.py:24-30 | a larger velocity never selects a smaller R |
| `Kalman.Seed` | filters.py:32-33 | construction fails exactly on an empty list; otherwise x is the first measurement and P is 1 |
| `Kalman.Predict` | filters.py:42-48 | the prediction moves x by exactly 0.05*v and raises P by exactly R, so by between 0.1 and 1 |
| `Kalman.ProcessNoise` | filters.py:64-65 | the process noise is one of Q1, Q2, and it is non-negative when both are |
| `Kalman.ProcessNoiseBand` | filters.py:65 | the band depends only on the measurement z: for z <= 152.4 (boundary included) the update does not depend on Q2, and above 152.4 it does not depend on Q1, whatever the predicted state |
| `Kalman.Gain` | filters.py:67-71 | the gain K satisfies 0 <= K < 1, and K > 0 exactly when P_pred > 0 |
| `Kalman.Correct` | filters.py:57-79 | for z > 762 the result is z and the state is unchanged (762 itself is not cut off); otherwise the result is the new x; the new x lies between x_pred and z; the new P lies in [0, P_pred], and in (0, P_pred) when P_pred > 0 |
| `Kalman.Advance` | filters.py:92-96 | one predict-then-update step keeps P non-negative, keeps it positive if it was positive, and makes it positive after any in-range measurement |
| `Kalman.Filter` | filters.py:88-100 | a run returns one estimate per measurement; the final P is non-negative, and it is positive when the initial P was |
| `Kalman.FilterExtend` | filters.py:91-98 | one more measurement appends exactly that step's output to the estimates and advances the state by that step |
| `Kalman.FilterAt` | filters.py:91-98 | estimate i is the output of step i, taken from the state left by the first i measurements |
| `Kalman.FilterElement` | filters.py:57-59 | estimate i is z_i when z_i > 762, and that step leaves the state unchanged; otherwise estimate i is the posterior x after step i |
| `Kalman.FilterStationary` | filters.py:43-77 | with v = 0 and every measurement equal to the seed, every estimate and the final x equal the seed |
| `Kalman.KalmanFilter.constructor` | filters.py:6-33 | stores v, the measurements, Q1 and Q2; R is MeasurementNoise(v); the state is the one Seed gives |
| `Kalman.KalmanFilter.Create` | filters.py:32 | fails exactly on an empty measurement list; otherwise returns a fresh, valid filter seeded as Seed says |
| `Kalman.KalmanFilter.Prediction` | filters.py:35-48 | returns Predict of the current state and changes neither x nor P; P_pred > P |
| `Kalman.KalmanFilter.Update` | filters.py:50-79 | the returned value and the new (x, P) are exactly Correct of the old state, the prediction and z |
| `Kalman.KalmanFilter.Run` | filters.py:81-100 | the estimates and the final state are exactly Filter of the state before the run over all measurements; the returned P is the field P |
| `Fusion.Combine` | main.py:104-107 | fusion fails exactly when P1 + P2 = 0 |
| `Fusion.CombineSymmetric` | main.py:105-106 | swapping (y1, P1) and (y2, P2) gives the same result |
| `Fusion.CombineSame` | main.py:104-107 | combining (y, P) with itself gives (y, P/2) for every P != 0 |
| `Fusion.CombineExact` | main.py:105-106 | with P1 = 0 and P2 != 0 the result is (y1, 0) |
| `Fusion.CombineBetween` | main.py:105-106 | with P1, P2 > 0 the fused estimate lies between y1 and y2, and the fused variance is positive and strictly below both P1 and P2 |
| `Fusion.CombineInverseVariance` | main.py:104-107 | with P1, P2 > 0 the fused precision is 1/P1 + 1/P2, and the fused estimate is the precision-weighted mean |
| `Fusion.ReductionPercentage` | main.py:136-153 | returns 0 when std_noisy = 0 and 100 when std_filtered = 0 with std_noisy != 0; lies in [0, 100] when 0 <= std_filtered <= std_noisy; is positive exactly when std_filtered < std_noisy, given std_noisy > 0 |
| `Fusion.FuseSeries` | main.py:170-175 | fails exactly when P1 + P2 = 0 and both series are non-empty; otherwise yields min(len(est1), len(est2)) pairs, where pair i is Combine(est1[i], P1, est2[i], P2), and the fused variance is the same at every index |

## Left out

- IEEE floating-point rounding. All formulas are exact over `real`.
- Kalman.KalmanFilter.constructor: requires Q1, Q2 >= 0, because they are variances. The source accepts any value; a negative one could make the update divide by zero or make P negative.
- Kalman.KalmanFilter.Create: has the same Q1, Q2 >= 0 requirement as the constructor.
- Kalman.KalmanFilter.Update: requires a non-negative predicted variance. The source accepts any value and fails only when P_pred + R + q is zero. `Run` always passes P + R > 0.
- Kalman.Gain: requires Q1, Q2 >= 0 and P_pred >= 0 for the same reason as `Update`.
- Kalman.Correct: requires Q1, Q2 >= 0 and P_pred >= 0 for the same reason as `Update`.
- The constant matrices F, H and I are all 1 in the source, so they are folded into the formulas.
- The measurement list is held as an immutable sequence. Aliasing is not modelled: in the source, a caller that mutates the list after construction changes what `run` reads.
- Monotone convergence for a constant input is not claimed in general. The prediction adds R to P before each update, so P need not fall from step to step. `FilterStationary` proves the estimate is exact when v = 0.
- The rest of `show_random` is left out: the printing of `combined_P[-1]` and of the mean, and the plotting. On two empty series that code fails with an index error.
- `calculate_std_errors` is left out. It wraps `numpy.std`, which needs square roots.
- Noise and ground-truth generation is left out. It is random and depends on float rounding.
- Plotting, JSON and text file I/O and the Tk user interface are left out. They are I/O and display only.
