# Unscented Kalman filter for lidar and radar fusion, modelled in Dafny

The modelled system tracks one object in the plane. Its state is (px, py, v, yaw, yaw rate), and the process model is
constant turn rate and velocity (CTRV). Two sensors feed it:

- lidar, which measures the position (px, py);
- radar, which measures range, bearing and range rate.

The filter object `UKF` (src/ukf.cpp) has two states.

- **Uninitialised.** The first admitted measurement seeds the mean from the reading. A radar reading is converted
  from polar coordinates.
- **Running.** Every later measurement does three things in order:
  - it advances the clock;
  - it runs one unscented prediction over the elapsed time, in seconds;
  - it runs at most one measurement update, for the sensor that produced the reading, if that sensor's switch is on.

The prediction works on sigma points:

- it augments the mean and the covariance with the two process-noise terms;
- it builds 15 sigma points from a square-root factor of the augmented covariance;
- it propagates each point through CTRV;
- it takes the weighted mean and the weighted covariance. The weights are -4/3 and fourteen times 1/6. The yaw
  residual is normalised into [-pi, pi].

The update works as follows:

- it projects the predicted sigma points into measurement space;
- it forms the predicted measurement, the innovation covariance S (plus the sensor noise R) and the cross-correlation
  T;
- it corrects the mean with K (z - z_pred) and the covariance with K S K^T, where K = T S^-1.

For radar, the bearing residuals are normalised as well.

## How the model is built

The model represents data as follows:

- `double` (and the `float` locals of the initialisation) are `real`.
- Vectors are `seq<real>`, matrices are row-major `seq<seq<real>>`, and a set of sigma points is a `seq` of column
  vectors.
- sin, cos, sqrt, atan2, the Cholesky factor and the matrix inverse are fields of a `Library` value
  (`Primitives.Library`) of total functions that the model applies but does not interpret. The Cholesky factor is
  lower-triangular by construction.

Every loop of the source is a method proved against a specification function. The table below lists them. The class
`Filter.UKF` holds the fields the source updates: `isInitialized`, `x`, `P`, `XsigPred` and `timeUs`. Its methods
chain those loop methods, and each of them is stated against a function on the whole filter state:

- `Process`;
- `PredictStep`;
- `LidarStep` and `RadarStep`.

`Steps` lists what a measurement triggers. It returns nothing before initialisation; otherwise one prediction
followed by at most one update. `Process` runs exactly those steps.

Angle normalisation (`Angles.NormalizeAngle`) is the pair of `while` loops of the source. Its result is proved to lie
in [-pi, pi] and to differ from the input by a whole number of turns.

The switches are documented at src/ukf.cpp:15 as "if this is false, laser measurements will be ignored (except
during init)" and at src/ukf.cpp:18 as "if this is false, radar measurements will be ignored (except during init)".
So each switch is meant to gate the updates of its own sensor and never the first reading. The code admits the first
reading differently, in crossed fashion:

- a first radar reading seeds the filter only when `use_laser_` is set (src/ukf.cpp:86);
- a first lidar reading seeds it only when `use_radar_` is set (src/ukf.cpp:96).

The model follows the code. Two departures from the comments follow from it:

- with `use_laser_` off, a first radar reading is not admitted, as `Filter.CrossedInitialisationSwitches` states;
- with `use_radar_` off, a first lidar reading is not admitted, as `Filter.CrossedInitialisationSwitchesMirror`
  states.

With both switches on, which the constructor sets, the crossing is not observable.

## Model

| member | source | states |
|---|---|---|
| Sigma.ComputeWeights | src/ukf.cpp:60-65 | the weight loop yields `Weights(n_aug)`: weight 0 is (3 - n_aug)/3 = lambda/(lambda + n_aug) and every other weight is 1/6 |
| Sigma.WeightsSumToOne | src/ukf.cpp:59-65 | for any n_aug the central weight is (3 - n_aug)/3, the others are 1/6, and the weights sum to exactly 1 |
| Sigma.FilterWeights | src/ukf.cpp:58-65 | for n_aug = 7: 15 weights, lambda = -4, weight 0 is -4/3, every weight i with 1 <= i < 15 is 1/6, and their sum is 1 |
| Sigma.AugmentMean | src/ukf.cpp:144-149 | the augmented mean has 7 entries: x in the first five, then zeros for the two noise terms |
| Sigma.AugmentedMean | src/ukf.cpp:144-149 | the augmented mean keeps the state as its prefix and appends two zero entries for the noise terms |
| Sigma.AugmentedCovariance | src/ukf.cpp:152-161 | 7x7; P in the top-left 5x5 block; std_a^2 and std_yawdd^2 on the last two diagonal entries; zero everywhere else |
| Sigma.AugmentedCovarianceSymmetric | src/ukf.cpp:152-161 | the augmented covariance is symmetric when P is |
| Primitives.CholeskyFactor | src/ukf.cpp:166 | the factor is n x n and lower-triangular (zero above the diagonal); its other entries are uninterpreted |
| Sigma.GenerateSigmaPoints | src/ukf.cpp:164-171 | 2 n + 1 columns: column 0 is the mean, column i+1 is mean + c A_i, column i+n+1 is mean - c A_i |
| Sigma.SigmaMeanRecovery | src/ukf.cpp:167-171 | whatever the factor A and the spread c, the weighted mean of the sigma points is the augmented mean they were built from |
| Sigma.SigmaCovarianceRecovery | src/ukf.cpp:164-171 | whatever the factor A and the spread c, the weighted sum of the outer products of the sigma-point deviations is (c^2 / 3) A A^T |
| Sigma.SigmaCovarianceAtFilterSpread | src/ukf.cpp:164-171 | at the filter's spread, c^2 = lambda + n_aug = 3, that weighted sum is exactly A A^T |
| Sigma.SigmaComponentMean | src/ukf.cpp:167-171 | each component of the sigma points averages, under the weights, back to that component of the mean |
| Motion.PredictSigmaPoints | src/ukf.cpp:176-210 | each output column i is the CTRV step of augmented column i (the same column, none skipped) |
| Motion.CtrvZeroStep | src/ukf.cpp:185-209 | with delta_t = 0 both yaw-rate branches return the first five components of the augmented point unchanged |
| Motion.PropagateZeroStep | src/ukf.cpp:176-210 | a zero time step maps every sigma point to its state part |
| Motion.CtrvRandomWalk | src/ukf.cpp:195-204 | v gains delta_t nu_a, yaw gains yawd delta_t + delta_t^2 nu_yawdd / 2, and yawd gains delta_t nu_yawdd, in both branches |
| Motion.CtrvStraightLine | src/ukf.cpp:191-194 | for yaw rate at most 1e-5 in magnitude and no acceleration noise, the position moves by v delta_t along the heading |
| Angles.NormalizeAngle | src/ukf.cpp:221-222 | the two loops terminate; the result is in [-pi, pi] and equals the input plus a whole number of 2 pi turns |
| Angles.WrapInRange | src/ukf.cpp:282-283 | the normalised angle lies in [-pi, pi] |
| Angles.WrapSameAngle | src/ukf.cpp:357-358 | the normalised angle differs from the input by an integer multiple of 2 pi |
| Angles.WrapIdempotent | src/ukf.cpp:393-394 | an angle already in [-pi, pi] is unchanged, so normalising twice equals normalising once |
| Sigma.ComputeResidual | src/ukf.cpp:220-222 | the residual is v - mean in every component but the angular one, which lies in [-pi, pi] and is the same angle as the raw difference |
| Sigma.ResidualsNormalised | src/ukf.cpp:378-383 | every residual of a sigma-point set keeps its plain differences and has its angular component in [-pi, pi] |
| Sigma.Covariance | src/ukf.cpp:218-224 | the accumulation loop yields the weighted sum of residual outer products, and that sum is symmetric |
| Sigma.CrossCovariance | src/ukf.cpp:276-286 | the loop yields the weighted sum of state-residual times measurement-residual outer products |
| Predictor.Predict | src/ukf.cpp:130-225 | the prediction yields a 5-vector, a 5x5 covariance that is symmetric whatever P was, and 15 predicted sigma points of size 5 |
| Predictor.PredictPrior | src/ukf.cpp:141-224 | augment, draw sigma points with spread sqrt(lambda + n_aug), propagate, average and accumulate: exactly `Predict` |
| Predictor.PredictZeroStepMean | src/ukf.cpp:176-215 | a prediction over zero elapsed time returns the mean it started from |
| Predictor.PredictZeroStepCovariance | src/ukf.cpp:164-224 | a prediction over zero elapsed time returns the covariance it started from, when the factor is a true square root of P on the state block, the spread squared is lambda + n_aug = 3, and every yaw deviation c A[3][k] lies in [-pi, pi] so the loops at lines 221-222 leave it alone |
| Measurement.ProjectLidar | src/ukf.cpp:245-252 | each projected column is the first two components (px, py) of the same predicted sigma point |
| Measurement.ProjectRadar | src/ukf.cpp:333-345 | each projected column is (sqrt(px^2+py^2), atan2(py, px), (px cos yaw v + py sin yaw v) / range) of the same sigma point |
| Primitives.Quotient | src/ukf.cpp:343 | a nonzero divisor gives the exact quotient; a zero divisor gives `Library.nonFinite`, one fixed but unspecified real standing in for the IEEE result |
| Measurement.LidarNoise | src/ukf.cpp:267-269 | R for lidar is 2x2, symmetric, with the two position variances on the diagonal |
| Measurement.RadarNoise | src/ukf.cpp:362-365 | R for radar is 3x3, symmetric, with the range, bearing and range-rate variances on the diagonal |
| Measurement.LidarMeanIsPosition | src/ukf.cpp:254-256 | the predicted lidar measurement is the first two components of the weighted mean of the sigma points |
| Updater.InnovationCovariance | src/ukf.cpp:258-270 | S is nZ x nZ and symmetric: the residual sum is symmetric and R is |
| Updater.Correct | src/ukf.cpp:288-296 | the corrected covariance P - K S K^T stays symmetric when P and S are, whatever the inverse returns |
| Updater.Update | src/ukf.cpp:254-296 | the full update keeps the shapes and the symmetry of P |
| Updater.UpdatePosterior | src/ukf.cpp:254-296 | predicted measurement, S + R, T, gain, residual and correction as the update performs them: exactly `Update` |
| Updater.UpdateAtPredictedMeasurement | src/ukf.cpp:291-293 | a measurement equal to the predicted one gives a zero innovation, so the mean is not moved whatever the gain |
| Filter.DeltaT | src/ukf.cpp:107 | the elapsed seconds times 10^6 are the elapsed microseconds; a non-decreasing clock gives a non-negative step |
| Filter.Seed | src/ukf.cpp:85-105 | becomes initialised exactly for a radar reading under use_laser_ or a lidar reading under use_radar_; x becomes (rho cos theta, rho sin theta, 0, 0, 0) or (px, py, 0, 0, 0); P and the sigma points are kept; the timestamp is stored either way |
| Filter.Steps | src/ukf.cpp:107-119 | nothing before initialisation; otherwise one prediction over the elapsed time first, no second prediction, a lidar update iff use_laser_ and a laser reading, a radar update iff use_radar_ and a radar reading |
| Filter.Process | src/ukf.cpp:76-123 | the timestamp always becomes the measurement's, initialisation is never lost, shapes are kept and a symmetric P stays symmetric |
| Filter.ProcessRunning | src/ukf.cpp:107-119 | a running filter predicts up to the new timestamp, then applies the lidar update, the radar update or nothing |
| Filter.PredictStep | src/ukf.cpp:130-225 | the prediction on the filter state leaves the flag and the clock alone and produces a symmetric covariance |
| Filter.LidarStep | src/ukf.cpp:231-297 | the lidar update on the filter state keeps the flag, the clock and the sigma points, and keeps P symmetric |
| Filter.RadarStep | src/ukf.cpp:318-398 | the radar update on the filter state keeps the flag, the clock and the sigma points, and keeps P symmetric |
| Filter.CrossedInitialisationSwitches | src/ukf.cpp:86-101 | with lidar off and radar on, a first radar reading leaves the filter uninitialised while a first lidar reading initialises it to (px, py, 0, 0, 0) |
| Filter.CrossedInitialisationSwitchesMirror | src/ukf.cpp:86-101 | with radar off and lidar on, a first lidar reading leaves the filter uninitialised while a first radar reading initialises it and stores its timestamp |
| Filter.ZeroElapsedKeepsMean | src/ukf.cpp:107-111 | a measurement at the filter's own timestamp, whose sensor is switched off, leaves the mean unchanged |
| Filter.LidarAtPredictedPosition | src/ukf.cpp:246-256 | after a prediction, z_pred for lidar is the predicted position, and a reading there leaves the mean unmoved |
| Filter.UKF.constructor | src/ukf.cpp:14-68 | both switches on, the noise constants 1.7, 0.5, 0.15, 0.15, 0.3, 0.03, 0.3, uninitialised, P the 5x5 identity, the weights -4/3 and 1/6 |
| Filter.UKF.ProcessMeasurement | src/ukf.cpp:76-123 | the new filter state is `Process` of the old one; the object stays valid (shapes, symmetric P, constants) |
| Filter.UKF.Prediction | src/ukf.cpp:130-225 | the new state is `PredictStep` of the old one |
| Filter.UKF.UpdateLidar | src/ukf.cpp:231-297 | the new state is `LidarStep` of the old one with the reading |
| Filter.UKF.UpdateRadar | src/ukf.cpp:318-398 | the new state is `RadarStep` of the old one with the reading |

Five definitions carry only shape contracts of their own. The rows above state what they compute:

- `Motion.Ctrv` (src/ukf.cpp:177-208), the CTRV step of one column: `Motion.PredictSigmaPoints`,
  `Motion.CtrvZeroStep`, `Motion.CtrvRandomWalk` and `Motion.CtrvStraightLine`;
- `Measurement.RadarProject` (src/ukf.cpp:336-344), the radar projection of one column: `Measurement.ProjectRadar`
  and `Primitives.Quotient`;
- `Updater.CrossCovarianceOf` (src/ukf.cpp:274-286, 371-386), the matrix T: `Sigma.CrossCovariance` and
  `Updater.UpdatePosterior`;
- `Filter.Seeds` (src/ukf.cpp:86, 96), the admission test for the first reading: `Filter.Seed`,
  `Filter.CrossedInitialisationSwitches` and `Filter.CrossedInitialisationSwitchesMirror`;
- `Filter.RadarPosition` (src/ukf.cpp:87-91), the polar-to-Cartesian conversion of the first radar reading:
  `Filter.Seed`.

## Left out

- The normalised innovation squared (NIS), its function-level `static` accumulators and every console print
  (src/ukf.cpp:121-122, 298-311, 400-413): these are diagnostics that do not feed back into the filter state.
- Floating-point rounding, and the narrowing to `float` when the first reading is converted: all arithmetic is on
  `real`.
- The values of sin, cos, sqrt, atan2, the Cholesky factorisation and the matrix inverse: they are uninterpreted.
  Nothing is claimed about their accuracy, about whether the factor reproduces the augmented covariance, or about
  what happens when S is singular.
- Primitives.Quotient: a zero divisor gives one ordinary real (`Library.nonFinite`), not an IEEE infinity or NaN.
  In the source such a value is reachable: after a first lidar reading at (0, 0), the central predicted sigma point
  of the next radar update has range zero, and 0/0 at src/ukf.cpp:343 spreads NaN through z_pred, S and K into `x_`
  and `P_`. The model does not capture that spread. Its symmetry and shape contracts (`Updater.Update`,
  `Filter.RadarStep`, `Filter.Process`, `Filter.UKF.UpdateRadar`) hold for real arithmetic only and say nothing
  about a state holding NaN entries.
- Sigma.SigmaCovarianceRecovery: proves the weighted deviation sum is (c^2 / 3) A A^T for the factor A. It does not
  prove that this equals the augmented covariance, because the Cholesky factor is uninterpreted, so A A^T = P_aug
  is not established.
- The `MeasurementPackage` type and its parsing are not part of this model. A measurement is a sensor tag, an integer
  timestamp and a vector of reals of the sensor's dimension. The radar range rate is read by the source at
  initialisation but never used, and the model does not read it.
- The initial contents of `x_`, `Xsig_pred_` and `time_us_`, which the constructor leaves unset: the model starts
  them at zeros, and no contract relies on those values.
- The switches and the noise standard deviations are public mutable fields in the source. Here they are fixed at
  construction, since no code in the class writes them after the constructor.
- Filter.UKF.ProcessMeasurement: states the resulting state but not the order in which the three methods were
  called; the order is stated by `Filter.Steps` and `Filter.ProcessRunning` on the functional model.
- Predictor.Predict: states shapes and symmetry, and the zero-step mean (`Predictor.PredictZeroStepMean`). The
  zero-step covariance (`Predictor.PredictZeroStepCovariance`) holds only under two conditions. First, the
  factor must reproduce P on the state block. The model cannot establish this, because the Cholesky factor is
  uninterpreted. Second, every yaw deviation c A[3][k] must lie in [-pi, pi]. Otherwise the loops at
  src/ukf.cpp:221-222 fold it back and shrink the covariance. For example, P = diag(1, 1, 1, 16, 1) gives yaw
  deviations of about 6.93, which fold to about 0.65. Positive semi-definiteness of the predicted covariance is not
  stated either: the central weight is negative, so the code does not guarantee it.
- Measurement.ProjectRadar: states the projection through `RadarSigma`; the values of sqrt and atan2 are not
  described further.
