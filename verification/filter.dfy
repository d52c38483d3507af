/** The filter object: first-measurement initialisation, then one prediction and at most one
    sensor update per measurement, as functions on the state and as a class updating it in place. */
module Filter {
  import opened Linalg
  import opened Primitives
  import opened Sigma
  import opened Measurement
  import opened Motion
  import opened Predictor
  import opened Updater

  datatype SensorType = Laser | Radar

  /** A sensor reading: lidar gives (px, py), radar gives (range, bearing, range rate). */
  datatype MeasurementPackage = MeasurementPackage(sensorType: SensorType, timestamp: int, raw: Vector)

  predicate WellFormed(m: MeasurementPackage) {
    if m.sensorType == Laser then |m.raw| == NZLidar else |m.raw| == NZRadar
  }

  /** The sensor switches and the noise standard deviations. */
  datatype Config = Config(useLaser: bool, useRadar: bool, stdA: real, stdYawdd: real,
                           stdLaspx: real, stdLaspy: real,
                           stdRadr: real, stdRadphi: real, stdRadrd: real)

  /** Everything a measurement can change. */
  datatype FilterState = FilterState(isInitialized: bool, timeUs: int, x: Vector, P: Matrix, XsigPred: seq<Vector>)

  predicate Shaped(s: FilterState) {
    |s.x| == NX && IsMat(s.P, NX, NX) && |s.XsigPred| == NSigma && AllLen(s.XsigPred, NX)
  }

  /** The steps a running filter performs on a measurement. */
  datatype Step = Predicted(dt: real) | LidarUpdated | RadarUpdated

  /** Microseconds between two timestamps, in seconds. */
  function DeltaT(prevUs: int, nowUs: int): (dt: real)
    ensures dt * 1000000.0 == (nowUs - prevUs) as real
    ensures prevUs <= nowUs ==> 0.0 <= dt
  {
    (nowUs - prevUs) as real / 1000000.0
  }

  /** Whether the first measurement seeds the state. A radar reading is admitted
      under the lidar switch and a lidar reading under the radar switch. */
  predicate Seeds(cfg: Config, m: MeasurementPackage) {
    (cfg.useLaser && m.sensorType == Radar) || (cfg.useRadar && m.sensorType == Laser)
  }

  /** Range and bearing to a Cartesian position. */
  function RadarPosition(lib: Library, ro: real, theta: real): (p: Vector)
    ensures |p| == 2
  {
    [ro * lib.cos(theta), ro * lib.sin(theta)]
  }

  /** The first measurement: the position is taken from the reading (converted from
      polar for radar), speed, yaw and yaw rate start at zero, P is kept, and the
      timestamp is recorded whether or not the reading was admitted. */
  function Seed(lib: Library, cfg: Config, s: FilterState, m: MeasurementPackage): (r: FilterState)
    requires Shaped(s) && WellFormed(m)
    ensures Shaped(r)
    ensures r.isInitialized == (s.isInitialized || Seeds(cfg, m))
    ensures r.timeUs == m.timestamp && r.P == s.P && r.XsigPred == s.XsigPred
    ensures Seeds(cfg, m) ==> r.x[2..] == [0.0, 0.0, 0.0]
    ensures Seeds(cfg, m) && m.sensorType == Laser ==> r.x[..2] == m.raw[..2]
    ensures Seeds(cfg, m) && m.sensorType == Radar ==> r.x[..2] == RadarPosition(lib, m.raw[0], m.raw[1])
    ensures !Seeds(cfg, m) ==> r.x == s.x
  {
    var fromRadar :=
      if cfg.useLaser && m.sensorType == Radar then
        s.(x := RadarPosition(lib, m.raw[0], m.raw[1]) + [0.0, 0.0, 0.0], isInitialized := true)
      else s;
    var fromLaser :=
      if cfg.useRadar && m.sensorType == Laser then
        fromRadar.(x := [m.raw[0], m.raw[1], 0.0, 0.0, 0.0], isInitialized := true)
      else fromRadar;
    fromLaser.(timeUs := m.timestamp)
  }

  /** Whether a running filter updates with this measurement. */
  predicate LidarEnabled(cfg: Config, m: MeasurementPackage) {
    cfg.useLaser && m.sensorType == Laser
  }

  predicate RadarEnabled(cfg: Config, m: MeasurementPackage) {
    !LidarEnabled(cfg, m) && cfg.useRadar && m.sensorType == Radar
  }

  /** The steps a measurement triggers: none before initialisation, otherwise one
      prediction over the elapsed time and then the update for the sensor, if its
      switch is on. */
  function Steps(cfg: Config, s: FilterState, m: MeasurementPackage): (steps: seq<Step>)
    ensures !s.isInitialized ==> steps == []
    ensures s.isInitialized ==> 1 <= |steps| <= 2 && steps[0] == Predicted(DeltaT(s.timeUs, m.timestamp))
    ensures forall i :: 1 <= i < |steps| ==> !steps[i].Predicted?
    ensures LidarUpdated in steps <==> s.isInitialized && cfg.useLaser && m.sensorType == Laser
    ensures RadarUpdated in steps <==> s.isInitialized && cfg.useRadar && m.sensorType == Radar
  {
    if !s.isInitialized then []
    else
      [Predicted(DeltaT(s.timeUs, m.timestamp))]
      + (if LidarEnabled(cfg, m) then [LidarUpdated]
         else if RadarEnabled(cfg, m) then [RadarUpdated]
         else [])
  }

  /** The prediction step on the filter state. */
  function PredictStep(lib: Library, cfg: Config, s: FilterState, dt: real): (r: FilterState)
    requires Shaped(s)
    ensures Shaped(r) && Symmetric(r.P)
    ensures r.isInitialized == s.isInitialized && r.timeUs == s.timeUs
  {
    var pr := Predict(lib, cfg.stdA, cfg.stdYawdd, s.x, s.P, dt);
    s.(x := pr.x, P := pr.P, XsigPred := pr.XsigPred)
  }

  /** The lidar update on the filter state; the sigma points are those of the last prediction. */
  function LidarStep(lib: Library, cfg: Config, s: FilterState, z: Vector): (r: FilterState)
    requires Shaped(s) && |z| == NZLidar
    ensures Shaped(r) && (Symmetric(s.P) ==> Symmetric(r.P))
    ensures r.isInitialized == s.isInitialized && r.timeUs == s.timeUs && r.XsigPred == s.XsigPred
  {
    var post := Update(lib, Weights(NAug), s.x, s.P, s.XsigPred, LidarSigma(s.XsigPred),
                       LidarNoise(cfg.stdLaspx, cfg.stdLaspy), NoAngle, z);
    s.(x := post.x, P := post.P)
  }

  /** The radar update on the filter state; the bearing is the angular component. */
  function RadarStep(lib: Library, cfg: Config, s: FilterState, z: Vector): (r: FilterState)
    requires Shaped(s) && |z| == NZRadar
    ensures Shaped(r) && (Symmetric(s.P) ==> Symmetric(r.P))
    ensures r.isInitialized == s.isInitialized && r.timeUs == s.timeUs && r.XsigPred == s.XsigPred
  {
    var post := Update(lib, Weights(NAug), s.x, s.P, s.XsigPred, RadarSigma(lib, s.XsigPred),
                       RadarNoise(cfg.stdRadr, cfg.stdRadphi, cfg.stdRadrd), AngleAt(1), z);
    s.(x := post.x, P := post.P)
  }

  predicate StepFits(step: Step, z: Vector) {
    (step.LidarUpdated? ==> |z| == NZLidar) && (step.RadarUpdated? ==> |z| == NZRadar)
  }

  function Apply(lib: Library, cfg: Config, s: FilterState, step: Step, z: Vector): (r: FilterState)
    requires Shaped(s) && StepFits(step, z)
    ensures Shaped(r) && (Symmetric(s.P) ==> Symmetric(r.P))
    ensures r.isInitialized == s.isInitialized && r.timeUs == s.timeUs
  {
    match step
    case Predicted(dt) => PredictStep(lib, cfg, s, dt)
    case LidarUpdated => LidarStep(lib, cfg, s, z)
    case RadarUpdated => RadarStep(lib, cfg, s, z)
  }

  /** The steps performed in order. */
  function Run(lib: Library, cfg: Config, s: FilterState, steps: seq<Step>, z: Vector): (r: FilterState)
    requires Shaped(s) && forall i :: 0 <= i < |steps| ==> StepFits(steps[i], z)
    ensures Shaped(r) && (Symmetric(s.P) ==> Symmetric(r.P))
    ensures r.isInitialized == s.isInitialized && r.timeUs == s.timeUs
    decreases |steps|
  {
    if steps == [] then s
    else Run(lib, cfg, Apply(lib, cfg, s, steps[0], z), steps[1..], z)
  }

  /** The state after one measurement. The filter, once initialised, stays so; the
      timestamp always advances to that of the measurement; a symmetric covariance stays
      symmetric. */
  function Process(lib: Library, cfg: Config, s: FilterState, m: MeasurementPackage): (r: FilterState)
    requires Shaped(s) && WellFormed(m)
    ensures Shaped(r) && r.timeUs == m.timestamp
    ensures r.isInitialized == (s.isInitialized || Seeds(cfg, m))
    ensures Symmetric(s.P) ==> Symmetric(r.P)
  {
    if !s.isInitialized then Seed(lib, cfg, s, m)
    else Run(lib, cfg, s.(timeUs := m.timestamp), Steps(cfg, s, m), m.raw)
  }

  /** A measurement to a running filter, unfolded: predict up to the new timestamp,
      then the update for the sensor if its switch is on. */
  lemma ProcessRunning(lib: Library, cfg: Config, s: FilterState, m: MeasurementPackage)
    requires Shaped(s) && WellFormed(m) && s.isInitialized
    ensures LidarEnabled(cfg, m) ==>
              Process(lib, cfg, s, m)
              == LidarStep(lib, cfg, PredictStep(lib, cfg, s.(timeUs := m.timestamp), DeltaT(s.timeUs, m.timestamp)), m.raw)
    ensures RadarEnabled(cfg, m) ==>
              Process(lib, cfg, s, m)
              == RadarStep(lib, cfg, PredictStep(lib, cfg, s.(timeUs := m.timestamp), DeltaT(s.timeUs, m.timestamp)), m.raw)
    ensures !LidarEnabled(cfg, m) && !RadarEnabled(cfg, m) ==>
              Process(lib, cfg, s, m) == PredictStep(lib, cfg, s.(timeUs := m.timestamp), DeltaT(s.timeUs, m.timestamp))
  {
    var p := PredictStep(lib, cfg, s.(timeUs := m.timestamp), DeltaT(s.timeUs, m.timestamp));
    var rest := Steps(cfg, s, m)[1..];
    assert Run(lib, cfg, p, [], m.raw) == p;
    if LidarEnabled(cfg, m) {
      assert rest == [LidarUpdated];
      assert Run(lib, cfg, p, rest, m.raw) == Run(lib, cfg, LidarStep(lib, cfg, p, m.raw), [], m.raw);
    } else if RadarEnabled(cfg, m) {
      assert rest == [RadarUpdated];
      assert Run(lib, cfg, p, rest, m.raw) == Run(lib, cfg, RadarStep(lib, cfg, p, m.raw), [], m.raw);
    } else {
      assert rest == [];
    }
  }

  /** With lidar switched off and radar on, a first radar reading is not admitted
      while a first lidar reading is: the initialisation switches are crossed. */
  lemma CrossedInitialisationSwitches(lib: Library, cfg: Config, s: FilterState, t: int, z: Vector)
    requires Shaped(s) && !s.isInitialized && !cfg.useLaser && cfg.useRadar && |z| == NZLidar
    ensures !Process(lib, cfg, s, MeasurementPackage(Radar, t, z + [0.0])).isInitialized
    ensures Process(lib, cfg, s, MeasurementPackage(Laser, t, z)).isInitialized
    ensures Process(lib, cfg, s, MeasurementPackage(Laser, t, z)).x == z + [0.0, 0.0, 0.0]
  {
    var r := Process(lib, cfg, s, MeasurementPackage(Laser, t, z));
    assert r.x[..2] == z && r.x[2..] == [0.0, 0.0, 0.0];
    assert r.x == r.x[..2] + r.x[2..];
  }

  /** With radar switched off and lidar on, a first lidar reading is not admitted
      while a first radar reading is: the mirror image of the case above. */
  lemma CrossedInitialisationSwitchesMirror(lib: Library, cfg: Config, s: FilterState, t: int, z: Vector)
    requires Shaped(s) && !s.isInitialized && cfg.useLaser && !cfg.useRadar && |z| == NZLidar
    ensures !Process(lib, cfg, s, MeasurementPackage(Laser, t, z)).isInitialized
    ensures Process(lib, cfg, s, MeasurementPackage(Radar, t, z + [0.0])).isInitialized
    ensures Process(lib, cfg, s, MeasurementPackage(Radar, t, z + [0.0])).timeUs == t
  {
  }

  /** A running filter fed a measurement at its own timestamp, whose sensor
      update is switched off, keeps its mean: the zero-length prediction recovers it. */
  lemma ZeroElapsedKeepsMean(lib: Library, cfg: Config, s: FilterState, m: MeasurementPackage)
    requires Shaped(s) && WellFormed(m) && s.isInitialized && m.timestamp == s.timeUs
    requires !LidarEnabled(cfg, m) && !RadarEnabled(cfg, m)
    ensures Process(lib, cfg, s, m).x == s.x
  {
    var t := s.(timeUs := m.timestamp);
    assert Steps(cfg, s, m) == [Predicted(0.0)];
    PredictZeroStepMean(lib, cfg.stdA, cfg.stdYawdd, s.x, s.P);
    assert Process(lib, cfg, s, m) == Run(lib, cfg, PredictStep(lib, cfg, t, 0.0), [], m.raw);
  }

  /** After a prediction, the predicted lidar measurement is the predicted position,
      so a lidar reading at that position leaves the mean unmoved. */
  lemma LidarAtPredictedPosition(lib: Library, cfg: Config, s: FilterState, dt: real, z: Vector)
    requires Shaped(s)
    requires z == PredictStep(lib, cfg, s, dt).x[..NZLidar]
    ensures WeightedMean(LidarSigma(PredictStep(lib, cfg, s, dt).XsigPred), Weights(NAug), NZLidar) == z
    ensures LidarStep(lib, cfg, PredictStep(lib, cfg, s, dt), z).x == PredictStep(lib, cfg, s, dt).x
  {
    var p := PredictStep(lib, cfg, s, dt);
    LidarMeanIsPosition(p.XsigPred, Weights(NAug));
    UpdateAtPredictedMeasurement(lib, Weights(NAug), p.x, p.P, p.XsigPred, LidarSigma(p.XsigPred),
                                 LidarNoise(cfg.stdLaspx, cfg.stdLaspy), NoAngle, z);
  }

  /** The filter object. */
  class UKF {
    var isInitialized: bool
    const useLaser: bool
    const useRadar: bool
    var x: Vector
    var P: Matrix
    var XsigPred: seq<Vector>
    var timeUs: int
    const stdA: real
    const stdYawdd: real
    const stdLaspx: real
    const stdLaspy: real
    const stdRadr: real
    const stdRadphi: real
    const stdRadrd: real
    const nX: nat
    const nAug: nat
    const lambda: real
    const weights: seq<real>
    /** The numerical primitives the filter calls. */
    const lib: Library

    ghost predicate Valid()
      reads this
    {
      Shaped(State()) && Symmetric(P)
      && nX == NX && nAug == NAug && lambda == Lambda(NAug) && weights == Weights(NAug)
    }

    function State(): FilterState
      reads this
    {
      FilterState(isInitialized, timeUs, x, P, XsigPred)
    }

    /** The switches and noise constants, fixed at construction. */
    function Configuration(): Config {
      Config(useLaser, useRadar, stdA, stdYawdd, stdLaspx, stdLaspy, stdRadr, stdRadphi, stdRadrd)
    }

    /** Both sensors on, the noise constants set, P the identity, the weights
        computed; the mean, sigma points and timestamp have no meaningful value yet. */
    constructor(lib: Library)
      ensures Valid() && !isInitialized
      ensures Configuration() == Config(true, true, 1.7, 0.5, 0.15, 0.15, 0.3, 0.03, 0.3)
      ensures P == Identity(NX)
      ensures weights[0] == -4.0 / 3.0 && forall i :: 1 <= i < |weights| ==> weights[i] == 1.0 / 6.0
      ensures this.lib == lib
    {
      this.lib := lib;
      nX := 5;
      nAug := 7;
      lambda := 3.0 - 7.0;
      useLaser := true;
      useRadar := true;
      stdA := 1.7;
      stdYawdd := 0.5;
      stdLaspx := 0.15;
      stdLaspy := 0.15;
      stdRadr := 0.3;
      stdRadphi := 0.03;
      stdRadrd := 0.3;
      var w := ComputeWeights(7);
      weights := w;
      new;
      x := Zeros(NX);
      isInitialized := false;
      P := Identity(nX);
      XsigPred := seq(2 * nAug + 1, i => Zeros(NX));
      timeUs := 0;
      IdentitySymmetric(NX);
      assert Shaped(State());
    }

    /** Handles one measurement: initialises on the first admitted one, otherwise
        predicts over the elapsed time and updates with the reading if its sensor is on. */
    method ProcessMeasurement(m: MeasurementPackage)
      requires Valid() && WellFormed(m)
      modifies this
      ensures Valid()
      ensures State() == Process(lib, Configuration(), old(State()), m)
    {
      ghost var s0 := State();
      if !isInitialized {
        if useLaser && m.sensorType == Radar {
          var ro := m.raw[0];
          var theta := m.raw[1];
          x := RadarPosition(lib, ro, theta) + [0.0, 0.0, 0.0];
          isInitialized := true;
        }
        if useRadar && m.sensorType == Laser {
          x := [m.raw[0], m.raw[1], 0.0, 0.0, 0.0];
          isInitialized := true;
        }
        timeUs := m.timestamp;
        assert State() == Seed(lib, Configuration(), s0, m);
        return;
      }
      ProcessRunning(lib, Configuration(), s0, m);
      var dt := DeltaT(timeUs, m.timestamp);
      timeUs := m.timestamp;
      Prediction(dt);
      if useLaser && m.sensorType == Laser {
        UpdateLidar(m);
      } else if useRadar && m.sensorType == Radar {
        UpdateRadar(m);
      }
    }

    /** Augments, draws the sigma points, propagates them through CTRV and takes
        their weighted mean and covariance. */
    method Prediction(dt: real)
      requires Valid()
      modifies this
      ensures Valid()
      ensures State() == PredictStep(lib, Configuration(), old(State()), dt)
    {
      var pr := PredictPrior(lib, weights, stdA, stdYawdd, x, P, dt);
      x, P, XsigPred := pr.x, pr.P, pr.XsigPred;
    }

    /** The lidar update: position projection, S with the lidar R, T, gain, correction. */
    method UpdateLidar(m: MeasurementPackage)
      requires Valid() && |m.raw| == NZLidar
      modifies this
      ensures Valid()
      ensures State() == LidarStep(lib, Configuration(), old(State()), m.raw)
    {
      var zSig := ProjectLidar(XsigPred);
      var post := UpdatePosterior(lib, weights, x, P, XsigPred, zSig, LidarNoise(stdLaspx, stdLaspy), NoAngle, m.raw);
      x, P := post.x, post.P;
    }

    /** The radar update: polar projection, S with the radar R and the bearing
        residuals normalised, T, gain, correction. */
    method UpdateRadar(m: MeasurementPackage)
      requires Valid() && |m.raw| == NZRadar
      modifies this
      ensures Valid()
      ensures State() == RadarStep(lib, Configuration(), old(State()), m.raw)
    {
      var zSig := ProjectRadar(lib, XsigPred);
      var post := UpdatePosterior(lib, weights, x, P, XsigPred, zSig, RadarNoise(stdRadr, stdRadphi, stdRadrd), AngleAt(1), m.raw);
      x, P := post.x, post.P;
    }
  }
}
