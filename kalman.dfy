/** A scalar Kalman filter over altitude measurements.

    The state is one estimate `x` with its variance `P`. Each step predicts
    `x + B*v` and `P + R`, then corrects the prediction with the measurement
    `z`, unless `z` lies above the sensor's range cutoff, in which case `z` is
    passed through and the state is left alone. The measurement noise `R` is
    chosen once from the velocity; the process noise is `Q1` or `Q2` depending
    on the altitude band of the measurement. */
module Kalman {
  import opened Common

  /** Coupling of velocity into position per step. */
  const B: real := 0.05
  /** Measurements strictly above this altitude bypass the filter. */
  const Cutoff: real := 762.0
  /** Upper edge (inclusive) of the low-altitude process-noise band. */
  const LowBand: real := 152.4
  const DefaultQ1: real := 4.572
  const DefaultQ2: real := 38.1
  const InitialVariance: real := 1.0

  /** Measurement noise R as a function of the velocity. */
  function MeasurementNoise(v: real): (r: real)
    ensures 0.1 <= r <= 1.0
  {
    if v <= 3.0 then 0.1
    else if v <= 7.0 then 0.3
    else if v <= 12.0 then 0.6
    else 1.0
  }

  /** The four velocity bands, each read in both directions. */
  lemma MeasurementNoiseBands(v: real)
    ensures MeasurementNoise(v) == 0.1 <==> v <= 3.0
    ensures MeasurementNoise(v) == 0.3 <==> 3.0 < v <= 7.0
    ensures MeasurementNoise(v) == 0.6 <==> 7.0 < v <= 12.0
    ensures MeasurementNoise(v) == 1.0 <==> 12.0 < v
  {
  }

  /** A faster object never gets a smaller measurement noise. */
  lemma MeasurementNoiseMonotone(v1: real, v2: real)
    requires v1 <= v2
    ensures MeasurementNoise(v1) <= MeasurementNoise(v2)
  {
  }

  /** The fixed parameters of one filter: velocity and the two process noises. */
  datatype Config = Config(v: real, q1: real, q2: real) {
    function R(): real {
      MeasurementNoise(v)
    }

    /** Process noises are variances. */
    predicate Valid() {
      q1 >= 0.0 && q2 >= 0.0
    }
  }

  /** An estimate of the altitude together with its variance. */
  datatype Estimate = Estimate(x: real, p: real)

  /** What one update hands back: the value reported for the step and the
      filter state afterwards. */
  datatype Step = Step(out: real, post: Estimate)

  /** Everything a run reports: one value per measurement and the final state. */
  datatype FilterRun = FilterRun(estimates: seq<real>, final: Estimate)

  datatype FilterError = EmptyMeasurements

  /** Construction: the first measurement seeds the estimate, the variance
      starts at 1; an empty list has nothing to seed from. */
  function Seed(measurements: seq<real>): (r: Result<Estimate, FilterError>)
    ensures r.Err? <==> measurements == []
    ensures r.Ok? ==> r.value.x == measurements[0] && r.value.p == InitialVariance
  {
    if measurements == [] then Err(EmptyMeasurements)
    else Ok(Estimate(measurements[0], InitialVariance))
  }

  /** The prediction phase: position moves by B*v, the variance grows by R. */
  function Predict(c: Config, s: Estimate): (pr: Estimate)
    ensures pr.x - s.x == B * c.v
    ensures pr.p - s.p == c.R()
    ensures s.p + 0.1 <= pr.p <= s.p + 1.0
  {
    Estimate(s.x + B * c.v, s.p + c.R())
  }

  /** Process noise for a measurement: Q1 in the low band, Q2 above it. */
  function ProcessNoise(c: Config, z: real): (q: real)
    ensures q == c.q1 || q == c.q2
    ensures c.Valid() ==> q >= 0.0
  {
    if z <= LowBand then c.q1 else c.q2
  }

  /** The Kalman gain for a predicted variance; it never reaches 1, and it is
      strictly positive once the predicted variance is. */
  function Gain(c: Config, pPred: real, z: real): (k: real)
    requires c.Valid() && pPred >= 0.0
    ensures 0.0 <= k < 1.0
    ensures pPred > 0.0 <==> k > 0.0
  {
    var s := pPred + c.R() + ProcessNoise(c, z);
    assert s > pPred && s > 0.0;
    DivBelowOne(pPred, s);
    pPred / s
  }

  lemma DivBelowOne(a: real, s: real)
    requires 0.0 <= a < s
    ensures 0.0 <= a / s < 1.0
    ensures a > 0.0 <==> a / s > 0.0
  {
    var d := a / s;
    assert d * s == a;
    assert (1.0 - d) * s == s - a;
    PositiveFactor(1.0 - d, s);
    if a > 0.0 {
      PositiveFactor(d, s);
    }
  }

  /** The update phase against a prediction `pr`, with state `s` before it. */
  function Correct(c: Config, s: Estimate, pr: Estimate, z: real): (st: Step)
    requires c.Valid() && pr.p >= 0.0
    ensures z > Cutoff ==> st.out == z && st.post == s
    ensures z <= Cutoff ==> st.out == st.post.x && Between(pr.x, z, st.post.x)
    ensures z <= Cutoff ==> 0.0 <= st.post.p <= pr.p
    ensures z <= Cutoff && pr.p > 0.0 ==> 0.0 < st.post.p < pr.p
  {
    if z > Cutoff then Step(z, s)
    else
      var k := Gain(c, pr.p, z);
      var x := pr.x + k * (z - pr.x);
      BlendBetween(pr.x, z, k);
      ShrinkVariance(pr.p, k);
      Step(x, Estimate(x, (1.0 - k) * pr.p))
  }

  lemma ShrinkVariance(p: real, k: real)
    requires p >= 0.0 && 0.0 <= k < 1.0
    requires p > 0.0 <==> k > 0.0
    ensures 0.0 <= (1.0 - k) * p <= p
    ensures p > 0.0 ==> 0.0 < (1.0 - k) * p < p
  {
    assert (1.0 - k) * p == p - k * p;
    if p > 0.0 {
      assert k * p > 0.0;
    }
  }

  /** One full filter step: predict from the current state, then correct. */
  function Advance(c: Config, s: Estimate, z: real): (st: Step)
    requires c.Valid() && s.p >= 0.0
    ensures st.post.p >= 0.0
    ensures s.p > 0.0 ==> st.post.p > 0.0
    ensures z <= Cutoff ==> st.post.p > 0.0
  {
    Correct(c, s, Predict(c, s), z)
  }

  /** The whole run over `zs` from state `s`, defined step by step from the
      end so that a prefix of the measurements gives a prefix of the run. */
  function Filter(c: Config, s: Estimate, zs: seq<real>): (r: FilterRun)
    requires c.Valid() && s.p >= 0.0
    ensures |r.estimates| == |zs|
    ensures r.final.p >= 0.0
    ensures s.p > 0.0 ==> r.final.p > 0.0
    decreases |zs|
  {
    if zs == [] then FilterRun([], s)
    else
      var before := Filter(c, s, zs[..|zs| - 1]);
      var st := Advance(c, before.final, zs[|zs| - 1]);
      FilterRun(before.estimates + [st.out], st.post)
  }

  /** Running over one more measurement extends the estimates by the value
      reported for that step and moves the state by one step. */
  lemma FilterExtend(c: Config, s: Estimate, zs: seq<real>, i: nat)
    requires c.Valid() && s.p >= 0.0
    requires i < |zs|
    ensures Filter(c, s, zs[..i + 1]).estimates
            == Filter(c, s, zs[..i]).estimates + [Advance(c, Filter(c, s, zs[..i]).final, zs[i]).out]
    ensures Filter(c, s, zs[..i + 1]).final == Advance(c, Filter(c, s, zs[..i]).final, zs[i]).post
  {
    assert zs[..i + 1][..i] == zs[..i];
  }

  /** Each estimate of a run is the value the filter reports at that step,
      from the state left by the measurements before it. */
  lemma {:induction false} FilterAt(c: Config, s: Estimate, zs: seq<real>, i: nat)
    requires c.Valid() && s.p >= 0.0
    requires i < |zs|
    ensures Filter(c, s, zs).estimates[i] == Advance(c, Filter(c, s, zs[..i]).final, zs[i]).out
    decreases |zs|
  {
    var n := |zs| - 1;
    assert zs[..n + 1] == zs;
    if i == n {
      FilterExtend(c, s, zs, n);
    } else {
      var front := zs[..n];
      FilterAt(c, s, front, i);
      assert front[..i] == zs[..i];
      assert front[i] == zs[i];
    }
  }

  /** Element i of a run: the raw measurement when it is above the cutoff,
      otherwise the posterior estimate after step i. A cut-off step leaves
      the state as it was. */
  lemma FilterElement(c: Config, s: Estimate, zs: seq<real>, i: nat)
    requires c.Valid() && s.p >= 0.0
    requires i < |zs|
    ensures zs[i] > Cutoff ==> Filter(c, s, zs).estimates[i] == zs[i]
    ensures zs[i] > Cutoff ==> Filter(c, s, zs[..i + 1]).final == Filter(c, s, zs[..i]).final
    ensures zs[i] <= Cutoff ==> Filter(c, s, zs).estimates[i] == Filter(c, s, zs[..i + 1]).final.x
  {
    FilterAt(c, s, zs, i);
    FilterExtend(c, s, zs, i);
  }

  /** The process-noise band is decided by the measurement alone: in the low
      band Q2 plays no part, above it Q1 plays no part, whatever the
      predicted altitude. */
  lemma ProcessNoiseBand(c: Config, s: Estimate, pr: Estimate, z: real, q: real)
    requires c.Valid() && pr.p >= 0.0 && q >= 0.0
    ensures z <= LowBand ==> Correct(c.(q2 := q), s, pr, z) == Correct(c, s, pr, z)
    ensures z > LowBand ==> Correct(c.(q1 := q), s, pr, z) == Correct(c, s, pr, z)
  {
  }

  /** A stationary object (v = 0) measured exactly at its seeded altitude,
      within range, is estimated at that altitude at every step. */
  lemma {:induction false} FilterStationary(c: Config, s: Estimate, zs: seq<real>)
    requires c.Valid() && s.p >= 0.0
    requires c.v == 0.0
    requires forall j :: 0 <= j < |zs| ==> zs[j] == s.x
    ensures Filter(c, s, zs).final.x == s.x
    ensures forall j :: 0 <= j < |zs| ==> Filter(c, s, zs).estimates[j] == s.x
    decreases |zs|
  {
    if zs != [] {
      var n := |zs| - 1;
      var front := zs[..n];
      FilterStationary(c, s, front);
      var before := Filter(c, s, front);
      var st := Advance(c, before.final, zs[n]);
      assert Predict(c, before.final).x == s.x;
      assert st.post.x == s.x;
    }
  }

  /** One filter object: the configuration is fixed at construction, the
      estimate `x` and its variance `P` change with every update. */
  class KalmanFilter {
    const v: real
    const measurements: seq<real>
    const q1: real
    const q2: real
    const r: real
    var x: real
    var p: real

    function Params(): Config {
      Config(v, q1, q2)
    }

    function Current(): Estimate
      reads this
    {
      Estimate(x, p)
    }

    ghost predicate Valid()
      reads this
    {
      Params().Valid() && r == Params().R() && p >= 0.0
    }

    /** The success path of construction; `Create` also covers the empty list. */
    constructor (v: real, measurements: seq<real>, q1: real := DefaultQ1, q2: real := DefaultQ2)
      requires measurements != []
      requires q1 >= 0.0 && q2 >= 0.0
      ensures Valid()
      ensures this.v == v && this.measurements == measurements
      ensures this.q1 == q1 && this.q2 == q2
      ensures Seed(measurements) == Ok(Current())
    {
      this.v := v;
      this.measurements := measurements;
      this.q1 := q1;
      this.q2 := q2;
      r := MeasurementNoise(v);
      x := measurements[0];
      p := InitialVariance;
    }

    /** Construction as the program sees it: an empty list cannot seed the
        state and is reported as an error. */
    static method Create(v: real, measurements: seq<real>, q1: real := DefaultQ1, q2: real := DefaultQ2)
      returns (res: Result<KalmanFilter, FilterError>)
      requires q1 >= 0.0 && q2 >= 0.0
      ensures res.Err? <==> measurements == []
      ensures res.Ok? ==> fresh(res.value) && res.value.Valid()
      ensures res.Ok? ==> res.value.Params() == Config(v, q1, q2) && res.value.measurements == measurements
      ensures res.Ok? ==> Seed(measurements) == Ok(res.value.Current())
    {
      if measurements == [] {
        return Err(EmptyMeasurements);
      }
      var f := new KalmanFilter(v, measurements, q1, q2);
      return Ok(f);
    }

    /** The prediction phase; it reads the state and changes nothing. */
    method Prediction() returns (xPred: real, pPred: real)
      requires Valid()
      ensures Estimate(xPred, pPred) == Predict(Params(), Current())
      ensures pPred > p
    {
      xPred := x + B * v;
      pPred := p + r;
    }

    /** The update phase for measurement `z` against a prediction. */
    method Update(z: real, xPred: real, pPred: real) returns (out: real)
      requires Valid() && pPred >= 0.0
      modifies this`x, this`p
      ensures Valid()
      ensures Step(out, Current()) == Correct(Params(), old(Current()), Estimate(xPred, pPred), z)
    {
      if z > Cutoff {
        return z;
      }
      var y := z - xPred;
      var q := if z <= LowBand then q1 else q2;
      var s := pPred + r + q;
      var k := pPred / s;
      ghost var st := Correct(Params(), Current(), Estimate(xPred, pPred), z);
      assert k == Gain(Params(), pPred, z);
      assert st.post == Estimate(xPred + k * y, (1.0 - k) * pPred);
      x := xPred + k * y;
      p := (1.0 - k) * pPred;
      out := x;
      assert Current() == st.post;
    }

    /** The main loop: predict then update for every measurement, in order. */
    method Run() returns (estimates: seq<real>, finalP: real)
      requires Valid()
      modifies this`x, this`p
      ensures Valid()
      ensures Filter(Params(), old(Current()), measurements) == FilterRun(estimates, Current())
      ensures finalP == p
    {
      ghost var start := Current();
      estimates := [];
      for i := 0 to |measurements|
        invariant Valid()
        invariant Filter(Params(), start, measurements[..i]) == FilterRun(estimates, Current())
      {
        var xPred, pPred := Prediction();
        var out := Update(measurements[i], xPred, pPred);
        FilterExtend(Params(), start, measurements, i);
        estimates := estimates + [out];
      }
      assert measurements[..|measurements|] == measurements;
      finalP := p;
    }
  }
}
