/** Fusion of two sensors' filtered estimates by inverse-variance weighting,
    and the percentage by which filtering reduced the error spread. */
module Fusion {
  import opened Common

  /** A fused estimate and its variance. */
  datatype Fused = Fused(y: real, p: real)

  datatype FusionError = ZeroTotalVariance

  /** Inverse-variance weighting of (y1, p1) and (y2, p2): each estimate is
      weighted by the other's variance. Both divisions are by p1 + p2, so a
      zero total variance is an error. */
  function Combine(y1: real, p1: real, y2: real, p2: real): (r: Result<Fused, FusionError>)
    ensures r.Err? <==> p1 + p2 == 0.0
  {
    if p1 + p2 == 0.0 then Err(ZeroTotalVariance)
    else Ok(Fused((p2 * y1 + p1 * y2) / (p1 + p2), (p1 * p2) / (p1 + p2)))
  }

  /** The order of the two sensors does not matter. */
  lemma CombineSymmetric(y1: real, p1: real, y2: real, p2: real)
    ensures Combine(y1, p1, y2, p2) == Combine(y2, p2, y1, p1)
  {
    assert p2 * y1 + p1 * y2 == p1 * y2 + p2 * y1;
    assert p1 * p2 == p2 * p1;
  }

  /** Two equally certain copies of one estimate keep the estimate and halve
      the variance. */
  lemma CombineSame(y: real, p: real)
    requires p != 0.0
    ensures Combine(y, p, y, p) == Ok(Fused(y, p / 2.0))
  {
    var f := Combine(y, p, y, p).value;
    assert f.y * (p + p) == p * y + p * y == y * (p + p);
    Cancel(f.y, y, p + p);
    assert f.p * (p + p) == p * p;
    assert (p / 2.0) * (p + p) == p * p;
    Cancel(f.p, p / 2.0, p + p);
  }

  /** A sensor with zero variance is trusted completely. */
  lemma CombineExact(y1: real, y2: real, p2: real)
    requires p2 != 0.0
    ensures Combine(y1, 0.0, y2, p2) == Ok(Fused(y1, 0.0))
  {
    var f := Combine(y1, 0.0, y2, p2).value;
    assert f.y * p2 == p2 * y1 + 0.0 * y2 == y1 * p2;
    Cancel(f.y, y1, p2);
    assert f.p * p2 == 0.0 * p2;
    Cancel(f.p, 0.0, p2);
  }

  /** With both variances positive the fused estimate lies between the two
      inputs, and the fused variance is positive and below each input's. */
  lemma CombineBetween(y1: real, p1: real, y2: real, p2: real)
    requires p1 > 0.0 && p2 > 0.0
    ensures Combine(y1, p1, y2, p2).Ok?
    ensures Between(y1, y2, Combine(y1, p1, y2, p2).value.y)
    ensures 0.0 < Combine(y1, p1, y2, p2).value.p < p1
    ensures Combine(y1, p1, y2, p2).value.p < p2
  {
    var s := p1 + p2;
    var w := p2 / s;
    WeightedMean(y1, p1, y2, p2);
    BlendBetween(y2, y1, w);
    FusedVarianceBelow(p1, p2);
    FusedVarianceBelow(p2, p1);
    assert p2 * p1 == p1 * p2 && p2 + p1 == s;
  }

  /** The fused estimate moves from y2 towards y1 by the weight P2/(P1+P2),
      which lies in (0, 1). */
  lemma WeightedMean(y1: real, p1: real, y2: real, p2: real)
    requires p1 > 0.0 && p2 > 0.0
    ensures 0.0 < p2 / (p1 + p2) < 1.0
    ensures (p2 * y1 + p1 * y2) / (p1 + p2) == y2 + (p2 / (p1 + p2)) * (y1 - y2)
  {
    var s := p1 + p2;
    var w := p2 / s;
    assert w * s == p2;
    assert (1.0 - w) * s == p1;
    PositiveFactor(w, s);
    PositiveFactor(1.0 - w, s);
    var m := (p2 * y1 + p1 * y2) / s;
    assert m * s == p2 * y1 + p1 * y2;
    assert (y2 + w * (y1 - y2)) * s == y2 * s + (w * s) * (y1 - y2);
    Cancel(m, y2 + w * (y1 - y2), s);
  }

  /** The fused variance is positive and strictly below the first input's. */
  lemma FusedVarianceBelow(p1: real, p2: real)
    requires p1 > 0.0 && p2 > 0.0
    ensures 0.0 < (p1 * p2) / (p1 + p2) < p1
  {
    var s := p1 + p2;
    VarianceFraction(p1, p2, s, p2 / s, (p1 * p2) / s);
  }

  lemma VarianceFraction(p1: real, p2: real, s: real, w: real, q: real)
    requires p1 > 0.0 && p2 > 0.0 && s == p1 + p2
    requires w * s == p2 && q * s == p1 * p2
    ensures 0.0 < q < p1
  {
    assert (1.0 - w) * s == p1;
    PositiveFactor(w, s);
    PositiveFactor(1.0 - w, s);
    assert q * s == (p1 * w) * s;
    Cancel(q, p1 * w, s);
    PositiveProduct(p1, w);
    FractionBelow(p1, w, q);
  }

  /** A proper fraction of a positive value is below that value. */
  lemma FractionBelow(a: real, w: real, q: real)
    requires a > 0.0 && w < 1.0 && q == a * w
    ensures q < a
  {
    PositiveProduct(a, 1.0 - w);
    ScaleComplement(a, w);
  }

  /** The fused result agrees with the textbook form of inverse-variance
      weighting: precisions add, and the estimate is the precision-weighted
      mean. */
  lemma CombineInverseVariance(y1: real, p1: real, y2: real, p2: real)
    requires p1 > 0.0 && p2 > 0.0
    ensures Combine(y1, p1, y2, p2).Ok?
    ensures 1.0 / Combine(y1, p1, y2, p2).value.p == 1.0 / p1 + 1.0 / p2
    ensures Combine(y1, p1, y2, p2).value.y
            == Combine(y1, p1, y2, p2).value.p * (y1 / p1 + y2 / p2)
  {
    var s := p1 + p2;
    var f := Combine(y1, p1, y2, p2).value;
    assert f.p * s == p1 * p2;
    assert f.p > 0.0 by {
      assert p1 * p2 > 0.0;
      PositiveFactor(f.p, s);
    }
    assert (1.0 / p1 + 1.0 / p2) * (p1 * p2) == s;
    assert (1.0 / f.p) * (p1 * p2) == s;
    assert f.y * s == p2 * y1 + p1 * y2;
    assert (y1 / p1 + y2 / p2) * (p1 * p2) == p2 * y1 + p1 * y2;
  }

  /** Percentage reduction of the error's standard deviation; 0 when the
      noisy spread is 0. */
  function ReductionPercentage(stdNoisy: real, stdFiltered: real): (r: real)
    ensures stdNoisy == 0.0 ==> r == 0.0
    ensures stdNoisy != 0.0 && stdFiltered == 0.0 ==> r == 100.0
    ensures stdNoisy > 0.0 && 0.0 <= stdFiltered <= stdNoisy ==> 0.0 <= r <= 100.0
    ensures stdNoisy > 0.0 ==> (r > 0.0 <==> stdFiltered < stdNoisy)
  {
    if stdNoisy != 0.0 then
      var r := ((stdNoisy - stdFiltered) / stdNoisy) * 100.0;
      ReductionBounds(stdNoisy, stdFiltered);
      r
    else 0.0
  }

  lemma ReductionBounds(n: real, f: real)
    requires n != 0.0
    ensures f == 0.0 ==> ((n - f) / n) * 100.0 == 100.0
    ensures n > 0.0 && 0.0 <= f <= n ==> 0.0 <= ((n - f) / n) * 100.0 <= 100.0
    ensures n > 0.0 ==> (((n - f) / n) * 100.0 > 0.0 <==> f < n)
  {
    var d := (n - f) / n;
    assert d * n == n - f;
    if n > 0.0 {
      if f < n {
        PositiveFactor(d, n);
      } else {
        NonNegativeProduct(-d, n) by {
          if -d < 0.0 {
            PositiveFactor(d, n);
          }
        }
      }
      if 0.0 <= f {
        assert (1.0 - d) * n == f;
        if 1.0 - d < 0.0 {
          NonNegativeProduct(d - 1.0, n);
        }
      }
    }
  }

  /** The fused series of two filter runs, one entry per time index. */
  datatype FusedSeries = FusedSeries(ys: seq<real>, ps: seq<real>)

  /** Fuses two estimate series index by index, up to the shorter one, with
      the same pair of variances at every index. The first division by a zero
      total variance is an error; two empty series never divide. */
  method FuseSeries(est1: seq<real>, p1: real, est2: seq<real>, p2: real)
    returns (res: Result<FusedSeries, FusionError>)
    ensures res.Err? <==> (p1 + p2 == 0.0 && est1 != [] && est2 != [])
    ensures res.Ok? ==> |res.value.ys| == |res.value.ps| == Min(|est1|, |est2|)
    ensures res.Ok? ==> forall i :: 0 <= i < |res.value.ys| ==>
              Combine(est1[i], p1, est2[i], p2) == Ok(Fused(res.value.ys[i], res.value.ps[i]))
    ensures res.Ok? ==> forall i :: 0 <= i < |res.value.ps| ==> res.value.ps[i] == res.value.ps[0]
  {
    var n := Min(|est1|, |est2|);
    var ys: seq<real> := [];
    var ps: seq<real> := [];
    for i := 0 to n
      invariant |ys| == |ps| == i
      invariant i > 0 ==> p1 + p2 != 0.0
      invariant forall j :: 0 <= j < i ==> Combine(est1[j], p1, est2[j], p2) == Ok(Fused(ys[j], ps[j]))
    {
      var c := Combine(est1[i], p1, est2[i], p2);
      if c.Err? {
        return Err(c.error);
      }
      ys := ys + [c.value.y];
      ps := ps + [c.value.p];
    }
    return Ok(FusedSeries(ys, ps));
  }
}
