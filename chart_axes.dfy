/**
 * The axis arithmetic of the result pages' charts (the participant's result
 * page and the administrator's individual report share it): the range of the
 * plotted data, the "nice" 0..3 domain of the line chart with its ticks, and
 * the symmetric limit of the deviation bar chart with its ticks.
 */
module ChartAxes {
  import opened Numbers

  function Max(a: real, b: real): real { if a >= b then a else b }
  function Min(a: real, b: real): real { if a <= b then a else b }

  /** `Math.ceil`. */
  function Ceil(x: real): int {
    -((-x).Floor)
  }

  lemma CeilBounds(x: real)
    ensures x <= Ceil(x) as real < x + 1.0
  {
  }

  /** Every value of every series. */
  predicate InSeries(series: seq<seq<real>>, v: real) {
    exists s, i :: 0 <= s < |series| && 0 <= i < |series[s]| && series[s][i] == v
  }

  /**
   * The `allMin`/`allMax` scan over every value of every series. `found` is
   * false when there is no value at all (the page then keeps the infinite
   * start values).
   */
  method DataRange(series: seq<seq<real>>) returns (found: bool, lo: real, hi: real)
    ensures found <==> exists s :: 0 <= s < |series| && |series[s]| > 0
    ensures found ==> InSeries(series, lo) && InSeries(series, hi)
    ensures forall s, i :: 0 <= s < |series| && 0 <= i < |series[s]| ==> found && lo <= series[s][i] <= hi
  {
    found := false;
    lo, hi := 0.0, 0.0;
    var s: nat := 0;
    while s < |series|
      invariant 0 <= s <= |series|
      invariant found <==> exists s' :: 0 <= s' < s && |series[s']| > 0
      invariant found ==> InSeries(series, lo) && InSeries(series, hi)
      invariant forall s', i :: 0 <= s' < s && 0 <= i < |series[s']| ==> found && lo <= series[s'][i] <= hi
    {
      var i: nat := 0;
      while i < |series[s]|
        invariant 0 <= i <= |series[s]|
        invariant found <==> (exists s' :: 0 <= s' < s && |series[s']| > 0) || i > 0
        invariant found ==> InSeries(series, lo) && InSeries(series, hi)
        invariant forall s', j :: 0 <= s' < s && 0 <= j < |series[s']| ==> found && lo <= series[s'][j] <= hi
        invariant forall j :: 0 <= j < i ==> found && lo <= series[s][j] <= hi
      {
        var v := series[s][i];
        if !found || v < lo { lo := v; }
        if !found || v > hi { hi := v; }
        found := true;
        i := i + 1;
      }
      s := s + 1;
    }
  }

  /**
   * The span of the range before snapping: clamped to [0, 3], widened to 0.5
   * around its middle when narrower than 0.25, padded by 15% (at least 0.15)
   * on each side and clamped again. It decides the tick step.
   */
  function PaddedSpan(minV: real, maxV: real): real {
    var lo0 := Max(0.0, minV);
    var hi0 := Min(3.0, maxV);
    var mid := (hi0 + lo0) / 2.0;
    var lo := if hi0 - lo0 < 0.25 then Max(0.0, mid - 0.5) else lo0;
    var hi := if hi0 - lo0 < 0.25 then Min(3.0, mid + 0.5) else hi0;
    var pad := Max(0.15, (hi - lo) * 0.15);
    Min(3.0, hi + pad) - Max(0.0, lo - pad)
  }

  /**
   * `niceDomain(minV, maxV, { hardMin: 0, hardMax: 3 })`: widen a narrow range
   * to at least 0.5 around its middle, pad it by 15% (at least 0.15), snap it
   * outwards to multiples of the tick step (1 for a span of at least 2, else
   * 0.5), keep it within [0, 3], and list the ticks from `yMin` up to `yMax`.
   */
  method NiceDomain(minV: real, maxV: real) returns (yMin: real, yMax: real, ticks: seq<real>)
    ensures forall k :: 0 < k < |ticks| ==> ticks[k] - ticks[k - 1] == ticks[1] - ticks[0]
    ensures |ticks| > 0 ==> ticks[0] == yMin
    ensures |ticks| > 1 ==> ticks[1] - ticks[0] == 0.5 || ticks[1] - ticks[0] == 1.0
    ensures |ticks| > 1 ==> (ticks[1] - ticks[0] == 1.0 <==> PaddedSpan(minV, maxV) >= 2.0)
    ensures 0.0 <= minV <= maxV <= 3.0 ==>
      && 0.0 <= yMin <= minV && maxV <= yMax <= 3.0 && yMin < yMax
      && |ticks| >= 2 && ticks[|ticks| - 1] == yMax
  {
    var lo := Max(0.0, minV);
    var hi := Min(3.0, maxV);
    if hi - lo < 0.25 {
      var mid := (hi + lo) / 2.0;
      lo := Max(0.0, mid - 0.5);
      hi := Min(3.0, mid + 0.5);
    }
    ghost var inRange := 0.0 <= minV <= maxV <= 3.0;
    assert inRange ==> 0.0 <= lo <= minV && maxV <= hi <= 3.0;
    var span := hi - lo;
    var pad := Max(0.15, span * 0.15);
    yMin := Max(0.0, lo - pad);
    yMax := Min(3.0, hi + pad);
    assert inRange ==> 0.0 <= yMin <= minV && maxV <= yMax <= 3.0 && yMin < yMax;
    var step := if yMax - yMin >= 2.0 then 1.0 else 0.5;
    ghost var kMin, kMax, y0, y1 := Snap(yMin, yMax, step);
    yMin := (yMin / step).Floor as real * step;
    yMax := Ceil(yMax / step) as real * step;
    yMin := Max(0.0, yMin);
    yMax := Min(3.0, yMax);
    ticks := Ticks(yMin, yMax, step);
    if inRange {
      TicksSpan(yMin, yMax, step, ticks, kMax - kMin);
    }
  }

  /**
   * Snapping a range within [0, 3] outwards to multiples of the step and
   * clamping it back keeps it within [0, 3], keeps it around the range, and
   * leaves a whole number (at least one) of steps between its ends.
   */
  lemma Snap(y0: real, y1: real, step: real) returns (kMin: int, kMax: int, lo: real, hi: real)
    requires step == 0.5 || step == 1.0
    ensures lo == Max(0.0, (y0 / step).Floor as real * step) && hi == Min(3.0, Ceil(y1 / step) as real * step)
    ensures 0.0 <= y0 < y1 <= 3.0 ==>
      && 0.0 <= lo <= y0 && y1 <= hi <= 3.0
      && lo == kMin as real * step && hi == kMax as real * step && kMin < kMax
  {
    lo := Max(0.0, (y0 / step).Floor as real * step);
    hi := Min(3.0, Ceil(y1 / step) as real * step);
    kMin := if (y0 / step).Floor < 0 then 0 else (y0 / step).Floor;
    kMax := if Ceil(y1 / step) as real * step > 3.0 then (3.0 / step).Floor else Ceil(y1 / step);
    CeilBounds(y1 / step);
    if 0.0 <= y0 < y1 <= 3.0 {
      assert (3.0 / step).Floor as real * step == 3.0;
      assert lo == kMin as real * step;
      assert hi == kMax as real * step;
      assert kMin as real * step < kMax as real * step;
    }
  }

  /** Ticks laid `m` whole steps apart end exactly at the upper bound. */
  lemma TicksSpan(from: real, to: real, step: real, ticks: seq<real>, m: int)
    requires step == 0.5 || step == 1.0
    requires m >= 1 && to == from + m as real * step
    requires forall k :: 0 <= k < |ticks| ==> ticks[k] == from + k as real * step
    requires forall k :: 0 <= k < |ticks| ==> ticks[k] <= to + 0.000000001
    requires from + |ticks| as real * step > to + 0.000000001
    ensures |ticks| == m + 1 && ticks[m] == to
  {
    assert |ticks| >= 1;
    var last := ticks[|ticks| - 1];
    assert (|ticks| - 1 - m) as real * step <= 0.000000001;
  }

  /**
   * The line chart's vertical axis: the range of all plotted values, made
   * nice. For data within [0, 3] every value lies inside the domain, so the
   * clamp applied before plotting never moves a point. Without any value the
   * page's domain is not a number and it draws no tick (`defined` is false).
   */
  method LineAxis(series: seq<seq<real>>) returns (defined: bool, yMin: real, yMax: real, ticks: seq<real>)
    ensures defined <==> exists s :: 0 <= s < |series| && |series[s]| > 0
    ensures !defined ==> ticks == []
    ensures defined && (forall s, i :: 0 <= s < |series| && 0 <= i < |series[s]| ==> 0.0 <= series[s][i] <= 3.0) ==>
      && 0.0 <= yMin < yMax <= 3.0
      && (forall s, i :: 0 <= s < |series| && 0 <= i < |series[s]| ==> yMin <= series[s][i] <= yMax)
      && |ticks| >= 2 && ticks[0] == yMin && ticks[|ticks| - 1] == yMax
  {
    var found, lo, hi := DataRange(series);
    if !found {
      return false, 0.0, 0.0, [];
    }
    defined := true;
    yMin, yMax, ticks := NiceDomain(lo, hi);
  }

  /**
   * `for (let t = from; t <= to + 1e-9; t += step) ticks.push(t)`.
   */
  method Ticks(from: real, to: real, step: real) returns (ticks: seq<real>)
    requires step == 0.5 || step == 1.0
    ensures forall k :: 0 <= k < |ticks| ==> ticks[k] == from + k as real * step
    ensures forall k :: 0 <= k < |ticks| ==> ticks[k] <= to + 0.000000001
    ensures from + |ticks| as real * step > to + 0.000000001
  {
    ticks := [];
    var t := from;
    while t <= to + 0.000000001
      invariant t == from + |ticks| as real * step
      invariant forall k :: 0 <= k < |ticks| ==> ticks[k] == from + k as real * step
      invariant forall k :: 0 <= k < |ticks| ==> ticks[k] <= to + 0.000000001
      decreases ((to + 0.000000001 - t) / step).Floor + 1
    {
      ticks := ticks + [t];
      t := t + step;
    }
  }

  /**
   * The deviation bar chart's vertical axis: the largest magnitude over all
   * series, padded by 20% and at least 0.5, rounded up to a multiple of 0.5;
   * ticks every 1 from a limit of 2 on, else every 0.5, from -limit to +limit.
   */
  method BarAxis(series: seq<seq<real>>) returns (limit: real, tickStep: real, ticks: seq<real>)
    ensures limit >= 0.5
    ensures (limit * 2.0).Floor as real == limit * 2.0
    ensures forall s, i :: 0 <= s < |series| && 0 <= i < |series[s]| ==> 1.2 * Abs(series[s][i]) <= limit
    ensures forall s, i :: 0 <= s < |series| && 0 <= i < |series[s]| ==> -limit <= series[s][i] <= limit
    ensures limit == 0.5 || exists s, i :: 0 <= s < |series| && 0 <= i < |series[s]| && limit - 0.5 < 1.2 * Abs(series[s][i])
    ensures (tickStep == 1.0 <==> limit >= 2.0) && (tickStep == 0.5 <==> limit < 2.0)
    ensures |ticks| >= 2 && ticks[0] == -limit && ticks[|ticks| - 1] == limit
    ensures forall k :: 0 <= k < |ticks| ==> ticks[k] == -limit + k as real * tickStep
  {
    var maxAbs := MaxAbs(series);
    var rawLimit := Max(0.5, maxAbs * 1.2);
    limit := Ceil(rawLimit / 0.5) as real * 0.5;
    ghost var c := HalfSteps(rawLimit);
    tickStep := if limit >= 2.0 then 1.0 else 0.5;
    ticks := Ticks(-limit, limit, tickStep);
    TicksSpan(-limit, limit, tickStep, ticks, if tickStep == 1.0 then c else 2 * c);
  }

  /** The largest magnitude over all series (0 without any value). */
  method MaxAbs(series: seq<seq<real>>) returns (maxAbs: real)
    ensures maxAbs >= 0.0
    ensures forall s, i :: 0 <= s < |series| && 0 <= i < |series[s]| ==> Abs(series[s][i]) <= maxAbs
    ensures maxAbs == 0.0 || exists s, i :: 0 <= s < |series| && 0 <= i < |series[s]| && Abs(series[s][i]) == maxAbs
  {
    maxAbs := 0.0;
    var s: nat := 0;
    while s < |series|
      invariant 0 <= s <= |series|
      invariant maxAbs >= 0.0
      invariant forall s', i :: 0 <= s' < s && 0 <= i < |series[s']| ==> Abs(series[s'][i]) <= maxAbs
      invariant maxAbs == 0.0 || exists s', i :: 0 <= s' < s && 0 <= i < |series[s']| && Abs(series[s'][i]) == maxAbs
    {
      var i: nat := 0;
      while i < |series[s]|
        invariant 0 <= i <= |series[s]|
        invariant maxAbs >= 0.0
        invariant forall s', j :: 0 <= s' < s && 0 <= j < |series[s']| ==> Abs(series[s'][j]) <= maxAbs
        invariant forall j :: 0 <= j < i ==> Abs(series[s][j]) <= maxAbs
        invariant maxAbs == 0.0
          || (exists s', j :: 0 <= s' < s && 0 <= j < |series[s']| && Abs(series[s'][j]) == maxAbs)
          || (exists j :: 0 <= j < i && Abs(series[s][j]) == maxAbs)
      {
        maxAbs := Max(maxAbs, Abs(series[s][i]));
        i := i + 1;
      }
      s := s + 1;
    }
  }

  /**
   * Rounding a limit of at least 0.5 up to a multiple of 0.5 gives a whole
   * number (at least one) of half steps, less than half a step above it.
   */
  lemma HalfSteps(raw: real) returns (c: int)
    requires raw >= 0.5
    ensures c >= 1 && Ceil(raw / 0.5) == c
    ensures raw <= c as real * 0.5 < raw + 0.5
  {
    c := Ceil(raw / 0.5);
    CeilBounds(raw / 0.5);
  }
}
