/**
 * The sample schedules of the region propagator: which (time, amount)
 * pairs the effect hook is asked about when bounding a motion-blurred or
 * directionally blurred transform.
 */
module Sampling {
  import opened Rects

  /** One evaluation point: a time and a blend amount in [0, 1] (1 = full transform). */
  datatype Sample = Sample(time: real, amount: real)

  /** Number of steps of the directional-blur sweep (9 samples, amounts 1, 7/8, ..., 0). */
  const DirBlurIterMax: nat := 8

  /** The next quarter-frame boundary strictly after `t`: floor(4t + 1) / 4. */
  function NextQuarter(t: real): (n: real)
    ensures t < n <= t + 0.25
    ensures (4.0 * n).Floor as real == 4.0 * n
    ensures (4.0 * n).Floor == (4.0 * t).Floor + 1
  {
    ((4.0 * t + 1.0).Floor as real) / 4.0
  }

  /**
   * The shutter samples after `t`: successive quarter-frame boundaries,
   * the first one at or past `tmax` replaced by `tmax` itself and ending the sweep.
   */
  function ShutterSteps(t: real, tmax: real): (ts: seq<real>)
    decreases if t < tmax then (4.0 * tmax).Floor - (4.0 * t).Floor + 1 else 0
    ensures |ts| >= 1 && ts[|ts| - 1] == tmax
    ensures ts[0] <= t + 0.25
    ensures forall k :: 0 < k < |ts| ==> ts[k - 1] < ts[k] <= ts[k - 1] + 0.25
    ensures forall k :: 0 <= k < |ts| - 1 ==> t < ts[k] < tmax && (4.0 * ts[k]).Floor as real == 4.0 * ts[k]
    ensures t < tmax ==> t < ts[0] && |ts| <= (4.0 * tmax).Floor - (4.0 * t).Floor + 1
  {
    var n := NextQuarter(t);
    if n >= tmax then [tmax] else [n] + ShutterSteps(n, tmax)
  }

  /** The shutter sweep over a window: its start, then the quarter-frame steps up to its end. */
  function ShutterTimes(w: Range): (ts: seq<real>)
    ensures |ts| >= 2 && ts[0] == w.min && ts[|ts| - 1] == w.max
    ensures w.min < w.max ==> forall j, k :: 0 <= j < k < |ts| ==> ts[j] < ts[k]
    ensures w.min < w.max ==> forall k :: 0 <= k < |ts| ==> w.min <= ts[k] <= w.max
    ensures forall k :: 0 < k < |ts| ==> ts[k] - ts[k - 1] <= 0.25
    ensures w.min < w.max ==> |ts| <= (4.0 * w.max).Floor - (4.0 * w.min).Floor + 2
  {
    var steps := ShutterSteps(w.min, w.max);
    StrictlyIncreasing(steps);
    [w.min] + steps
  }

  /** Consecutive increase gives increase between any two positions. */
  lemma {:induction false} StrictlyIncreasing(ts: seq<real>)
    requires forall k :: 0 < k < |ts| ==> ts[k - 1] < ts[k]
    ensures forall j, k :: 0 <= j < k < |ts| ==> ts[j] < ts[k]
  {
    if |ts| > 1 {
      var init := ts[..|ts| - 1];
      StrictlyIncreasing(init);
      assert forall j :: 0 <= j < |ts| - 1 ==> ts[j] < ts[|ts| - 1] by {
        forall j | 0 <= j < |ts| - 1
          ensures ts[j] < ts[|ts| - 1]
        {
          if j < |ts| - 2 {
            assert init[j] < init[|ts| - 2];
          }
        }
      }
    }
  }

  /** How each shutter sample follows from the previous one, and which one is the last. */
  lemma {:induction false} ShutterTimesStep(w: Range, k: nat)
    requires k + 1 < |ShutterTimes(w)|
    ensures var ts := ShutterTimes(w);
            var n := NextQuarter(ts[k]);
            ts[k + 1] == (if n >= w.max then w.max else n)
            && (k + 2 == |ts| <==> n >= w.max)
  {
    ShutterStepsStep(w.min, w.max, k);
  }

  lemma {:induction false} ShutterStepsStep(t: real, tmax: real, k: nat)
    requires k + 1 < |[t] + ShutterSteps(t, tmax)|
    decreases if t < tmax then (4.0 * tmax).Floor - (4.0 * t).Floor + 1 else 0
    ensures var ts := [t] + ShutterSteps(t, tmax);
            var n := NextQuarter(ts[k]);
            ts[k + 1] == (if n >= tmax then tmax else n)
            && (k + 2 == |ts| <==> n >= tmax)
  {
    var n := NextQuarter(t);
    if k > 0 {
      assert n < tmax;
      var ts := [t] + ShutterSteps(t, tmax);
      var ts' := [n] + ShutterSteps(n, tmax);
      assert ts == [t] + ts';
      ShutterStepsStep(n, tmax, k - 1);
    }
  }

  /** The directional-blur amounts from step `k` on: 1 - k/8, 1 - (k+1)/8, ..., 0. */
  function DirectionalAmounts(k: nat): (amts: seq<real>)
    requires k <= DirBlurIterMax
    decreases DirBlurIterMax - k
    ensures |amts| == DirBlurIterMax + 1 - k
    ensures forall j :: 0 <= j < |amts| ==> amts[j] == 1.0 - ((k + j) as real) / 8.0
  {
    [1.0 - (k as real) / 8.0]
    + (if k == DirBlurIterMax then [] else DirectionalAmounts(k + 1))
  }

  /**
   * The samples the region propagator evaluates: one sample at `time`
   * without motion blur; the 9-step amount sweep at `time` with directional
   * blur; the shutter sweep over `window` at full amount otherwise.
   */
  function Schedule(time: real, window: Range, hasMotionBlur: bool, directionalBlur: bool): (s: seq<Sample>)
    ensures |s| >= 1
    ensures !hasMotionBlur ==> s == [Sample(time, 1.0)]
    ensures hasMotionBlur && directionalBlur ==>
              |s| == DirBlurIterMax + 1
              && forall k :: 0 <= k < |s| ==> s[k] == Sample(time, 1.0 - (k as real) / 8.0)
    ensures hasMotionBlur && !directionalBlur ==>
              |s| >= 2 && s[0].time == window.min && s[|s| - 1].time == window.max
              && |s| == |ShutterTimes(window)|
              && forall k :: 0 <= k < |s| ==> s[k] == Sample(ShutterTimes(window)[k], 1.0)
    ensures hasMotionBlur && !directionalBlur && window.min < window.max ==>
              forall j, k :: 0 <= j < k < |s| ==> s[j].time < s[k].time
  {
    if !hasMotionBlur then
      [Sample(time, 1.0)]
    else if directionalBlur then
      var amts := DirectionalAmounts(0);
      seq(|amts|, k requires 0 <= k < |amts| => Sample(time, amts[k]))
    else
      var ts := ShutterTimes(window);
      seq(|ts|, k requires 0 <= k < |ts| => Sample(ts[k], 1.0))
  }
}
