/**
 * The region propagator (transformRegion): the bounding box of a rectangle
 * carried through every sampled transform of a possibly motion-blurred
 * effect, widened by how far the corners move between samples.
 */
module TransformRegion {
  import opened Wrappers
  import opened Geometry
  import opened Rects
  import opened CornerBox
  import opened Sampling

  /**
   * The effect-specific hook getInverseTransformCanonical(time, amount, invert):
   * the canonical inverse transform, or None when none is available.
   */
  type Hook = (real, real, bool) -> Option<Matrix3x3>

  /**
   * The motion-blur settings a region query passes on: the motion-blur
   * amount, the directional-blur flag, the amount interval swept by
   * directional blur, the shutter duration, and the shutter window that
   * shutterRange computes from the time, shutter and shutter offset.
   */
  datatype BlurSettings = BlurSettings(motionBlur: real, directionalBlur: bool,
                                       amountFrom: real, amountTo: real,
                                       shutter: real, window: Range)

  predicate HasMotionBlur(b: BlurSettings) {
    (b.shutter != 0.0 || b.directionalBlur) && b.motionBlur != 0.0
  }

  /** Motion blur that sweeps the shutter window in time (as opposed to the amount). */
  predicate ShutterSweep(b: BlurSettings) {
    HasMotionBlur(b) && !b.directionalBlur
  }

  /** The samples transformRegion evaluates. */
  function Samples(time: real, b: BlurSettings): seq<Sample> {
    Schedule(time, b.window, HasMotionBlur(b), b.directionalBlur)
  }

  /** The blend amount handed to the hook for a sample amount in [0, 1]. */
  function HookAmount(b: BlurSettings, amount: real): real {
    b.amountFrom + amount * (b.amountTo - b.amountFrom)
  }

  /** The hook evaluated at one sample. */
  function Call(hook: Hook, invert: bool, b: BlurSettings, s: Sample): Option<Matrix3x3> {
    hook(s.time, HookAmount(b, s.amount), invert)
  }

  /** The hook evaluated at every sample; None as soon as one evaluation fails. */
  function Evaluate(hook: Hook, invert: bool, b: BlurSettings, s: seq<Sample>): (r: Option<seq<Matrix3x3>>)
    ensures r.Some? <==> forall k :: 0 <= k < |s| ==> Call(hook, invert, b, s[k]).Some?
    ensures r.Some? ==> |r.value| == |s| && forall k :: 0 <= k < |s| ==> Call(hook, invert, b, s[k]) == Some(r.value[k])
  {
    if |s| == 0 then Some([])
    else
      match Evaluate(hook, invert, b, s[..|s| - 1])
      case None => None
      case Some(ms) =>
        match Call(hook, invert, b, s[|s| - 1])
        case None => None
        case Some(m) => Some(ms + [m])
  }

  /** The transformed corners of `r` under each matrix. */
  function CornerSets(r: Rect, ms: seq<Matrix3x3>): (cs: seq<Quad>)
    ensures |cs| == |ms|
    ensures forall k :: 0 <= k < |ms| ==> cs[k] == Corners(r, ms[k])
  {
    seq(|ms|, k requires 0 <= k < |ms| => Corners(r, ms[k]))
  }

  /** The running union of the corner boxes, started from the super-empty rectangle. */
  function UnionOfBoxes(cs: seq<Quad>): (r: Rect)
    ensures forall k :: 0 <= k < |cs| ==> Contains(r, BoxOf(cs[k]))
    ensures r.x1 <= INF_MAX && r.y1 <= INF_MAX && INF_MIN <= r.x2 && INF_MIN <= r.y2
  {
    if |cs| == 0 then SuperEmpty
    else
      var init := cs[..|cs| - 1];
      var u := UnionOfBoxes(init);
      var r := Union(u, BoxOf(cs[|cs| - 1]));
      assert forall k :: 0 <= k < |cs| - 1 ==> Contains(u, BoxOf(cs[k])) by {
        forall k | 0 <= k < |cs| - 1
          ensures Contains(u, BoxOf(cs[k]))
        {
          assert cs[k] == init[k];
        }
      }
      r
  }

  function Abs(x: real): (y: real)
    ensures y >= 0.0 && (y == x || y == -x)
  {
    if x < 0.0 then -x else x
  }

  /** The L-infinity distance moved by the corners between two samples (raw homogeneous x and y). */
  function CornerStep(p: Quad, q: Quad): (d: real)
    ensures d >= 0.0
  {
    Max(Max(Max(Max(Max(Max(Max(Abs(p[0].x - q[0].x), Abs(p[0].y - q[0].y)),
                                Abs(p[1].x - q[1].x)), Abs(p[1].y - q[1].y)),
                    Abs(p[2].x - q[2].x)), Abs(p[2].y - q[2].y)),
            Abs(p[3].x - q[3].x)), Abs(p[3].y - q[3].y))
  }

  /** The running maximum of eight values bounds each of them and equals one of them. */
  lemma MaxOfEight(v0: real, v1: real, v2: real, v3: real, v4: real, v5: real, v6: real, v7: real)
    ensures var m := Max(Max(Max(Max(Max(Max(Max(v0, v1), v2), v3), v4), v5), v6), v7);
            v0 <= m && v1 <= m && v2 <= m && v3 <= m && v4 <= m && v5 <= m && v6 <= m && v7 <= m
            && (m == v0 || m == v1 || m == v2 || m == v3 || m == v4 || m == v5 || m == v6 || m == v7)
  {
  }

  /** The corner step is the largest of the eight coordinate differences: it bounds each and equals one. */
  lemma CornerStepIsMax(p: Quad, q: Quad)
    ensures forall k :: 0 <= k < 4 ==> Abs(p[k].x - q[k].x) <= CornerStep(p, q) && Abs(p[k].y - q[k].y) <= CornerStep(p, q)
    ensures exists k :: 0 <= k < 4 && (CornerStep(p, q) == Abs(p[k].x - q[k].x) || CornerStep(p, q) == Abs(p[k].y - q[k].y))
  {
    MaxOfEight(Abs(p[0].x - q[0].x), Abs(p[0].y - q[0].y), Abs(p[1].x - q[1].x), Abs(p[1].y - q[1].y),
               Abs(p[2].x - q[2].x), Abs(p[2].y - q[2].y), Abs(p[3].x - q[3].x), Abs(p[3].y - q[3].y));
    var d := CornerStep(p, q);
    forall k | 0 <= k < 4
      ensures Abs(p[k].x - q[k].x) <= d && Abs(p[k].y - q[k].y) <= d
    {
      if k == 0 { } else if k == 1 { } else if k == 2 { } else { }
    }
    if d == Abs(p[0].x - q[0].x) || d == Abs(p[0].y - q[0].y) {
      assert 0 <= 0 < 4;
    } else if d == Abs(p[1].x - q[1].x) || d == Abs(p[1].y - q[1].y) {
      assert 0 <= 1 < 4;
    } else if d == Abs(p[2].x - q[2].x) || d == Abs(p[2].y - q[2].y) {
      assert 0 <= 2 < 4;
    } else {
      assert 0 <= 3 < 4;
    }
  }

  /** The corner steps between consecutive samples, in sample order. */
  function Steps(cs: seq<Quad>): (ds: seq<real>)
    ensures |ds| == if |cs| == 0 then 0 else |cs| - 1
    ensures forall k :: 0 < k < |cs| ==> ds[k - 1] == CornerStep(cs[k - 1], cs[k])
  {
    if |cs| <= 1 then [] else seq(|cs| - 1, k requires 0 <= k < |cs| - 1 => CornerStep(cs[k], cs[k + 1]))
  }

  /** The running maximum of the source's `expand`, which starts at 0. */
  function MaxOf(ds: seq<real>): (e: real)
    ensures e >= 0.0
    ensures forall k :: 0 <= k < |ds| ==> ds[k] <= e
  {
    if |ds| == 0 then 0.0
    else
      var init := ds[..|ds| - 1];
      var prev := MaxOf(init);
      assert forall k :: 0 <= k < |ds| - 1 ==> ds[k] <= prev by {
        forall k | 0 <= k < |ds| - 1
          ensures ds[k] <= prev
        {
          assert ds[k] == init[k];
        }
      }
      Max(prev, ds[|ds| - 1])
  }

  /** A running maximum of non-negative values over a non-empty sequence is one of them. */
  lemma {:induction false} MaxOfAttained(ds: seq<real>)
    requires |ds| >= 1 && forall k :: 0 <= k < |ds| ==> ds[k] >= 0.0
    ensures exists k :: 0 <= k < |ds| && MaxOf(ds) == ds[k]
  {
    var n := |ds|;
    var init := ds[..n - 1];
    if n > 1 && MaxOf(init) > ds[n - 1] {
      MaxOfAttained(init);
      var k :| 0 <= k < n - 1 && MaxOf(init) == init[k];
      assert ds[k] == init[k];
    }
  }

  /** The largest corner step between consecutive samples; 0 with fewer than two samples. */
  function MaxDisplacement(cs: seq<Quad>): (e: real)
    ensures e >= 0.0
    ensures forall k :: 0 < k < |cs| ==> CornerStep(cs[k - 1], cs[k]) <= e
    ensures |cs| <= 1 ==> e == 0.0
  {
    var ds := Steps(cs);
    assert forall k :: 0 < k < |cs| ==> CornerStep(cs[k - 1], cs[k]) <= MaxOf(ds) by {
      forall k | 0 < k < |cs|
        ensures CornerStep(cs[k - 1], cs[k]) <= MaxOf(ds)
      {
        assert ds[k - 1] == CornerStep(cs[k - 1], cs[k]);
      }
    }
    MaxOf(ds)
  }

  /**
   * Widening of the finite sides of `u` by `e`: a side at or beyond its
   * sentinel stays put, the others move outward by `e`, so a nonnegative
   * widening only grows the rectangle and a zero one changes nothing.
   */
  function ExpandFinite(u: Rect, e: real): (r: Rect)
    ensures e >= 0.0 ==> Contains(r, u)
    ensures e == 0.0 ==> r == u
    ensures u.x1 <= INF_MIN ==> r.x1 == u.x1
    ensures u.y1 <= INF_MIN ==> r.y1 == u.y1
    ensures u.x2 >= INF_MAX ==> r.x2 == u.x2
    ensures u.y2 >= INF_MAX ==> r.y2 == u.y2
  {
    Rect(if u.x1 > INF_MIN then u.x1 - e else u.x1,
         if u.y1 > INF_MIN then u.y1 - e else u.y1,
         if u.x2 < INF_MAX then u.x2 + e else u.x2,
         if u.y2 < INF_MAX then u.y2 + e else u.y2)
  }

  /** The propagator's answer once every sample has a transform. */
  function BoundSamples(rectFrom: Rect, ms: seq<Matrix3x3>): Rect {
    var cs := CornerSets(rectFrom, ms);
    ExpandFinite(UnionOfBoxes(cs), MaxDisplacement(cs))
  }

  /** The answer holds every sample's corner box, and is well formed once there is a sample. */
  lemma BoundSamplesContains(rectFrom: Rect, ms: seq<Matrix3x3>)
    ensures forall k :: 0 <= k < |ms| ==> Contains(BoundSamples(rectFrom, ms), BoxOf(Corners(rectFrom, ms[k])))
    ensures |ms| > 0 ==> WellFormed(BoundSamples(rectFrom, ms))
  {
    var cs := CornerSets(rectFrom, ms);
    var u := UnionOfBoxes(cs);
    if |ms| > 0 {
      assert Contains(u, BoxOf(cs[0]));
    }
  }

  /**
   * transformRegion: `rectFrom` itself when the effect is an identity and
   * the shutter is not swept; the full-infinite rectangle when the hook
   * fails at any sample; otherwise a well-formed rectangle (which holds
   * every sample's corner box, see TransformRegionHoldsSamples).
   */
  function TransformRegion(rectFrom: Rect, time: real, invert: bool, b: BlurSettings,
                           isIdentity: bool, hook: Hook): (r: Rect)
    ensures !ShutterSweep(b) && isIdentity ==> r == rectFrom
    ensures (ShutterSweep(b) || !isIdentity)
            && (exists k :: 0 <= k < |Samples(time, b)| && Call(hook, invert, b, Samples(time, b)[k]).None?)
            ==> r == Infinite
    ensures (ShutterSweep(b) || !isIdentity)
            && (forall k :: 0 <= k < |Samples(time, b)| ==> Call(hook, invert, b, Samples(time, b)[k]).Some?)
            ==> WellFormed(r)
  {
    if !ShutterSweep(b) && isIdentity then rectFrom
    else
      match Evaluate(hook, invert, b, Samples(time, b))
      case None => SweepRegion(rectFrom, time, invert, b, hook)
      case Some(ms) =>
        BoundSamplesContains(rectFrom, ms);
        SweepRegion(rectFrom, time, invert, b, hook)
  }

  /** Past the fast path and with every hook call succeeding, the region holds the corner box of each sample. */
  lemma TransformRegionHoldsSamples(rectFrom: Rect, time: real, invert: bool, b: BlurSettings,
                                    isIdentity: bool, hook: Hook, k: nat)
    requires ShutterSweep(b) || !isIdentity
    requires forall j :: 0 <= j < |Samples(time, b)| ==> Call(hook, invert, b, Samples(time, b)[j]).Some?
    requires k < |Samples(time, b)|
    ensures Contains(TransformRegion(rectFrom, time, invert, b, isIdentity, hook),
                     BoxOf(Corners(rectFrom, Call(hook, invert, b, Samples(time, b)[k]).value)))
  {
    var ms := Evaluate(hook, invert, b, Samples(time, b)).value;
    assert TransformRegion(rectFrom, time, invert, b, isIdentity, hook) == BoundSamples(rectFrom, ms);
    BoundSamplesContains(rectFrom, ms);
    assert Contains(BoundSamples(rectFrom, ms), BoxOf(Corners(rectFrom, ms[k])));
    assert Call(hook, invert, b, Samples(time, b)[k]).value == ms[k];
  }

  /**
   * The propagated region is well formed whenever the region it starts
   * from is, as getRegionsOfInterest asserts before widening it.
   */
  lemma TransformRegionWellFormed(rectFrom: Rect, time: real, invert: bool, b: BlurSettings,
                                  isIdentity: bool, hook: Hook)
    requires WellFormed(rectFrom)
    ensures WellFormed(TransformRegion(rectFrom, time, invert, b, isIdentity, hook))
  {
    if ShutterSweep(b) || !isIdentity {
      match Evaluate(hook, invert, b, Samples(time, b))
      case None =>
        assert TransformRegion(rectFrom, time, invert, b, isIdentity, hook) == Infinite;
      case Some(ms) =>
        assert TransformRegion(rectFrom, time, invert, b, isIdentity, hook) == BoundSamples(rectFrom, ms);
        BoundSamplesContains(rectFrom, ms);
    }
  }

  /** The propagator past its identity fast path: every sample is evaluated. */
  function SweepRegion(rectFrom: Rect, time: real, invert: bool, b: BlurSettings, hook: Hook): Rect
  {
    var s := Samples(time, b);
    match Evaluate(hook, invert, b, s)
    case None => Infinite
    case Some(ms) => BoundSamples(rectFrom, ms)
  }

  /** The displacement is attained: with two or more samples it is the step between some consecutive pair. */
  lemma MaxDisplacementAttained(cs: seq<Quad>)
    requires |cs| >= 2
    ensures exists k :: 0 < k < |cs| && MaxDisplacement(cs) == CornerStep(cs[k - 1], cs[k])
  {
    var ds := Steps(cs);
    MaxOfAttained(ds);
    var j :| 0 <= j < |ds| && MaxOf(ds) == ds[j];
    assert ds[j] == CornerStep(cs[j], cs[j + 1]);
  }

  /** A corner set does not move away from itself. */
  lemma CornerStepSelf(q: Quad)
    ensures CornerStep(q, q) == 0.0
  {
  }

  /** Repeating one corner set: the union is its box (clipped to the sentinels) and nothing moves. */
  lemma {:induction false} ConstantCorners(cs: seq<Quad>, q: Quad)
    requires |cs| >= 1 && forall k :: 0 <= k < |cs| ==> cs[k] == q
    ensures UnionOfBoxes(cs) == Union(SuperEmpty, BoxOf(q))
    ensures MaxDisplacement(cs) == 0.0
  {
    if |cs| > 1 {
      var init := cs[..|cs| - 1];
      ConstantCorners(init, q);
      assert cs == init + [q];
      UnionOfBoxesSnoc(init, q);
      UnionAbsorb(SuperEmpty, BoxOf(q));
      MaxDisplacementSnoc(init, q);
      assert init[|init| - 1] == q;
      CornerStepSelf(q);
    } else {
      assert cs == [] + [q];
      UnionOfBoxesSnoc([], q);
    }
  }

  /**
   * An effect whose hook answers the same matrix at every sample: the
   * region is the corner box of that matrix, with no widening, whatever
   * the blur settings.
   */
  lemma ConstantTransformRegion(rectFrom: Rect, time: real, invert: bool, b: BlurSettings,
                                isIdentity: bool, hook: Hook, m: Matrix3x3)
    requires ShutterSweep(b) || !isIdentity
    requires forall k :: 0 <= k < |Samples(time, b)| ==> Call(hook, invert, b, Samples(time, b)[k]) == Some(m)
    ensures TransformRegion(rectFrom, time, invert, b, isIdentity, hook) == Union(SuperEmpty, BoxOf(Corners(rectFrom, m)))
  {
    var ms := Evaluate(hook, invert, b, Samples(time, b)).value;
    var cs := CornerSets(rectFrom, ms);
    ConstantCorners(cs, Corners(rectFrom, m));
    RegionAfterSweep(rectFrom, time, invert, b, hook, ms);
  }

  /** A pure translation by (dx, dy) moves the region by (dx, dy), as long as it stays inside the sentinels. */
  lemma TranslationRegion(rectFrom: Rect, time: real, invert: bool, b: BlurSettings,
                          isIdentity: bool, hook: Hook, dx: real, dy: real)
    requires ShutterSweep(b) || !isIdentity
    requires WellFormed(rectFrom)
    requires rectFrom.x1 + dx <= INF_MAX && rectFrom.y1 + dy <= INF_MAX
    requires INF_MIN <= rectFrom.x2 + dx && INF_MIN <= rectFrom.y2 + dy
    requires forall k :: 0 <= k < |Samples(time, b)| ==> Call(hook, invert, b, Samples(time, b)[k]) == Some(Translation(dx, dy))
    ensures TransformRegion(rectFrom, time, invert, b, isIdentity, hook) == Shift(rectFrom, dx, dy)
  {
    ConstantTransformRegion(rectFrom, time, invert, b, isIdentity, hook, Translation(dx, dy));
    TranslatedBox(rectFrom, dx, dy);
  }

  /**
   * Without motion blur the hook is asked once, at `time` and at the full
   * amount `amountTo`; the region is that transform's corner box (clipped
   * to the sentinels), or infinite when the hook fails.
   */
  lemma SingleSampleRegion(rectFrom: Rect, time: real, invert: bool, b: BlurSettings, isIdentity: bool, hook: Hook)
    requires !HasMotionBlur(b) && !isIdentity
    ensures hook(time, b.amountTo, invert).None? ==> TransformRegion(rectFrom, time, invert, b, isIdentity, hook) == Infinite
    ensures hook(time, b.amountTo, invert).Some? ==>
              TransformRegion(rectFrom, time, invert, b, isIdentity, hook)
              == Union(SuperEmpty, BoxOf(Corners(rectFrom, hook(time, b.amountTo, invert).value)))
  {
    assert Samples(time, b) == [Sample(time, 1.0)];
    assert HookAmount(b, 1.0) == b.amountTo;
    assert Call(hook, invert, b, Samples(time, b)[0]) == hook(time, b.amountTo, invert);
    if hook(time, b.amountTo, invert).Some? {
      ConstantTransformRegion(rectFrom, time, invert, b, isIdentity, hook, hook(time, b.amountTo, invert).value);
    }
  }

  /** One more sample extends the corner sets by its corners. */
  lemma CornerSetsSnoc(r: Rect, ms: seq<Matrix3x3>, m: Matrix3x3)
    ensures CornerSets(r, ms + [m]) == CornerSets(r, ms) + [Corners(r, m)]
  {
  }

  /** One more corner set widens the running union by its box. */
  lemma UnionOfBoxesSnoc(cs: seq<Quad>, q: Quad)
    ensures UnionOfBoxes(cs + [q]) == Union(UnionOfBoxes(cs), BoxOf(q))
  {
    assert (cs + [q])[..|cs|] == cs;
  }

  /** One more corner set raises the displacement to its step from the previous one. */
  lemma MaxDisplacementSnoc(cs: seq<Quad>, q: Quad)
    ensures MaxDisplacement(cs + [q])
            == if |cs| == 0 then 0.0 else Max(MaxDisplacement(cs), CornerStep(cs[|cs| - 1], q))
  {
    if |cs| > 0 {
      var cs' := cs + [q];
      var ds := Steps(cs');
      var ds0 := Steps(cs);
      forall k | 0 <= k < |ds0|
        ensures ds[k] == ds0[k]
      {
        assert cs'[k] == cs[k] && cs'[k + 1] == cs[k + 1];
      }
      assert ds[|ds0|] == CornerStep(cs[|cs| - 1], q) by {
        assert cs'[|cs| - 1] == cs[|cs| - 1] && cs'[|cs|] == q;
      }
      assert ds[..|ds| - 1] == ds0;
    }
  }

  /** The hook evaluated on one more sample. */
  lemma EvaluateSnoc(hook: Hook, invert: bool, b: BlurSettings, s: seq<Sample>, k: nat, ms: seq<Matrix3x3>, m: Matrix3x3)
    requires k < |s| && Evaluate(hook, invert, b, s[..k]) == Some(ms) && Call(hook, invert, b, s[k]) == Some(m)
    ensures Evaluate(hook, invert, b, s[..k + 1]) == Some(ms + [m])
  {
    assert s[..k + 1][..k] == s[..k];
  }

  /** The eight running maxima of the source: one step of the displacement fold. */
  method AccumulateExpand(expand: real, pPrev: Quad, p: Quad) returns (e: real)
    ensures e == Max(expand, CornerStep(pPrev, p))
  {
    e := Max(expand, Abs(pPrev[0].x - p[0].x));
    e := Max(e, Abs(pPrev[0].y - p[0].y));
    e := Max(e, Abs(pPrev[1].x - p[1].x));
    e := Max(e, Abs(pPrev[1].y - p[1].y));
    e := Max(e, Abs(pPrev[2].x - p[2].x));
    e := Max(e, Abs(pPrev[2].y - p[2].y));
    e := Max(e, Abs(pPrev[3].x - p[3].x));
    e := Max(e, Abs(pPrev[3].y - p[3].y));
  }

  /** How the propagator moves from one sample to the next, and when it stops. */
  lemma SamplesStep(time: real, b: BlurSettings, k: nat)
    requires HasMotionBlur(b) && k + 1 < |Samples(time, b)|
    ensures var s := Samples(time, b);
            b.directionalBlur ==>
              s[k + 1] == Sample(s[k].time, 1.0 - ((k + 1) as real) / 8.0)
              && (k + 2 == |s| <==> k + 1 == DirBlurIterMax)
    ensures var s := Samples(time, b);
            var n := NextQuarter(s[k].time);
            !b.directionalBlur ==>
              s[k + 1] == Sample(if n >= b.window.max then b.window.max else n, 1.0)
              && (k + 2 == |s| <==> n >= b.window.max)
  {
    if !b.directionalBlur {
      ShutterTimesStep(b.window, k);
    }
  }

  /** The closing widening of the source: each side short of its sentinel moves out by `expand`. */
  method ExpandSides(rect: Rect, expand: real) returns (r: Rect)
    ensures r == ExpandFinite(rect, expand)
  {
    r := rect;
    if r.x1 > INF_MIN {
      r := r.(x1 := r.x1 - expand);
    }
    if r.x2 < INF_MAX {
      r := r.(x2 := r.x2 + expand);
    }
    if r.y1 > INF_MIN {
      r := r.(y1 := r.y1 - expand);
    }
    if r.y2 < INF_MAX {
      r := r.(y2 := r.y2 + expand);
    }
  }

  /**
   * The source's preparation of the next iteration: the next amount of the
   * directional sweep, or the next quarter frame clamped to the end of the
   * shutter window; `last'` tells whether that sample is the final one.
   */
  method Advance(ghost time: real, b: BlurSettings, range: Range, t: real, amount: real,
                 dirBlurIter: nat, ghost k: nat)
    returns (t': real, amount': real, dirBlurIter': nat, last': bool)
    requires HasMotionBlur(b) && k + 1 < |Samples(time, b)| && Samples(time, b)[k] == Sample(t, amount)
    requires b.directionalBlur ==> dirBlurIter == k
    requires !b.directionalBlur ==> range == b.window
    ensures Samples(time, b)[k + 1] == Sample(t', amount')
    ensures last' <==> k + 2 == |Samples(time, b)|
    ensures b.directionalBlur ==> dirBlurIter' == k + 1
  {
    SamplesStep(time, b, k);
    t', amount', dirBlurIter' := t, amount, dirBlurIter;
    if b.directionalBlur {
      dirBlurIter' := dirBlurIter + 1;
      amount' := 1.0 - (dirBlurIter' as real) / 8.0;
      last' := dirBlurIter' == DirBlurIterMax;
    } else {
      t' := NextQuarter(t);
      last' := false;
      if t' >= range.max {
        t' := range.max;
        last' := true;
      }
    }
  }

  /** A failing hook call at any sample makes the region infinite. */
  lemma RegionAfterFailure(rectFrom: Rect, time: real, invert: bool, b: BlurSettings, hook: Hook, k: nat)
    requires k < |Samples(time, b)|
    requires hook(Samples(time, b)[k].time, HookAmount(b, Samples(time, b)[k].amount), invert).None?
    ensures SweepRegion(rectFrom, time, invert, b, hook) == Infinite
  {
    assert Call(hook, invert, b, Samples(time, b)[k]).None?;
  }

  /** When every sample has a transform, the region is the widened union of their boxes. */
  lemma RegionAfterSweep(rectFrom: Rect, time: real, invert: bool, b: BlurSettings,
                         hook: Hook, ms: seq<Matrix3x3>)
    requires Evaluate(hook, invert, b, Samples(time, b)) == Some(ms)
    ensures SweepRegion(rectFrom, time, invert, b, hook)
            == ExpandFinite(UnionOfBoxes(CornerSets(rectFrom, ms)), MaxDisplacement(CornerSets(rectFrom, ms)))
  {
  }

  /**
   * The loop state after the samples whose transforms are `ms`: the running
   * union, the running displacement and the corners of the latest sample.
   */
  ghost predicate Swept(rectFrom: Rect, ms: seq<Matrix3x3>, rectTo: Rect, expand: real, pPrev: Quad) {
    && rectTo == UnionOfBoxes(CornerSets(rectFrom, ms))
    && expand == MaxDisplacement(CornerSets(rectFrom, ms))
    && (|ms| > 0 ==> pPrev == Corners(rectFrom, ms[|ms| - 1]))
  }

  /** Visiting one more transform keeps the loop state in step with the folds. */
  lemma SweptSnoc(rectFrom: Rect, ms: seq<Matrix3x3>, rectTo: Rect, expand: real, pPrev: Quad, m: Matrix3x3)
    requires Swept(rectFrom, ms, rectTo, expand, pPrev)
    ensures var p := Corners(rectFrom, m);
            Swept(rectFrom, ms + [m], Union(rectTo, BoxOf(p)),
                  if |ms| == 0 then expand else Max(expand, CornerStep(pPrev, p)), p)
  {
    var p := Corners(rectFrom, m);
    CornerSetsSnoc(rectFrom, ms, m);
    UnionOfBoxesSnoc(CornerSets(rectFrom, ms), p);
    MaxDisplacementSnoc(CornerSets(rectFrom, ms), p);
  }

  /**
   * One pass of the loop body once the hook has answered `m`: the corners
   * and their box, the union update, and (after the first sample) the
   * displacement update.
   */
  method Visit(rectFrom: Rect, m: Matrix3x3, rectTo: Rect, expand: real, first: bool, pPrev: Quad)
    returns (rectTo': Rect, expand': real, p: Quad)
    ensures p == Corners(rectFrom, m)
    ensures rectTo' == Union(rectTo, BoxOf(p))
    ensures expand' == if first then expand else Max(expand, CornerStep(pPrev, p))
  {
    p := Corners(rectFrom, m);
    var thisRoD := RegionFromPoints(p);
    rectTo' := Union(rectTo, thisRoD);
    if first {
      expand' := expand;
    } else {
      expand' := AccumulateExpand(expand, pPrev, p);
    }
  }

  /**
   * transformRegion as the source runs it: one loop over the samples that
   * grows the union box, keeps the corners of the previous sample and the
   * running displacement, and steps either the amount (directional blur)
   * or the time to the next quarter frame (shutter), clamped to the window's end.
   */
  method TransformRegionLoop(rectFrom: Rect, time: real, invert: bool, b: BlurSettings,
                             isIdentity: bool, hook: Hook) returns (rectTo: Rect)
    ensures rectTo == TransformRegion(rectFrom, time, invert, b, isIdentity, hook)
  {
    var hasMotionBlur := (b.shutter != 0.0 || b.directionalBlur) && b.motionBlur != 0.0;
    var range: Range;
    if hasMotionBlur && !b.directionalBlur {
      range := b.window;
    } else {
      if isIdentity {
        return rectFrom;
      }
      range := Range(time, time);
    }
    rectTo := SweepLoop(rectFrom, time, invert, b, hook, range);
  }

  /** The local variables of the source's loop. */
  datatype LoopState = LoopState(rectTo: Rect, t: real, first: bool, last: bool, finished: bool,
                                 expand: real, amount: real, dirBlurIter: nat, pPrev: Quad)

  /**
   * The loop invariant: `k` samples have been visited with transforms `ms`;
   * unless finished, (t, amount) is the next sample and `last` says whether
   * it is the final one.
   */
  ghost predicate LoopInv(rectFrom: Rect, time: real, invert: bool, b: BlurSettings, hook: Hook,
                          range: Range, st: LoopState, k: nat, ms: seq<Matrix3x3>)
  {
    var s := Samples(time, b);
    && k <= |s| && |ms| == k
    && (st.finished ==> k == |s|)
    && (!st.finished ==> k < |s| && s[k] == Sample(st.t, st.amount) && (st.last <==> k == |s| - 1))
    && (!st.finished && HasMotionBlur(b) && b.directionalBlur ==> st.dirBlurIter == k)
    && (ShutterSweep(b) ==> range == b.window)
    && Evaluate(hook, invert, b, s[..k]) == Some(ms)
    && Swept(rectFrom, ms, st.rectTo, st.expand, st.pPrev)
    && (st.first <==> k == 0)
  }

  /**
   * One pass of the source's loop body: ask the hook about the current
   * sample, fold its corners in, and prepare the next sample. `failed`
   * reports the early return with the infinite rectangle.
   */
  method Iterate(rectFrom: Rect, time: real, invert: bool, b: BlurSettings, hook: Hook, range: Range,
                 st: LoopState, ghost k: nat, ghost ms: seq<Matrix3x3>)
    returns (failed: bool, st': LoopState, ghost ms': seq<Matrix3x3>)
    requires LoopInv(rectFrom, time, invert, b, hook, range, st, k, ms) && !st.finished
    ensures failed ==> SweepRegion(rectFrom, time, invert, b, hook) == Infinite
    ensures !failed ==> LoopInv(rectFrom, time, invert, b, hook, range, st', k + 1, ms')
  {
    ghost var s := Samples(time, b);
    var transform := hook(st.t, HookAmount(b, st.amount), invert);
    if transform.None? {
      RegionAfterFailure(rectFrom, time, invert, b, hook, k);
      return true, st, ms;
    }
    failed := false;
    SweptSnoc(rectFrom, ms, st.rectTo, st.expand, st.pPrev, transform.value);
    EvaluateSnoc(hook, invert, b, s, k, ms, transform.value);
    var rectTo, expand, p := Visit(rectFrom, transform.value, st.rectTo, st.expand, st.first, st.pPrev);
    ms' := ms + [transform.value];
    if st.last {
      st' := st.(rectTo := rectTo, first := false, finished := true, expand := expand, pPrev := p);
    } else {
      var t, amount, dirBlurIter, last := Advance(time, b, range, st.t, st.amount, st.dirBlurIter, k);
      st' := LoopState(rectTo, t, false, last, false, expand, amount, dirBlurIter, p);
    }
  }

  /** Once the loop has finished, widening its union gives the propagator's answer. */
  lemma LoopDone(rectFrom: Rect, time: real, invert: bool, b: BlurSettings, hook: Hook,
                 range: Range, st: LoopState, k: nat, ms: seq<Matrix3x3>)
    requires LoopInv(rectFrom, time, invert, b, hook, range, st, k, ms) && st.finished
    ensures SweepRegion(rectFrom, time, invert, b, hook) == ExpandFinite(st.rectTo, st.expand)
  {
    var s := Samples(time, b);
    assert s[..k] == s;
    RegionAfterSweep(rectFrom, time, invert, b, hook, ms);
  }

  /**
   * The loop of transformRegion over the sample schedule, started at the
   * beginning of `range` (the shutter window, or the instant `time`).
   */
  method SweepLoop(rectFrom: Rect, time: real, invert: bool, b: BlurSettings, hook: Hook, range: Range)
    returns (rectTo: Rect)
    requires range == if ShutterSweep(b) then b.window else Range(time, time)
    ensures rectTo == SweepRegion(rectFrom, time, invert, b, hook)
  {
    var hasMotionBlur := (b.shutter != 0.0 || b.directionalBlur) && b.motionBlur != 0.0;
    var st := LoopState(SuperEmpty, range.min, true, !hasMotionBlur, false, 0.0, 1.0, 0, Corners(rectFrom, NoOp));
    ghost var s := Samples(time, b);
    ghost var k: nat := 0;
    ghost var ms: seq<Matrix3x3> := [];
    while !st.finished
      invariant LoopInv(rectFrom, time, invert, b, hook, range, st, k, ms)
      decreases |s| - k
    {
      var failed;
      failed, st, ms := Iterate(rectFrom, time, invert, b, hook, range, st, k, ms);
      if failed {
        return Infinite;
      }
      k := k + 1;
    }
    LoopDone(rectFrom, time, invert, b, hook, range, st, k, ms);
    rectTo := ExpandSides(st.rectTo, st.expand);
  }
}
