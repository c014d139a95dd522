/**
 * What the render action hands to the resampling processor: the choice of
 * sampling mode, the pixel-space inverse transforms and their blend
 * weights, the composition with the source image's own transform, the
 * masking and mixing settings, and the choice of filter kernel. Also the
 * host-transform query, which answers the same single transform forward.
 */
module RenderSetup {
  import opened Wrappers
  import opened Geometry
  import opened Rects
  import opened TransformRegion
  import opened SampleSets
  import opened Params

  /** How the render samples the transform. */
  datatype Mode = NoSource | ShutterMode | DirectionalMode | SingleMode

  /** The motion blur of a render: 0 for an instance without the parameter. */
  function RenderMotionBlur(e: Effect): real {
    MotionBlurOr(e, 0.0)
  }

  /**
   * The mode of a render. Shutter sampling needs a nonzero shutter and a
   * nonzero motion blur, and the shutter is not even read while
   * directional blur is on; directional blur is used whenever it is on,
   * even at zero motion blur; otherwise a single sample is taken.
   */
  function SelectMode(e: Effect, hasSource: bool): (m: Mode)
    ensures m == NoSource <==> !hasSource
    ensures m == ShutterMode <==> hasSource && !DirectionalBlur(e) && Shutter(e) != 0.0 && RenderMotionBlur(e) != 0.0
    ensures m == DirectionalMode <==> hasSource && DirectionalBlur(e)
    ensures m == SingleMode <==> hasSource && !DirectionalBlur(e) && (Shutter(e) == 0.0 || RenderMotionBlur(e) == 0.0)
  {
    if !hasSource then NoSource
    else
      var shutter := if !DirectionalBlur(e) then Shutter(e) else 0.0;
      if shutter != 0.0 && RenderMotionBlur(e) != 0.0 then ShutterMode
      else if DirectionalBlur(e) then DirectionalMode
      else SingleMode
  }

  /**
   * The sample set of a render in the given mode. `initial` is what the
   * transform slots hold when allocated for directional blur.
   */
  function SampleStage(e: Effect, time: real, frame: PixelFrame, hook: Hook, mode: Mode,
                       initial: seq<Matrix3x3>): (s: SampleSet)
    requires |initial| == MotionBlurCount
    ensures |s.mats| == (if mode == ShutterMode || mode == DirectionalMode then MotionBlurCount else 1)
    ensures s.size <= |s.mats|
    ensures mode != DirectionalMode ==> s.size >= 1
    ensures mode == ShutterMode ==> (s.size == 1 <==> AllSame(s.mats)) && (s.size == 1 || s.size == MotionBlurCount)
    ensures mode == DirectionalMode ==>
              (s.size == 0 <==> forall i :: 0 <= i < MotionBlurCount ==>
                                  BlurCall(hook, Invert(e), time, AmountFrom(e), AmountTo(e), MotionBlurCount, i).None?)
  {
    match mode
    case NoSource => SampleSet([NoOp], [], 1)
    case ShutterMode => InverseTransforms(hook, Invert(e), frame, Window(e, time), MotionBlurCount)
    case DirectionalMode =>
      BlurSetSize(hook, Invert(e), frame, time, AmountFrom(e), AmountTo(e), MotionBlurCount, initial);
      InverseTransformsBlur(hook, Invert(e), frame, time, AmountFrom(e), AmountTo(e), MotionBlurCount, initial)
    case SingleMode => SampleSet([ShutterSample(hook, Invert(e), frame, time)], [], 1)
  }

  /**
   * The blend weights: none outside directional blur; there, one per slot,
   * all 1 when the fading is not positive, otherwise `fade` of the slot's
   * amount (pow(1 - |amount| / amountTo, fading), not modelled).
   */
  function Weights(e: Effect, mode: Mode, amounts: seq<real>, fade: real -> real): (w: seq<real>)
    ensures mode != DirectionalMode ==> w == []
    ensures mode == DirectionalMode ==> |w| == |amounts|
    ensures mode == DirectionalMode && Fading(e) <= 0.0 ==> forall i :: 0 <= i < |w| ==> w[i] == 1.0
    ensures mode == DirectionalMode && Fading(e) > 0.0 ==> forall i :: 0 <= i < |w| ==> w[i] == fade(amounts[i])
  {
    if mode != DirectionalMode then []
    else if Fading(e) <= 0.0 then seq(|amounts|, _ => 1.0)
    else seq(|amounts|, i requires 0 <= i < |amounts| => fade(amounts[i]))
  }

  /**
   * Composition with the source image's transform `t` (source to
   * destination pixels): when it is present and invertible, each of the
   * first `size` inverse transforms is followed by the inverse of `t`;
   * every other slot, and every slot when `t` is absent or singular, is kept.
   */
  function ComposeSource(mats: seq<Matrix3x3>, size: nat, t: Option<Matrix3x3>): (r: seq<Matrix3x3>)
    ensures |r| == |mats|
    ensures t.None? || Det(t.value) == 0.0 ==> r == mats
    ensures forall i :: size <= i < |mats| ==> r[i] == mats[i]
  {
    if t.Some? && Det(t.value) != 0.0 then
      var inv := Inverse(t.value, Det(t.value));
      seq(|mats|, i requires 0 <= i < |mats| => if i < size then Mul(inv, mats[i]) else mats[i])
    else mats
  }

  /** A composed slot maps a destination pixel through the sample, then back through the source's transform. */
  lemma ComposedMapsPoints(mats: seq<Matrix3x3>, size: nat, t: Matrix3x3, i: nat, p: Point3D)
    requires Det(t) != 0.0 && i < size && i < |mats|
    ensures Apply(ComposeSource(mats, size, Some(t))[i], p) == Apply(Inverse(t, Det(t)), Apply(mats[i], p))
  {
    ApplyMul(Inverse(t, Det(t)), mats[i], p);
  }

  /** The source image of a render: its transform, None when the host reports it as the identity. */
  datatype SourceImage = SourceImage(transform: Option<Matrix3x3>)

  /** The processor's settings for one render. */
  datatype Setup = Setup(mats: seq<Matrix3x3>, weights: seq<real>, size: nat,
                         blackOutside: bool, motionBlur: real, mix: real,
                         doMasking: bool, maskInvert: bool)

  /**
   * The set-up part of setupAndProcess: the sample set for the mode, the
   * motion blur forced to 0 for a single transform, the composition with
   * the source's transform, and the masking settings. Without a source
   * image a single no-op transform is used and no parameter is read.
   */
  function RenderSetupOf(e: Effect, time: real, frame: PixelFrame, src: Option<SourceImage>, hook: Hook,
                         initial: seq<Matrix3x3>, fade: real -> real): (s: Setup)
    requires |initial| == MotionBlurCount
    ensures s.size <= |s.mats|
    ensures s.size == 1 ==> s.motionBlur == 0.0
    ensures s.doMasking <==> e.masked && DoMasking(e)
    ensures s.maskInvert ==> s.doMasking
  {
    var mode := SelectMode(e, src.Some?);
    var ss := SampleStage(e, time, frame, hook, mode, initial);
    var weights := Weights(e, mode, ss.amounts, fade);
    var doMasking := e.masked && DoMasking(e);
    var maskInvert := doMasking && MaskInvert(e);
    if src.None? then
      Setup(ss.mats, weights, ss.size, false, 0.0, 1.0, doMasking, maskInvert)
    else
      var motionBlur := if ss.size == 1 then 0.0 else RenderMotionBlur(e);
      var mix := if e.masked && e.mask.Some? then e.mask.value.mix else 1.0;
      Setup(ComposeSource(ss.mats, ss.size, src.value.transform), weights, ss.size,
            BlackOutside(e), motionBlur, mix, doMasking, maskInvert)
  }

  /** Without a source image the processor gets the single no-op transform, no motion blur and full mix. */
  lemma SetupWithoutSource(e: Effect, time: real, frame: PixelFrame, hook: Hook,
                           initial: seq<Matrix3x3>, fade: real -> real)
    requires |initial| == MotionBlurCount
    ensures var s := RenderSetupOf(e, time, frame, None, hook, initial, fade);
            s.mats == [NoOp] && s.size == 1 && s.weights == [] && s.motionBlur == 0.0 && s.mix == 1.0 && !s.blackOutside
  {
  }

  /**
   * The processor gets at least one transform, as the source asserts,
   * except for directional blur when the hook fails at every one of the
   * slots: then it gets none.
   */
  lemma SetupEmptyOnlyWhenBlurFails(e: Effect, time: real, frame: PixelFrame, src: Option<SourceImage>, hook: Hook,
                                    initial: seq<Matrix3x3>, fade: real -> real)
    requires |initial| == MotionBlurCount
    ensures RenderSetupOf(e, time, frame, src, hook, initial, fade).size == 0 <==>
              src.Some? && DirectionalBlur(e)
              && forall i :: 0 <= i < MotionBlurCount ==>
                   BlurCall(hook, Invert(e), time, AmountFrom(e), AmountTo(e), MotionBlurCount, i).None?
  {
    var mode := SelectMode(e, src.Some?);
    var ss := SampleStage(e, time, frame, hook, mode, initial);
    assert RenderSetupOf(e, time, frame, src, hook, initial, fade).size == ss.size;
  }

  /**
   * Shutter sampling keeps its motion blur exactly when the shutter
   * samples differ: all 1000 transforms go to the processor, otherwise
   * only the first and no motion blur.
   */
  lemma ShutterSetup(e: Effect, time: real, frame: PixelFrame, src: SourceImage, hook: Hook,
                     initial: seq<Matrix3x3>, fade: real -> real)
    requires |initial| == MotionBlurCount
    requires SelectMode(e, true) == ShutterMode
    ensures var s := RenderSetupOf(e, time, frame, Some(src), hook, initial, fade);
            var ss := InverseTransforms(hook, Invert(e), frame, Window(e, time), MotionBlurCount);
            && (s.size == 1 <==> AllSame(ss.mats))
            && (!AllSame(ss.mats) ==> s.size == MotionBlurCount && s.motionBlur == RenderMotionBlur(e) && s.motionBlur != 0.0)
            && s.weights == []
  {
  }

  /**
   * A single sample: one transform, no motion blur; when the hook fails it
   * is the no-op transform (composed with the source's transform).
   */
  lemma SingleSetup(e: Effect, time: real, frame: PixelFrame, src: SourceImage, hook: Hook,
                    initial: seq<Matrix3x3>, fade: real -> real)
    requires |initial| == MotionBlurCount
    requires SelectMode(e, true) == SingleMode
    ensures var s := RenderSetupOf(e, time, frame, Some(src), hook, initial, fade);
            && s.size == 1 && |s.mats| == 1 && s.motionBlur == 0.0
            && (hook(time, 1.0, Invert(e)).None? ==> s.mats == ComposeSource([NoOp], 1, src.transform))
            && (hook(time, 1.0, Invert(e)).Some? ==>
                  s.mats == ComposeSource([ToPixel(frame, hook(time, 1.0, Invert(e)).value)], 1, src.transform))
  {
  }

  /** Directional blur with a non-positive fading weighs every slot equally. */
  lemma DirectionalWeights(e: Effect, time: real, frame: PixelFrame, src: SourceImage, hook: Hook,
                           initial: seq<Matrix3x3>, fade: real -> real)
    requires |initial| == MotionBlurCount
    requires DirectionalBlur(e) && Fading(e) <= 0.0
    ensures var s := RenderSetupOf(e, time, frame, Some(src), hook, initial, fade);
            |s.weights| == MotionBlurCount && forall i :: 0 <= i < |s.weights| ==> s.weights[i] == 1.0
  {
  }

  // ---------------------------------------------------------------------
  // Filter kernel
  // ---------------------------------------------------------------------

  /** The filters that come in a clamped variant; the others never overshoot. */
  predicate HasClampVariant(f: Filter) {
    f == Keys || f == Simon || f == Rifman || f == Mitchell
  }

  /** The processor instantiated: its filter and whether it clamps. */
  datatype Kernel = Kernel(filter: Filter, clamped: bool)

  /**
   * The filter dispatch of a render: draft quality forces the impulse
   * filter; otherwise the filter parameter (cubic without one) is used, in
   * its clamped variant when clamping is on and the filter has one.
   */
  function SelectKernel(e: Effect, draft: bool): (k: Kernel)
    ensures draft ==> k == Kernel(Impulse, false)
    ensures !draft ==> k.filter == FilterChoice(e)
    ensures k.clamped <==> ClampOn(e) && HasClampVariant(k.filter)
  {
    var filter := if draft then Impulse else FilterChoice(e);
    var clamp := ClampOn(e);
    match filter
    case Impulse => Kernel(Impulse, false)
    case Bilinear => Kernel(Bilinear, false)
    case Cubic => Kernel(Cubic, false)
    case Keys => Kernel(Keys, clamp)
    case Simon => Kernel(Simon, clamp)
    case Rifman => Kernel(Rifman, clamp)
    case Mitchell => Kernel(Mitchell, clamp)
    case Parzen => Kernel(Parzen, false)
    case Notch => Kernel(Notch, false)
  }

  // ---------------------------------------------------------------------
  // Host transform
  // ---------------------------------------------------------------------

  /**
   * getTransform: the forward pixel-space transform of an unmasked
   * instance, the inverse of the hook's answer at full amount conjugated
   * into pixel space; None for a masked instance, a failed hook or a
   * singular answer.
   */
  function HostTransform(e: Effect, time: real, frame: PixelFrame, hook: Hook): (r: Option<Matrix3x3>)
    ensures r.Some? <==> !e.masked && hook(time, 1.0, Invert(e)).Some? && Det(hook(time, 1.0, Invert(e)).value) != 0.0
    ensures r.Some? ==> var m := hook(time, 1.0, Invert(e)).value; r.value == ToPixel(frame, Inverse(m, Det(m)))
  {
    if e.masked then None
    else
      match hook(time, 1.0, Invert(e))
      case None => None
      case Some(m) =>
        var det := Det(m);
        if det == 0.0 then None else Some(ToPixel(frame, Inverse(m, det)))
  }
}
