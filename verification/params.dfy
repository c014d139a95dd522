/**
 * The effect instance as the region, identity and render actions see it at
 * one time: which clips and parameters the instance has, and the values of
 * those parameters at that time. A parameter group is absent (None) when
 * the instance never fetched it; every action then falls back to its own
 * default.
 */
module Params {
  import opened Wrappers
  import opened Rects

  /** The resampling filters (FilterEnum), in declaration order. */
  datatype Filter = Impulse | Bilinear | Cubic | Keys | Simon | Rifman | Mitchell | Parzen | Notch

  /** The parameters every generic transform has: invert, filter, clamp, black outside. */
  datatype GenericParams = GenericParams(invert: bool, filter: Filter, clamp: bool, blackOutside: bool)

  /** The directional-blur parameters: amount, centered, fading. */
  datatype DirBlurParams = DirBlurParams(amount: real, centered: bool, fading: real)

  /**
   * The motion-blur parameters: the directional-blur switch, the shutter
   * duration, and the shutter window that shutterRange derives from the
   * time, the shutter and the shutter offset.
   */
  datatype ShutterParams = ShutterParams(directionalBlur: bool, shutter: real, window: Range)

  /** The masking parameters: mix and mask invert, fetched only by a masked instance that has the generic parameters. */
  datatype MaskParams = MaskParams(mix: real, maskInvert: bool)

  /**
   * The instance at one time. `hasSourceClip` is false in the generator
   * context; `maskConnected` says that a mask clip exists and is connected.
   */
  datatype Effect = Effect(hasSourceClip: bool, masked: bool, maskConnected: bool,
                           generic: Option<GenericParams>,
                           motionBlur: Option<real>,
                           dirBlur: Option<DirBlurParams>,
                           shutterParams: Option<ShutterParams>,
                           mask: Option<MaskParams>,
                           maskApply: Option<bool>)

  function Invert(e: Effect): bool {
    e.generic.Some? && e.generic.value.invert
  }

  function ClampOn(e: Effect): bool {
    e.generic.Some? && e.generic.value.clamp
  }

  function BlackOutside(e: Effect): bool {
    e.generic.Some? && e.generic.value.blackOutside
  }

  /** The filter parameter, Cubic when the instance has none. */
  function FilterChoice(e: Effect): Filter {
    if e.generic.Some? then e.generic.value.filter else Cubic
  }

  /** The motion-blur amount, or the caller's default when the instance has no such parameter. */
  function MotionBlurOr(e: Effect, default: real): real {
    if e.motionBlur.Some? then e.motionBlur.value else default
  }

  /** The end of the directional-blur amount interval, 1 when the instance has no amount. */
  function AmountTo(e: Effect): real {
    if e.dirBlur.Some? then e.dirBlur.value.amount else 1.0
  }

  /** The start of the amount interval: the negated end when centered, 0 otherwise. */
  function AmountFrom(e: Effect): real {
    if e.dirBlur.Some? && e.dirBlur.value.centered then -AmountTo(e) else 0.0
  }

  function Fading(e: Effect): real {
    if e.dirBlur.Some? then e.dirBlur.value.fading else 0.0
  }

  /** Directional blur is on when the instance has no switch for it, otherwise as the switch says. */
  function DirectionalBlur(e: Effect): bool {
    if e.shutterParams.Some? then e.shutterParams.value.directionalBlur else true
  }

  function Shutter(e: Effect): real {
    if e.shutterParams.Some? then e.shutterParams.value.shutter else 0.0
  }

  /** The shutter window; an instance without shutter parameters never sweeps one. */
  function Window(e: Effect, time: real): Range {
    if e.shutterParams.Some? then e.shutterParams.value.window else Range(time, time)
  }

  /** The mask is applied when there is no "apply mask" switch or the switch is on, and a mask is connected. */
  predicate DoMasking(e: Effect) {
    (e.maskApply.None? || e.maskApply.value) && e.maskConnected
  }

  function Mix(e: Effect): real {
    if e.mask.Some? then e.mask.value.mix else 1.0
  }

  function MaskInvert(e: Effect): bool {
    e.mask.Some? && e.mask.value.maskInvert
  }
}
