/**
 * The identity test of the transform base (isIdentity with arguments): an
 * ordered chain of reasons for which the output is the source image, and
 * of reasons that rule this out.
 */
module Identity {
  import opened Wrappers
  import opened Params

  /**
   * The answer: not an identity; the source clip at the given time; or the
   * source clip with the identity time left as the host passed it (the
   * render window misses the mask).
   */
  datatype Verdict = NotIdentity | IdentityAt(time: real) | IdentityClipOnly

  /** A directional-blur amount of exactly 0. */
  predicate AmountZero(e: Effect) {
    e.dirBlur.Some? && e.dirBlur.value.amount == 0.0
  }

  /**
   * A nonzero shutter with nonzero motion blur. The motion blur defaults to
   * 1 for instances with an invert parameter and to 0 otherwise; the shutter
   * is read whenever the instance has one, whatever the directional-blur switch.
   */
  predicate ShutterBlurs(e: Effect) {
    Shutter(e) != 0.0 && MotionBlurOr(e, if e.generic.Some? then 1.0 else 0.0) != 0.0
  }

  /** A masked instance at mix 0. */
  predicate MixZero(e: Effect) {
    e.masked && Mix(e) == 0.0
  }

  /** A masked instance whose connected, non-inverted mask lies outside the render window. */
  predicate MaskedOut(e: Effect, windowMeetsMask: bool) {
    e.masked && DoMasking(e) && !MaskInvert(e) && !windowMeetsMask
  }

  /**
   * isIdentity. `effectIdentity` is the effect's own test at the time;
   * `windowMeetsMask` says whether the render window meets the mask's
   * region of definition in pixels. The mix is 1 and the mask is not
   * inverted for an instance without those parameters, as the render reads them.
   *
   * The answer is an identity exactly when the amount is 0, or when neither
   * shutter blur nor clamping rules it out and the effect is an identity,
   * the mix is 0 or the mask misses the window; only the last of these
   * leaves the time unset, and an amount of 0 wins over everything.
   */
  function IsIdentity(e: Effect, time: real, effectIdentity: bool, windowMeetsMask: bool): (v: Verdict)
    ensures AmountZero(e) ==> v == IdentityAt(time)
    ensures v != NotIdentity <==>
              AmountZero(e)
              || (!ShutterBlurs(e) && !ClampOn(e) && (effectIdentity || MixZero(e) || MaskedOut(e, windowMeetsMask)))
    ensures v == IdentityClipOnly <==>
              !AmountZero(e) && !ShutterBlurs(e) && !ClampOn(e) && !effectIdentity && !MixZero(e)
              && MaskedOut(e, windowMeetsMask)
    ensures v.IdentityAt? ==> v.time == time
  {
    if e.dirBlur.Some? && e.dirBlur.value.amount == 0.0 then IdentityAt(time)
    else
      var motionBlur := MotionBlurOr(e, if e.generic.Some? then 1.0 else 0.0);
      var shutter := if e.shutterParams.Some? then e.shutterParams.value.shutter else 0.0;
      if shutter != 0.0 && motionBlur != 0.0 then NotIdentity
      else if e.generic.Some? && e.generic.value.clamp then NotIdentity
      else if effectIdentity then IdentityAt(time)
      else if e.masked then
        var mix := if e.mask.Some? then e.mask.value.mix else 1.0;
        if mix == 0.0 then IdentityAt(time)
        else if DoMasking(e) && !MaskInvert(e) && !windowMeetsMask then IdentityClipOnly
        else NotIdentity
      else NotIdentity
  }

  /**
   * isIdentity as written: past the mix test, a connected mask makes it read
   * the mask-invert parameter unguarded, which crashes on an instance that
   * never fetched one; otherwise it answers as above.
   */
  function IsIdentityAsWritten(e: Effect, time: real, effectIdentity: bool, windowMeetsMask: bool): (v: Outcome<Verdict>)
    ensures v.Crash? <==>
              !AmountZero(e) && !ShutterBlurs(e) && !ClampOn(e) && !effectIdentity
              && e.masked && DoMasking(e) && e.mask.None?
    ensures v.Done? ==> v.value == IsIdentity(e, time, effectIdentity, windowMeetsMask)
  {
    if AmountZero(e) then Done(IdentityAt(time))
    else if ShutterBlurs(e) || ClampOn(e) then Done(NotIdentity)
    else if effectIdentity then Done(IdentityAt(time))
    else if e.masked then
      if Mix(e) == 0.0 then Done(IdentityAt(time))
      else if DoMasking(e) then
        match e.mask
        case None => Crash
        case Some(m) => if !m.maskInvert && !windowMeetsMask then Done(IdentityClipOnly) else Done(NotIdentity)
      else Done(NotIdentity)
    else Done(NotIdentity)
  }

  /**
   * A masked instance without the generic parameters whose mask is
   * connected and misses the render window: as written the identity test
   * crashes, while reading the mask as not inverted answers the source clip.
   */
  lemma IdentityAsWrittenCrashesWithoutMaskInvert(time: real)
    ensures var e := Effect(true, true, true, None, None, None, None, None, None);
            && IsIdentityAsWritten(e, time, false, false).Crash?
            && IsIdentity(e, time, false, false) == IdentityClipOnly
  {
  }
}
