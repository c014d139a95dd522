/**
 * The region actions of the transform base: the region of definition of
 * the output (getRegionOfDefinition) and the region of the source needed
 * for a requested output region (getRegionsOfInterest), both built on the
 * region propagator.
 */
module Regions {
  import opened Wrappers
  import opened Geometry
  import opened Rects
  import opened CornerBox
  import opened Sampling
  import opened TransformRegion
  import opened Params

  /**
   * ofxsFilterExpandRoD for the query's pixel aspect ratio and render
   * scale: the region of definition widened for the filter, given the
   * black-outside flag.
   */
  type ExpandRoD = (Rect, bool) -> Rect

  /**
   * ofxsFilterExpandRoI for the query's pixel aspect ratio and render
   * scale: given the requested region, the propagated source region, the
   * filter, the masking flag and the mix, the source region widened for
   * the filter.
   */
  type ExpandRoI = (Rect, Rect, Filter, bool, real) -> Rect

  /** The blur settings both region actions pass to the propagator (motion blur defaults to 1). */
  function RegionBlur(e: Effect, time: real): BlurSettings {
    BlurSettings(MotionBlurOr(e, 1.0), DirectionalBlur(e), AmountFrom(e), AmountTo(e), Shutter(e), Window(e, time))
  }

  /** The region of definition passes the source's through unchanged: a connected mask at mix 0. */
  predicate RoDPassThrough(e: Effect) {
    DoMasking(e) && e.mask.Some? && e.mask.value.mix == 0.0
  }

  /**
   * getRegionOfDefinition: None when there is no source clip. An infinite
   * source region gives the infinite region. A mask at mix 0 gives the
   * source region. Otherwise the source region is propagated with the
   * invert flag negated, widened for the filter unless the effect is an
   * identity, and joined with the source region when masking.
   */
  function RegionOfDefinition(e: Effect, time: real, srcRoD: Rect, isIdentity: bool,
                              hook: Hook, expand: ExpandRoD): (r: Option<Rect>)
    ensures r.None? <==> !e.hasSourceClip
    ensures e.hasSourceClip && IsInfinite(srcRoD) ==> r == Some(Infinite)
    ensures e.hasSourceClip && !IsInfinite(srcRoD) && RoDPassThrough(e) ==> r == Some(srcRoD)
    ensures e.hasSourceClip && !IsInfinite(srcRoD) && DoMasking(e) ==> Contains(r.value, srcRoD)
    ensures e.hasSourceClip && !IsInfinite(srcRoD) && !DoMasking(e) && isIdentity && !ShutterSweep(RegionBlur(e, time))
            ==> r == Some(srcRoD)
  {
    if !e.hasSourceClip then None
    else if IsInfinite(srcRoD) then Some(Infinite)
    else if RoDPassThrough(e) then Some(srcRoD)
    else
      var mix := if DoMasking(e) && e.mask.Some? then e.mask.value.mix else 1.0;
      var rod := TransformRegion.TransformRegion(srcRoD, time, !Invert(e), RegionBlur(e, time), isIdentity, hook);
      var rod' := if !isIdentity then expand(rod, BlackOutside(e)) else rod;
      if DoMasking(e) && (mix != 1.0 || e.maskConnected) then Some(Union(rod', srcRoD)) else Some(rod')
  }

  /**
   * Past the pass-through cases and the identity fast path, with every hook
   * call succeeding and a filter widening that never shrinks, the region of
   * definition holds the corner box of the source region under every sample.
   */
  lemma RoDHoldsSamples(e: Effect, time: real, srcRoD: Rect, isIdentity: bool,
                        hook: Hook, expand: ExpandRoD, k: nat)
    requires e.hasSourceClip && !IsInfinite(srcRoD) && !RoDPassThrough(e)
    requires ShutterSweep(RegionBlur(e, time)) || !isIdentity
    requires forall r, bo :: Contains(expand(r, bo), r)
    requires var b := RegionBlur(e, time);
             forall j :: 0 <= j < |Samples(time, b)| ==> Call(hook, !Invert(e), b, Samples(time, b)[j]).Some?
    requires k < |Samples(time, RegionBlur(e, time))|
    ensures var b := RegionBlur(e, time);
            Contains(RegionOfDefinition(e, time, srcRoD, isIdentity, hook, expand).value,
                     BoxOf(Corners(srcRoD, Call(hook, !Invert(e), b, Samples(time, b)[k]).value)))
  {
    var b := RegionBlur(e, time);
    var rod := TransformRegion.TransformRegion(srcRoD, time, !Invert(e), b, isIdentity, hook);
    TransformRegionHoldsSamples(srcRoD, time, !Invert(e), b, isIdentity, hook, k);
    var rod' := if !isIdentity then expand(rod, BlackOutside(e)) else rod;
    assert Contains(rod', rod);
    ContainsTransitive(Union(rod', srcRoD), rod', rod);
  }

  lemma ContainsTransitive(a: Rect, b: Rect, c: Rect)
    requires Contains(a, b) && Contains(b, c)
    ensures Contains(a, c)
  {
  }

  /** The project rectangle lies strictly inside the sentinels. */
  predicate FiniteProject(offset: Point2, size: Point2) {
    && INF_MIN < offset.x && offset.x + size.x < INF_MAX
    && INF_MIN < offset.y && offset.y + size.y < INF_MAX
  }

  /**
   * Clamping of an infinite source region to the project: each side at or
   * beyond its sentinel is replaced by the matching project edge, so a
   * finite region is left alone and, for a finite project, no side is left
   * at a sentinel.
   */
  function ClampToProject(r: Rect, offset: Point2, size: Point2): (c: Rect)
    ensures !IsInfinite(r) ==> c == r
    ensures FiniteProject(offset, size) ==> !IsInfinite(c)
    ensures r.x1 > INF_MIN ==> c.x1 == r.x1
    ensures r.y1 > INF_MIN ==> c.y1 == r.y1
    ensures r.x2 < INF_MAX ==> c.x2 == r.x2
    ensures r.y2 < INF_MAX ==> c.y2 == r.y2
  {
    Rect(if r.x1 <= INF_MIN then offset.x else r.x1,
         if r.y1 <= INF_MIN then offset.y else r.y1,
         if r.x2 >= INF_MAX then offset.x + size.x else r.x2,
         if r.y2 >= INF_MAX then offset.y + size.y else r.y2)
  }

  /** The region of interest passes the requested region through: a connected mask at mix 0. */
  predicate RoIPassThrough(e: Effect) {
    DoMasking(e) && Mix(e) == 0.0
  }

  /**
   * getRegionsOfInterest: None (no region set) when there is no source
   * clip. A mask at mix 0 asks for the requested region itself. Otherwise
   * the requested region is propagated with the invert flag as set,
   * widened for the filter, clamped to the project if it is infinite, and
   * joined with the requested region when masked with a mix other than 1.
   * The mix is read only when masking, and is 1 for an instance without a
   * mix parameter, as the other actions read it.
   */
  function RegionsOfInterest(e: Effect, time: real, roi: Rect, isIdentity: bool, hook: Hook, expand: ExpandRoI,
                             projectOffset: Point2, projectSize: Point2): (r: Option<Rect>)
    ensures r.None? <==> !e.hasSourceClip
    ensures e.hasSourceClip && RoIPassThrough(e) ==> r == Some(roi)
    ensures e.hasSourceClip && e.masked && DoMasking(e) && Mix(e) != 1.0 ==> Contains(r.value, roi)
    ensures e.hasSourceClip && !RoIPassThrough(e) && FiniteProject(projectOffset, projectSize) && !IsInfinite(roi)
            ==> !IsInfinite(r.value)
  {
    if !e.hasSourceClip then None
    else if RoIPassThrough(e) then Some(roi)
    else
      var mix := if DoMasking(e) then Mix(e) else 1.0;
      var srcRoI := TransformRegion.TransformRegion(roi, time, Invert(e), RegionBlur(e, time), isIdentity, hook);
      var expanded := expand(roi, srcRoI, FilterChoice(e), DoMasking(e), mix);
      var clamped := if IsInfinite(expanded) then ClampToProject(expanded, projectOffset, projectSize) else expanded;
      if e.masked && mix != 1.0 then Some(Union(clamped, roi)) else Some(clamped)
  }

  /**
   * getRegionsOfInterest as written: with a mask connected it reads the mix
   * parameter unguarded, which crashes on an instance that never fetched
   * one; otherwise it answers as above.
   */
  function RegionsOfInterestAsWritten(e: Effect, time: real, roi: Rect, isIdentity: bool, hook: Hook, expand: ExpandRoI,
                                      projectOffset: Point2, projectSize: Point2): (r: Outcome<Option<Rect>>)
    ensures r.Crash? <==> e.hasSourceClip && DoMasking(e) && e.mask.None?
    ensures r.Done? ==> r.value == RegionsOfInterest(e, time, roi, isIdentity, hook, expand, projectOffset, projectSize)
  {
    if !e.hasSourceClip then Done(None)
    else if DoMasking(e) && e.mask.None? then Crash
    else Done(RegionsOfInterest(e, time, roi, isIdentity, hook, expand, projectOffset, projectSize))
  }

  /**
   * A masked instance without the generic parameters (hence without mix
   * and mask invert) whose mask is connected: as written the region of
   * interest crashes, while reading the mix as 1 asks for the request
   * itself, finite, under an identity transform that needs no widening.
   */
  lemma RoIAsWrittenCrashesWithoutMix(time: real, roi: Rect, hook: Hook, expand: ExpandRoI,
                                      projectOffset: Point2, projectSize: Point2)
    requires !IsInfinite(roi)
    requires forall r, s, f, dm, mix :: expand(r, s, f, dm, mix) == s
    ensures var e := Effect(true, true, true, None, None, None, None, None, None);
            && RegionsOfInterestAsWritten(e, time, roi, true, hook, expand, projectOffset, projectSize).Crash?
            && RegionsOfInterest(e, time, roi, true, hook, expand, projectOffset, projectSize) == Some(roi)
  {
    var e := Effect(true, true, true, None, None, None, None, None, None);
    assert !ShutterSweep(RegionBlur(e, time));
  }

  /** Under a translating hook, the region of definition is the shifted source region. */
  lemma TranslationRoD(e: Effect, time: real, src: Rect, hook: Hook, expandRoD: ExpandRoD, dx: real, dy: real)
    requires e.hasSourceClip && !DoMasking(e) && !Invert(e)
    requires WellFormed(src) && !IsInfinite(src) && !IsInfinite(Shift(src, dx, dy))
    requires forall t, a :: hook(t, a, true) == Some(Translation(dx, dy))
    requires forall r, bo :: expandRoD(r, bo) == r
    ensures RegionOfDefinition(e, time, src, false, hook, expandRoD) == Some(Shift(src, dx, dy))
  {
    TranslationRegion(src, time, true, RegionBlur(e, time), false, hook, dx, dy);
  }

  /** Under a translating hook, the region of interest of a region is that region shifted back. */
  lemma TranslationRoI(e: Effect, time: real, roi: Rect, hook: Hook, expandRoI: ExpandRoI,
                       projectOffset: Point2, projectSize: Point2, dx: real, dy: real)
    requires e.hasSourceClip && !DoMasking(e)
    requires WellFormed(roi) && !IsInfinite(Shift(roi, dx, dy))
    requires forall t, a :: hook(t, a, Invert(e)) == Some(Translation(dx, dy))
    requires forall r, s, f, dm, mix :: expandRoI(r, s, f, dm, mix) == s
    ensures RegionsOfInterest(e, time, roi, false, hook, expandRoI, projectOffset, projectSize) == Some(Shift(roi, dx, dy))
  {
    TranslationRegion(roi, time, Invert(e), RegionBlur(e, time), false, hook, dx, dy);
  }

  /**
   * The two actions invert each other for a translation: with a hook that
   * answers the forward translation by (dx, dy) when asked for the
   * inverted transform and the backward one otherwise, no filter widening,
   * no masking and the invert parameter off, the region of interest of the
   * region of definition of a finite region is that region again.
   */
  lemma TranslationRoundTrip(e: Effect, time: real, src: Rect, hook: Hook,
                             expandRoD: ExpandRoD, expandRoI: ExpandRoI,
                             projectOffset: Point2, projectSize: Point2, dx: real, dy: real)
    requires e.hasSourceClip && !DoMasking(e) && !Invert(e)
    requires WellFormed(src) && !IsInfinite(src) && !IsInfinite(Shift(src, dx, dy))
    requires forall t, a :: hook(t, a, true) == Some(Translation(dx, dy)) && hook(t, a, false) == Some(Translation(-dx, -dy))
    requires forall r, bo :: expandRoD(r, bo) == r
    requires forall roi, s, f, dm, mix :: expandRoI(roi, s, f, dm, mix) == s
    ensures RegionOfDefinition(e, time, src, false, hook, expandRoD) == Some(Shift(src, dx, dy))
    ensures RegionsOfInterest(e, time, Shift(src, dx, dy), false, hook, expandRoI, projectOffset, projectSize) == Some(src)
  {
    TranslationRoD(e, time, src, hook, expandRoD, dx, dy);
    var moved := Shift(src, dx, dy);
    assert Shift(moved, -dx, -dy) == src;
    assert forall t, a :: hook(t, a, Invert(e)) == Some(Translation(-dx, -dy));
    TranslationRoI(e, time, moved, hook, expandRoI, projectOffset, projectSize, -dx, -dy);
  }
}
