# Transform3x3 base: regions, identity and sample sets

This project models the geometric core of the OpenFX `Transform3x3` base
plugin (`ofxsTransform3x3.cpp`). A derived effect, such as a transform,
corner pin, mirror or directional blur, supplies only one thing: a hook.
Given a time, a blend amount and an invert flag, the hook returns the
inverse 3x3 homography in canonical coordinates, or fails. The base turns
that hook into the following:

- **Corner boxes.** The four corners of a rectangle are mapped through a
  homography. If the line at infinity crosses the quad, the box is the
  infinite rectangle; otherwise it is the bounding box of the projected
  corners (`CornerBox`).
- **The region propagator** (`transformRegion`), in `TransformRegion` and
  `Sampling`. It builds a sample schedule: one sample, or the nine
  directional-blur amounts 1, 7/8, …, 0, or the shutter window visited at
  its ends and at every quarter frame in between. It joins the corner
  boxes of all the samples. It then widens each finite side by the largest
  L-infinity step of a corner between consecutive samples. Any hook failure
  gives the infinite rectangle. It is modelled twice and proved equal:
  - as a pure function over the schedule;
  - as the source's `while` loop (`TransformRegionLoop`).
- **Region of definition and regions of interest** (`Regions`):
  - pass-through at mix 0;
  - the infinite source region;
  - the invert flag negated for the region of definition only;
  - the identity fast path;
  - filter widening;
  - clamping of an infinite region of interest to the project;
  - the union with the source region when masking.
- **The identity test** (`Identity`): the ordered chain of reasons that make
  the output the source image, or that rule this out.
- **The sample sets a render uses** (`SampleSets`):
  - the shutter set (`getInverseTransforms`): a fixed number of samples,
    collapsed to one when all are equal;
  - the directional-blur set (`getInverseTransformsBlur`): only the
    successful samples are packed, with their amounts.
- **The render setup** (`RenderSetup`):
  - the choice between the shutter, directional and single-sample modes;
  - the collapse of motion blur for a single sample;
  - the blend weights;
  - composition with the source clip's own transform;
  - the masking flags;
  - the filter/clamp dispatch of the render;
  - the transform advertised to the host (`getTransform`).

Some parameters are absent from a given instance (for example a mirror has
no invert, and a directional blur has no shutter). Each one is an `Option`
in `Params.Effect`, and each action falls back to the default that the
source gives it at that call site. The defaults differ between call sites:

- the motion blur defaults to 1 in the region actions;
- in the render it defaults to 0;
- in the identity test it is 1 or 0 depending on whether the instance has
  an invert parameter.

The model keeps these differences.

Collaborators whose code is not part of this model become parameters:

- the derived effect's hook (`Hook`);
- the shutter window that `shutterRange` derives from the time, the
  shutter and the shutter offset (`ShutterParams.window`);
- the canonical↔pixel matrices (`PixelFrame`);
- the filter widening of regions (`ExpandRoD`, `ExpandRoI`);
- the fading power law (`fade`);
- the effect's own identity test at a time (`effectIdentity`, `isIdentity`);
- whether the render window meets the mask (`windowMeetsMask`);
- the project rectangle.

Numbers are mathematical reals. The sentinels `kOfxFlagInfiniteMin` and
`kOfxFlagInfiniteMax` are -2147483648 and 2147483647.

When the directional blur is on and every hook call fails, the render setup
produces a sample count of 0. The source asserts a nonzero count at
ofxsTransform3x3.cpp:368. `RenderSetup.SetupEmptyOnlyWhenBlurFails`
characterises exactly when that assertion fails. The same holds for the
loop as written (`SampleSets.AsWrittenSetSize`).

Two actions dereference a parameter without checking that the instance
fetched it. The mix and mask-invert parameters are fetched only by a masked
instance that also has the generic parameters
(ofxsTransform3x3.cpp:117, 140-144). The region of interest reads the mix
whenever masking is on (ofxsTransform3x3.cpp:683). The identity test reads
the mask-invert flag whenever masking is on (ofxsTransform3x3.cpp:981). The
`AsWritten` members model these reads as a crash (`Wrappers.Outcome`). The
members the rest of the model uses read a missing mix as 1 and a missing
mask-invert flag as false, as the other call sites do.

## Model

| member | source | states |
|---|---|---|
| CornerBox.BoxOf | ofxsTransform3x3.cpp:381-432 | If the quad's z signs are mixed, the box is infinite. Otherwise it is well formed, holds every projected corner, and each side is attained by some corner. |
| CornerBox.RegionFromPoints | ofxsTransform3x3.cpp:381-432 | The source's loop (the sign scan, then the min/max scan with its `else if`) computes exactly the corner box. |
| CornerBox.BoxOfWellFormed | ofxsTransform3x3.cpp:431 | The corner box always satisfies x1 <= x2 and y1 <= y2, which the source asserts. |
| CornerBox.TranslatedBox | ofxsTransform3x3.cpp:435-448 | The corner box of a well-formed rectangle under a translation is the shifted rectangle. |
| Rects.Union | ofxsTransform3x3.cpp:515 | The bounding box contains both rectangles, and each of its sides comes from one of them. |
| Rects.UnionIsLeast | ofxsTransform3x3.cpp:515 | Any rectangle containing both contains their bounding box. |
| Sampling.NextQuarter | ofxsTransform3x3.cpp:546 | The next quarter frame is strictly later, at most a quarter later, and lies on the quarter grid. |
| Sampling.ShutterTimes | ofxsTransform3x3.cpp:481-553 | The times visited over a shutter window start at its start and end at its end. When the window's start is before its end, they are strictly increasing and inside it. Consecutive times are at most a quarter frame apart, and their number is bounded by the quarter frames the window spans. |
| Sampling.Schedule | ofxsTransform3x3.cpp:469-553 | Without motion blur there is one sample at full amount. Directional blur gives nine samples with amount 1 - k/8. Shutter blur gives the shutter times at full amount. |
| TransformRegion.Evaluate | ofxsTransform3x3.cpp:497-510 | The hook is evaluated at every sample, and the result is None exactly when some evaluation fails. |
| TransformRegion.UnionOfBoxes | ofxsTransform3x3.cpp:484-488 | Starting from the super-empty rectangle, the join holds every sample's corner box. |
| TransformRegion.CornerStepIsMax | ofxsTransform3x3.cpp:521-529 | The step between two corner quads bounds every coordinate distance and equals one of them. |
| TransformRegion.MaxDisplacementAttained | ofxsTransform3x3.cpp:493 | With two or more samples, the widening equals the step between some consecutive pair. |
| TransformRegion.TransformRegion | ofxsTransform3x3.cpp:450-568 | Without a shutter sweep, an identity returns the input. Any hook failure gives the infinite region. When every call succeeds the region is well formed. |
| TransformRegion.TransformRegionHoldsSamples | ofxsTransform3x3.cpp:511-515 | When every call succeeds, the region holds the corner box of the input under every sample's transform. |
| TransformRegion.TransformRegionWellFormed | ofxsTransform3x3.cpp:736 | The propagated region of a well-formed rectangle is well formed, which the source asserts before widening the region of interest. |
| TransformRegion.ConstantTransformRegion | ofxsTransform3x3.cpp:517-567 | When every sample gives the same transform, nothing is widened. The region is that transform's corner box joined with the super-empty rectangle, that is, the corner box clipped at the sentinels. |
| TransformRegion.TranslationRegion | ofxsTransform3x3.cpp:450-568 | Under a translating hook the propagated region is the shifted rectangle. |
| TransformRegion.SingleSampleRegion | ofxsTransform3x3.cpp:481-491 | Without motion blur the hook is asked once, at the time and the full amount. |
| TransformRegion.TransformRegionLoop | ofxsTransform3x3.cpp:450-568 | The source's loop computes exactly the same region as the functional definition. Its state is the first/last flags, the quarter-frame stepping, the directional iteration counter, the previous corners and the running widening. |
| TransformRegion.SweepLoop | ofxsTransform3x3.cpp:484-567 | The sampling loop together with the final widening of the finite sides equals the functional sweep. |
| TransformRegion.ExpandFinite | ofxsTransform3x3.cpp:555-567 | A non-negative widening gives a rectangle containing the input, a zero widening changes nothing, and a side at or beyond its sentinel is kept. |
| TransformRegion.ExpandSides | ofxsTransform3x3.cpp:555-567 | The source's four guarded assignments widen exactly the sides that are not at a sentinel, each by the widening amount. |
| Regions.RegionOfDefinition | ofxsTransform3x3.cpp:574-662 | There is no answer without a source clip. An infinite source region gives the infinite region, and a mask at mix 0 gives the source region. When masking, the result contains the source region. When not masking, an identity without a shutter sweep gives the source region unchanged. |
| Regions.RoDHoldsSamples | ofxsTransform3x3.cpp:638-657 | Past the pass-through cases, with a widening that never shrinks and every call succeeding, the region of definition holds every sample's corner box of the source region. |
| Regions.ClampToProject | ofxsTransform3x3.cpp:740-758 | A finite region is unchanged. Only sides at a sentinel are replaced. With a finite project, no side is left at a sentinel. |
| Regions.RegionsOfInterest | ofxsTransform3x3.cpp:670-767 | There is no answer without a source clip, and a connected mask at mix 0 passes the requested region through. A missing mix reads as 1. A masked instance with mix other than 1 asks for at least the requested region. With a finite request and project, the answer is never infinite. |
| Regions.RegionsOfInterestAsWritten | ofxsTransform3x3.cpp:674-691 | As written, the action crashes exactly when there is a source clip, masking is on and the instance has no mix parameter. Otherwise it answers as `RegionsOfInterest`. |
| Regions.RoIAsWrittenCrashesWithoutMix | ofxsTransform3x3.cpp:681-691 | A masked instance without the generic parameters, with its mask connected: as written the region of interest crashes, while reading the mix as 1 asks for the requested region itself. |
| Regions.TranslationRoD | ofxsTransform3x3.cpp:606-641 | Under a translating hook the region of definition is the shifted source region. The invert flag is negated only here. |
| Regions.TranslationRoI | ofxsTransform3x3.cpp:693-725 | Under a translating hook the region of interest is the requested region shifted by the inverse transform. |
| Regions.TranslationRoundTrip | ofxsTransform3x3.cpp:574-767 | For a translation, the region of interest of the region of definition of a finite region is that region again. |
| Identity.IsIdentity | ofxsTransform3x3.cpp:914-995 | An amount of 0 is an identity at the time. Otherwise the effect is an identity exactly when shutter blur and clamping are both off and one of three holds: the effect's own test passes, the mix is 0, or a connected non-inverted mask misses the render window. Only that last case leaves the time unset. A missing mask-invert flag reads as false. |
| Identity.IsIdentityAsWritten | ofxsTransform3x3.cpp:914-995 | As written, the test crashes exactly when it gets past the amount, blur, clamp, own-identity and mix checks with masking on and no mask-invert parameter. Otherwise it answers as `IsIdentity`. |
| Identity.IdentityAsWrittenCrashesWithoutMaskInvert | ofxsTransform3x3.cpp:966-990 | A masked instance without the generic parameters, with its mask connected: as written the identity test crashes, while reading the flag as false makes it an identity that keeps the time unset. |
| SampleSets.ToPixelApply | ofxsTransform3x3.cpp:1078 | The pixel-space transform maps to canonical space, applies the canonical transform and maps back. |
| SampleSets.ShutterTimeEnds | ofxsTransform3x3.cpp:1075 | The first and last of n >= 2 shutter samples fall on the window's ends. |
| SampleSets.InverseTransforms | ofxsTransform3x3.cpp:1051-1105 | Every slot holds the pixel-space transform at its shutter time, or the no-op matrix where the hook fails. The count is 1 exactly when all slots are equal, and the full allocation otherwise. |
| SampleSets.InverseTransformsSize | ofxsTransform3x3.cpp:1100-1104 | The shutter set's count is 1 or the full allocation. |
| SampleSets.ConstantShutterCollapses | ofxsTransform3x3.cpp:1090-1102 | A hook that does not vary over the window yields one sample. |
| SampleSets.BlurAmountLast | ofxsTransform3x3.cpp:1127-1128 | The last directional sample is taken at the start of the amount interval. |
| SampleSets.Successes | ofxsTransform3x3.cpp:1125-1135 | The indices whose hook call succeeds, in increasing order, and all of them. |
| SampleSets.BlurStep | ofxsTransform3x3.cpp:1129-1145 | One corrected pass keeps the invariant. After index i the first count slots hold the successes among 0..i in order with their amounts, and the all-equal flag says the written slots are equal. |
| SampleSets.BlurLoopInv | ofxsTransform3x3.cpp:1125-1146 | The corrected loop keeps its invariant. The first count slots hold the successes in order, and the all-equal flag says the written slots are equal. |
| SampleSets.InverseTransformsBlur | ofxsTransform3x3.cpp:1107-1152 | Only successful samples are packed, in order, each with its amount. The count is their number, or 1 when there is at least one and all the written transforms are equal. |
| SampleSets.BlurSetSize | ofxsTransform3x3.cpp:1147-1151 | The count is 0 exactly when every hook call fails. |
| SampleSets.InverseTransformsBlurAsWritten | ofxsTransform3x3.cpp:1136-1144 | As written, the loop compares slot i instead of the slot it has just written. The arrays keep their length and the count stays within the allocation. |
| SampleSets.BlurLoopEmpty | ofxsTransform3x3.cpp:1125-1146 | For the loop as written and the corrected loop alike, the count ends at 0 exactly when it starts at 0 and every remaining call fails. |
| SampleSets.AsWrittenSetSize | ofxsTransform3x3.cpp:1147-1151 | As written, the count is 0 exactly when every hook call fails. |
| SampleSets.AsWrittenAgreesWhenAllSucceed | ofxsTransform3x3.cpp:1125-1149 | When every hook call succeeds, the as-written and corrected blur sets coincide. |
| SampleSets.AsWrittenCollapsesDistinctSamples | ofxsTransform3x3.cpp:1136-1149 | A concrete hook with one failure. The as-written set collapses two distinct samples to a count of 1, while the corrected set keeps 2. |
| RenderSetup.SelectMode | ofxsTransform3x3.cpp:217-317 | No source image gives the dummy mode. Shutter sampling needs directional blur off and both the shutter and the motion blur nonzero. Directional blur is used whenever it is on. Otherwise there is a single sample. |
| RenderSetup.SampleStage | ofxsTransform3x3.cpp:217-317 | The slot arrays have length 1000 when sampling and 1 otherwise. Only the directional set can have count 0, and exactly when every blur call fails. The shutter set's count is 1 or 1000, and 1 exactly when all its slots are equal. |
| RenderSetup.Weights | ofxsTransform3x3.cpp:283-294 | Outside directional blur there are no weights. With directional blur there is one weight per amount slot: 1 without fading, the fading law of the amount otherwise. |
| RenderSetup.ComposeSource | ofxsTransform3x3.cpp:321-344 | Without a source transform, or with a singular one, the transforms are unchanged. Slots past the count are never touched. |
| RenderSetup.ComposedMapsPoints | ofxsTransform3x3.cpp:336-342 | Each used slot, once composed, maps a point through the sample's transform and then the inverse of the source transform. |
| RenderSetup.RenderSetupOf | ofxsTransform3x3.cpp:188-374 | The count stays within the arrays. A count of 1 disables motion blur. Masking is on exactly for a masked instance with a connected, applied mask, and mask inversion only with masking. |
| RenderSetup.SetupEmptyOnlyWhenBlurFails | ofxsTransform3x3.cpp:278-282 | The render setup has count 0 exactly when there is a source, directional blur is on, and every blur call fails. |
| RenderSetup.SelectKernel | ofxsTransform3x3.cpp:774-847 | Draft quality renders with the impulse filter and no clamping. Otherwise the filter parameter is used (cubic without one). The clamped variant is used exactly when clamping is on and the filter has such a variant: Keys, Simon, Rifman or Mitchell. |
| RenderSetup.HostTransform | ofxsTransform3x3.cpp:997-1047 | A transform is advertised exactly when the instance is unmasked, the hook succeeds and its matrix is invertible. It is then the inverse taken to pixel space. |
| Geometry.ApplyMul | ofxsTransform3x3.cpp:315 | A matrix product applied to a point is the two matrices applied in turn. |

## Left out

- Pixel processing (the processors, filters, black-outside and masking of
  pixels), image fetching, and the bit-depth and component checks at
  ofxsTransform3x3.cpp:232-239. They are I/O on images and host state.
- The plugin constructor, parameter definitions, `describe`,
  `changedParam`, the render entry and the bit-depth dispatch. They only
  wire parameters and the host.
- `shutterRange`, `ofxsFilterExpandRoD`, `ofxsFilterExpandRoI`,
  `toPixelEnclosing`, `rectIntersection`, the canonical↔pixel matrices and
  `ofxsMatDeterminant`/`ofxsMatInverse`. They are defined in other files of
  the support library, which are not part of this model. They enter as
  parameters; the determinant and adjugate inverse are written out in
  `Geometry`.
- Geometry.Inverse: the model does not prove that the adjugate inverse
  multiplied by the matrix gives the identity. The nonlinear real
  arithmetic was out of reach.
- RenderSetup.Weights: the fading law `pow(1 - |amount| / amountTo, fading)`
  enters as the function parameter `fade`. Floating-point `pow` is not
  modelled.
- RenderSetup.SampleStage: uses the corrected directional-blur set
  (`SampleSets.InverseTransformsBlur`), not the loop as written, whose
  all-equal test is wrong (see Findings). The two differ only when some
  blur call fails (`SampleSets.AsWrittenAgreesWhenAllSucceed`), and both
  have count 0 exactly when every call fails (`SampleSets.AsWrittenSetSize`).
- RenderSetup.RenderSetupOf: builds on `RenderSetup.SampleStage`, so it
  also uses the corrected directional-blur set.
- Regions.RegionsOfInterest: reads a missing mix as 1. The source crashes
  there when masking is on; only `Regions.RegionsOfInterestAsWritten`
  models that (see Findings).
- Identity.IsIdentity: reads a missing mask-invert flag as false. The source
  crashes there when masking is on; only `Identity.IsIdentityAsWritten`
  models that (see Findings).
- Rects.Union: `rectBoundingBox` is not part of this model. It is taken as
  the componentwise min of the lower sides and max of the upper sides, with
  no special case for an empty rectangle.
- Rects.IsInfinite: `rectIsInfinite` is not part of this model. It is taken
  as true when any side is at or beyond its sentinel.
- RenderSetup.SampleStage: the contents of slots that the directional blur
  set does not write are whatever the caller's resized vector held. They
  enter as the `initial` parameter.
- Params.DoMasking: the render and region actions read an optional
  "apply mask" switch. The modelled file never fetches one, so it is kept
  as an optional value.
- IEEE double rounding and the `size_t`/`int` widths. Times, amounts and
  coordinates are mathematical reals, and the sample counts are small
  naturals.
- The derived effect's own `isIdentity(time)` and `getInverseTransformCanonical`.
  They are abstract in the base and enter as parameters.

## Findings

| source | as written | input that shows it | evidently intended | confidence | as-written member | corrected member |
|---|---|---|---|---|---|---|
| ofxsTransform3x3.cpp:1136-1144 | After packing a successful sample into slot `invtransformsize - 1`, the all-equal test compares slot `i` (the loop index) with slot 0. Once a call has failed, `i` runs ahead of the packed count, so the test reads an unwritten slot. | Three blur samples, with the hook failing at amount 2/3, giving the identity at 1/3 and a translation by (1, 0) at 0, and the slots initially holding the identity. The packed transforms are the identity and the translation, but the result has count 1. | Compare the slot just written (`invtransformsize - 1`) with slot 0, so two distinct packed samples keep a count of 2. | not executed | SampleSets.AsWrittenCollapsesDistinctSamples | SampleSets.InverseTransformsBlur |
| ofxsTransform3x3.cpp:681-683 | When masking is on, the region of interest reads the mix parameter without checking that the instance fetched it. The mix is fetched only with the generic parameters (ofxsTransform3x3.cpp:117, 140-144). | A masked instance without an invert parameter, with a source clip and a connected mask. | Guard the read as the region of definition does at ofxsTransform3x3.cpp:596, leaving the mix at 1. | not executed | Regions.RoIAsWrittenCrashesWithoutMix | Regions.RegionsOfInterest |
| ofxsTransform3x3.cpp:978-981 | When masking is on, the identity test reads the mask-invert parameter without checking that the instance fetched it. | A masked instance without an invert parameter, with a connected mask, a nonzero amount, clamping off and the effect not an identity by itself. | Read the flag as false when absent, as the render does at ofxsTransform3x3.cpp:351-353. | not executed | Identity.IdentityAsWrittenCrashesWithoutMaskInvert | Identity.IsIdentity |
