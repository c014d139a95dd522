/**
 * The sample sets the renderer resamples with: the pixel-space inverse
 * transforms over the shutter (getInverseTransforms) and over the blur
 * amount (getInverseTransformsBlur), with the collapse to a single
 * transform when every sample is the same.
 */
module SampleSets {
  import opened Wrappers
  import opened Geometry
  import opened Rects
  import opened TransformRegion

  /** kTransform3x3MotionBlurCount: the number of slots allocated for a blurred render. */
  const MotionBlurCount: nat := 1000

  /**
   * The canonical-to-pixel and pixel-to-canonical matrices of the render
   * (ofxsMatCanonicalToPixel / ofxsMatPixelToCanonical for the render
   * scale, pixel aspect ratio and field), supplied by the caller.
   */
  datatype PixelFrame = PixelFrame(toPixel: Matrix3x3, toCanonical: Matrix3x3)

  /** A canonical transform conjugated into pixel space: canonicalToPixel * m * pixelToCanonical. */
  function ToPixel(f: PixelFrame, m: Matrix3x3): Matrix3x3 {
    Mul(Mul(f.toPixel, m), f.toCanonical)
  }

  /** Conjugation into pixel space maps a pixel to canonical space, applies `m`, and maps back. */
  lemma ToPixelApply(f: PixelFrame, m: Matrix3x3, p: Point3D)
    ensures Apply(ToPixel(f, m), p) == Apply(f.toPixel, Apply(m, Apply(f.toCanonical, p)))
  {
    ApplyMul(Mul(f.toPixel, m), f.toCanonical, p);
    ApplyMul(f.toPixel, m, Apply(f.toCanonical, p));
  }

  /** Every matrix of `s` equals the first one. */
  predicate AllSame(s: seq<Matrix3x3>) {
    forall k :: 0 <= k < |s| ==> s[k] == s[0]
  }

  /**
   * A sample set: the slot arrays (transforms and, for the blur set, blend
   * amounts) and how many leading slots the renderer is to use.
   */
  datatype SampleSet = SampleSet(mats: seq<Matrix3x3>, amounts: seq<real>, size: nat)

  // ---------------------------------------------------------------------
  // Shutter samples (getInverseTransforms)
  // ---------------------------------------------------------------------

  /** The i-th of n sample times over the shutter window: its start, then i steps of (end - start) / (n - 1). */
  function ShutterTime(w: Range, n: nat, i: nat): real
    requires i < n
  {
    if i == 0 then w.min else w.min + ((i as real) * (w.max - w.min)) / ((n - 1) as real)
  }

  /** The sample times run from the start of the window to its end. */
  lemma ShutterTimeEnds(w: Range, n: nat)
    requires n >= 2
    ensures ShutterTime(w, n, 0) == w.min && ShutterTime(w, n, n - 1) == w.max
  {
    var d := (n - 1) as real;
    assert (d * (w.max - w.min)) / d == w.max - w.min;
  }

  /** The pixel-space inverse transform at shutter time `t`, or the no-op matrix when the hook has none. */
  function ShutterSample(hook: Hook, invert: bool, frame: PixelFrame, t: real): (m: Matrix3x3)
    ensures hook(t, 1.0, invert).None? ==> m == NoOp
    ensures hook(t, 1.0, invert).Some? ==> m == ToPixel(frame, hook(t, 1.0, invert).value)
  {
    match hook(t, 1.0, invert)
    case Some(c) => ToPixel(frame, c)
    case None => NoOp
  }

  /**
   * The loop of getInverseTransforms from slot `i` on: each slot gets the
   * sample at its time, and `allEqual` tracks whether every slot so far
   * equals slot 0.
   */
  function ShutterLoop(hook: Hook, invert: bool, frame: PixelFrame, w: Range, n: nat,
                       i: nat, mats: seq<Matrix3x3>, allEqual: bool): (r: (seq<Matrix3x3>, bool))
    requires i <= n && |mats| == i
    requires forall k :: 0 <= k < i ==> mats[k] == ShutterSample(hook, invert, frame, ShutterTime(w, n, k))
    requires allEqual <==> AllSame(mats)
    decreases n - i
    ensures |r.0| == n
    ensures forall k :: 0 <= k < n ==> r.0[k] == ShutterSample(hook, invert, frame, ShutterTime(w, n, k))
    ensures r.1 <==> AllSame(r.0)
  {
    if i == n then (mats, allEqual)
    else
      var mats' := mats + [ShutterSample(hook, invert, frame, ShutterTime(w, n, i))];
      AllSameAppend(mats, mats'[i]);
      ShutterLoop(hook, invert, frame, w, n, i + 1, mats', allEqual && mats'[i] == mats'[0])
  }

  /**
   * getInverseTransforms with `n` slots: slot i holds the pixel-space
   * inverse transform at the i-th shutter time (the no-op matrix where the
   * hook fails), and the size is 1 exactly when every slot equals the
   * first, `n` otherwise.
   */
  function InverseTransforms(hook: Hook, invert: bool, frame: PixelFrame, w: Range, n: nat): (r: SampleSet)
    ensures |r.mats| == n && r.amounts == []
    ensures forall i :: 0 <= i < n ==> r.mats[i] == ShutterSample(hook, invert, frame, ShutterTime(w, n, i))
    ensures r.size == 1 <==> AllSame(r.mats)
    ensures !AllSame(r.mats) ==> r.size == n
  {
    var (mats, allEqual) := ShutterLoop(hook, invert, frame, w, n, 0, [], true);
    SampleSet(mats, [], if allEqual then 1 else n)
  }

  /** The shutter set has one transform or all of them. */
  lemma InverseTransformsSize(hook: Hook, invert: bool, frame: PixelFrame, w: Range, n: nat)
    requires n >= 1
    ensures var r := InverseTransforms(hook, invert, frame, w, n);
            (r.size == 1 || r.size == n) && 1 <= r.size <= n
  {
  }

  /** A hook that is constant over the shutter gives a single transform. */
  lemma ConstantShutterCollapses(hook: Hook, invert: bool, frame: PixelFrame, w: Range, n: nat)
    requires forall i :: 0 <= i < n ==> hook(ShutterTime(w, n, i), 1.0, invert) == hook(w.min, 1.0, invert)
    ensures InverseTransforms(hook, invert, frame, w, n).size == 1
  {
    var r := InverseTransforms(hook, invert, frame, w, n);
    forall k | 0 <= k < n
      ensures r.mats[k] == r.mats[0]
    {
      assert ShutterTime(w, n, 0) == w.min;
    }
  }

  // ---------------------------------------------------------------------
  // Directional-blur samples (getInverseTransformsBlur)
  // ---------------------------------------------------------------------

  /** The blend amount of slot i: amountFrom + (amountTo - amountFrom) * (1 - (i + 1) / n). */
  function BlurAmount(amountFrom: real, amountTo: real, n: nat, i: nat): real
    requires i < n
  {
    amountFrom + (amountTo - amountFrom) * (1.0 - ((i + 1) as real) / (n as real))
  }

  /** The last slot is asked about `amountFrom` itself. */
  lemma BlurAmountLast(amountFrom: real, amountTo: real, n: nat)
    requires n >= 1
    ensures BlurAmount(amountFrom, amountTo, n, n - 1) == amountFrom
  {
    assert (n as real) / (n as real) == 1.0;
  }

  /** The hook evaluated at slot i of the blur sweep. */
  function BlurCall(hook: Hook, invert: bool, time: real, amountFrom: real, amountTo: real,
                    n: nat, i: nat): Option<Matrix3x3>
    requires i < n
  {
    hook(time, BlurAmount(amountFrom, amountTo, n, i), invert)
  }

  /** The slots among the first `i` at which the hook succeeds, in increasing order. */
  function Successes(hook: Hook, invert: bool, time: real, amountFrom: real, amountTo: real,
                     n: nat, i: nat): (js: seq<nat>)
    requires i <= n
    ensures |js| <= i
    ensures forall k :: 0 <= k < |js| ==> js[k] < i && BlurCall(hook, invert, time, amountFrom, amountTo, n, js[k]).Some?
    ensures forall k, l :: 0 <= k < l < |js| ==> js[k] < js[l]
    ensures forall j :: 0 <= j < i && BlurCall(hook, invert, time, amountFrom, amountTo, n, j).Some? ==> j in js
  {
    if i == 0 then []
    else
      var prev := Successes(hook, invert, time, amountFrom, amountTo, n, i - 1);
      if BlurCall(hook, invert, time, amountFrom, amountTo, n, i - 1).Some? then prev + [i - 1] else prev
  }

  /**
   * The arrays of getInverseTransformsBlur while its loop runs: the
   * transform and amount slots (the first `size` written, the rest as
   * allocated), how many are written, and the collapse flag.
   */
  datatype BlurArrays = BlurArrays(mats: seq<Matrix3x3>, amounts: seq<real>, size: nat, allEqual: bool)

  /**
   * One pass of the loop at slot i: on success the transform and amount go
   * into slot `size`, and slot `cmp` is compared with slot 0 to update
   * the collapse flag; on failure nothing changes.
   */
  function BlurVisit(hook: Hook, invert: bool, frame: PixelFrame, time: real, amountFrom: real, amountTo: real,
                     n: nat, i: nat, st: BlurArrays, cmp: nat): (r: BlurArrays)
    requires i < n && |st.mats| == n && |st.amounts| == n && st.size <= i && cmp < n
    ensures |r.mats| == n && |r.amounts| == n
    ensures BlurCall(hook, invert, time, amountFrom, amountTo, n, i).None? ==> r == st
    ensures BlurCall(hook, invert, time, amountFrom, amountTo, n, i).Some? ==>
              && r.size == st.size + 1
              && r.mats == st.mats[st.size := ToPixel(frame, BlurCall(hook, invert, time, amountFrom, amountTo, n, i).value)]
              && r.amounts == st.amounts[st.size := BlurAmount(amountFrom, amountTo, n, i)]
              && (r.allEqual <==> st.allEqual && r.mats[cmp] == r.mats[0])
  {
    match BlurCall(hook, invert, time, amountFrom, amountTo, n, i)
    case None => st
    case Some(c) =>
      var mats := st.mats[st.size := ToPixel(frame, c)];
      BlurArrays(mats, st.amounts[st.size := BlurAmount(amountFrom, amountTo, n, i)],
                 st.size + 1, st.allEqual && mats[cmp] == mats[0])
  }

  /** The first `size` slots hold, in order, the transforms and amounts of the slots listed in `js`. */
  ghost predicate Filled(hook: Hook, invert: bool, frame: PixelFrame, time: real, amountFrom: real, amountTo: real,
                         n: nat, js: seq<nat>, st: BlurArrays)
  {
    && |st.mats| == n && |st.amounts| == n
    && st.size == |js| <= n
    && (forall k :: 0 <= k < |js| ==>
          js[k] < n
          && BlurCall(hook, invert, time, amountFrom, amountTo, n, js[k]).Some?
          && st.mats[k] == ToPixel(frame, BlurCall(hook, invert, time, amountFrom, amountTo, n, js[k]).value)
          && st.amounts[k] == BlurAmount(amountFrom, amountTo, n, js[k]))
  }

  /** The loop state matches the successes among the first `i` slots. */
  ghost predicate BlurInv(hook: Hook, invert: bool, frame: PixelFrame, time: real, amountFrom: real, amountTo: real,
                          n: nat, i: nat, st: BlurArrays)
    requires i <= n
  {
    && Filled(hook, invert, frame, time, amountFrom, amountTo, n, Successes(hook, invert, time, amountFrom, amountTo, n, i), st)
    && (st.allEqual <==> AllSame(st.mats[..st.size]))
  }

  /** Writing a successful slot's transform and amount into the next free slot extends the filled prefix. */
  lemma FilledSnoc(hook: Hook, invert: bool, frame: PixelFrame, time: real, amountFrom: real, amountTo: real,
                   n: nat, js: seq<nat>, st: BlurArrays, i: nat, js': seq<nat>, r: BlurArrays)
    requires Filled(hook, invert, frame, time, amountFrom, amountTo, n, js, st)
    requires i < n && st.size < n && BlurCall(hook, invert, time, amountFrom, amountTo, n, i).Some?
    requires js' == js + [i]
    requires r.mats == st.mats[st.size := ToPixel(frame, BlurCall(hook, invert, time, amountFrom, amountTo, n, i).value)]
    requires r.amounts == st.amounts[st.size := BlurAmount(amountFrom, amountTo, n, i)]
    requires r.size == st.size + 1
    ensures Filled(hook, invert, frame, time, amountFrom, amountTo, n, js', r)
  {
    forall k | 0 <= k < |js'|
      ensures js'[k] < n && BlurCall(hook, invert, time, amountFrom, amountTo, n, js'[k]).Some?
    {
      if k < |js| {
        assert js'[k] == js[k];
      }
    }
  }

  /** Appending `m` keeps every element equal to the first exactly when `m` equals the new first. */
  lemma AllSameAppend(s: seq<Matrix3x3>, m: Matrix3x3)
    ensures var t := s + [m];
            AllSame(t) <==> AllSame(s) && t[|s|] == t[0]
  {
    var t := s + [m];
    if AllSame(t) && |s| > 0 {
      forall k | 0 <= k < |s|
        ensures s[k] == s[0]
      {
        assert t[k] == s[k];
      }
    }
    if AllSame(s) && t[|s|] == t[0] {
      forall k | 0 <= k < |t|
        ensures t[k] == t[0]
      {
        if k < |s| {
          assert t[k] == s[k];
        }
      }
    }
  }

  /** Writing slot `size` and comparing it with slot 0 keeps the collapse flag exact. */
  lemma AllSameSnoc(s: seq<Matrix3x3>, size: nat, m: Matrix3x3)
    requires size < |s|
    ensures var s' := s[size := m];
            AllSame(s'[..size + 1]) <==> AllSame(s[..size]) && s'[size] == s'[0]
  {
    var s' := s[size := m];
    assert s'[..size + 1] == s[..size] + [m];
    AllSameAppend(s[..size], m);
  }

  /**
   * The loop of getInverseTransformsBlur from slot `i` on. After writing
   * slot `size`, the source compares slot i, the loop counter, with slot 0
   * (`asWritten`); the intended test compares the slot just written.
   */
  function BlurLoop(hook: Hook, invert: bool, frame: PixelFrame, time: real, amountFrom: real, amountTo: real,
                    n: nat, asWritten: bool, i: nat, st: BlurArrays): (r: BlurArrays)
    requires i <= n && |st.mats| == n && |st.amounts| == n && st.size <= i
    decreases n - i
    ensures |r.mats| == n && |r.amounts| == n && r.size <= n
  {
    if i == n then st
    else
      var cmp := if asWritten then i else st.size;
      BlurLoop(hook, invert, frame, time, amountFrom, amountTo, n, asWritten, i + 1,
               BlurVisit(hook, invert, frame, time, amountFrom, amountTo, n, i, st, cmp))
  }

  /** One pass of the intended loop. */
  lemma BlurLoopUnfold(hook: Hook, invert: bool, frame: PixelFrame, time: real, amountFrom: real, amountTo: real,
                       n: nat, i: nat, st: BlurArrays)
    requires i < n && |st.mats| == n && |st.amounts| == n && st.size <= i
    ensures BlurLoop(hook, invert, frame, time, amountFrom, amountTo, n, false, i, st)
            == BlurLoop(hook, invert, frame, time, amountFrom, amountTo, n, false, i + 1,
                        BlurVisit(hook, invert, frame, time, amountFrom, amountTo, n, i, st, st.size))
  {
  }

  /** The invariant names its slot count and state only by value. */
  lemma BlurInvAt(hook: Hook, invert: bool, frame: PixelFrame, time: real, amountFrom: real, amountTo: real,
                  n: nat, i: nat, st: BlurArrays, j: nat, r: BlurArrays)
    requires i <= n && BlurInv(hook, invert, frame, time, amountFrom, amountTo, n, i, st)
    requires j == i && r == st
    ensures BlurInv(hook, invert, frame, time, amountFrom, amountTo, n, j, r)
  {
  }

  /** The intended loop keeps its state in step with the successes to the end: its result `r` matches them all. */
  lemma {:induction false} BlurLoopInv(hook: Hook, invert: bool, frame: PixelFrame, time: real,
                                       amountFrom: real, amountTo: real, n: nat, i: nat, st: BlurArrays, r: BlurArrays)
    requires i <= n && BlurInv(hook, invert, frame, time, amountFrom, amountTo, n, i, st)
    requires r == BlurLoop(hook, invert, frame, time, amountFrom, amountTo, n, false, i, st)
    decreases n - i
    ensures BlurInv(hook, invert, frame, time, amountFrom, amountTo, n, n, r)
  {
    if i == n {
      BlurInvAt(hook, invert, frame, time, amountFrom, amountTo, n, i, st, n, r);
    } else {
      var st' := BlurVisit(hook, invert, frame, time, amountFrom, amountTo, n, i, st, st.size);
      BlurStep(hook, invert, frame, time, amountFrom, amountTo, n, i, st);
      BlurLoopUnfold(hook, invert, frame, time, amountFrom, amountTo, n, i, st);
      BlurLoopInv(hook, invert, frame, time, amountFrom, amountTo, n, i + 1, st', r);
    }
  }

  /** One corrected pass keeps the loop state in step with the successes. */
  lemma BlurStep(hook: Hook, invert: bool, frame: PixelFrame, time: real, amountFrom: real, amountTo: real,
                 n: nat, i: nat, st: BlurArrays)
    requires i < n && BlurInv(hook, invert, frame, time, amountFrom, amountTo, n, i, st)
    ensures BlurInv(hook, invert, frame, time, amountFrom, amountTo, n, i + 1,
                    BlurVisit(hook, invert, frame, time, amountFrom, amountTo, n, i, st, st.size))
  {
    var js := Successes(hook, invert, time, amountFrom, amountTo, n, i);
    var js' := Successes(hook, invert, time, amountFrom, amountTo, n, i + 1);
    var call := BlurCall(hook, invert, time, amountFrom, amountTo, n, i);
    var st' := BlurVisit(hook, invert, frame, time, amountFrom, amountTo, n, i, st, st.size);
    if call.Some? {
      assert js' == js + [i];
      FilledSnoc(hook, invert, frame, time, amountFrom, amountTo, n, js, st, i, js', st');
      AllSameSnoc(st.mats, st.size, ToPixel(frame, call.value));
    } else {
      assert js' == js && st' == st;
      assert Filled(hook, invert, frame, time, amountFrom, amountTo, n, js', st');
    }
  }

  /** The size the source reports: 1 when some slot was written and all written slots are equal. */
  function FinalSize(st: BlurArrays): nat {
    if st.size != 0 && st.allEqual then 1 else st.size
  }

  /** The arrays as the caller allocates them: `initial` transforms and zero amounts, nothing written. */
  function BlurStart(n: nat, initial: seq<Matrix3x3>): BlurArrays
    requires |initial| == n
  {
    BlurArrays(initial, seq(n, _ => 0.0), 0, true)
  }

  /**
   * getInverseTransformsBlur with `n` slots allocated with `initial`
   * (collapse test on the slot just written): the first `size` slots hold,
   * in order, the pixel-space transforms and the amounts of the slots whose
   * hook call succeeds; the size is their number, or 1 when they are all equal.
   */
  function InverseTransformsBlur(hook: Hook, invert: bool, frame: PixelFrame, time: real,
                                 amountFrom: real, amountTo: real, n: nat, initial: seq<Matrix3x3>): (r: SampleSet)
    requires |initial| == n
    ensures |r.mats| == n && |r.amounts| == n
    ensures var js := Successes(hook, invert, time, amountFrom, amountTo, n, n);
            && (forall k :: 0 <= k < |js| ==>
                  r.mats[k] == ToPixel(frame, BlurCall(hook, invert, time, amountFrom, amountTo, n, js[k]).value)
                  && r.amounts[k] == BlurAmount(amountFrom, amountTo, n, js[k]))
            && r.size == (if |js| != 0 && AllSame(r.mats[..|js|]) then 1 else |js|)
  {
    var st := BlurLoop(hook, invert, frame, time, amountFrom, amountTo, n, false, 0, BlurStart(n, initial));
    BlurLoopInv(hook, invert, frame, time, amountFrom, amountTo, n, 0, BlurStart(n, initial), st);
    SampleSet(st.mats, st.amounts, FinalSize(st))
  }

  /** The blur set never exceeds its allocation, and is empty exactly when every hook call fails. */
  lemma BlurSetSize(hook: Hook, invert: bool, frame: PixelFrame, time: real,
                    amountFrom: real, amountTo: real, n: nat, initial: seq<Matrix3x3>)
    requires |initial| == n
    ensures var r := InverseTransformsBlur(hook, invert, frame, time, amountFrom, amountTo, n, initial);
            r.size <= n
            && (r.size == 0 <==> forall i :: 0 <= i < n ==> BlurCall(hook, invert, time, amountFrom, amountTo, n, i).None?)
  {
    var js := Successes(hook, invert, time, amountFrom, amountTo, n, n);
    if exists i :: 0 <= i < n && BlurCall(hook, invert, time, amountFrom, amountTo, n, i).Some? {
      var i :| 0 <= i < n && BlurCall(hook, invert, time, amountFrom, amountTo, n, i).Some?;
      assert i in js;
    }
    if |js| > 0 {
      assert BlurCall(hook, invert, time, amountFrom, amountTo, n, js[0]).Some?;
    }
  }

  // ---------------------------------------------------------------------
  // The collapse test as the source writes it
  // ---------------------------------------------------------------------

  /** getInverseTransformsBlur exactly as written. */
  function InverseTransformsBlurAsWritten(hook: Hook, invert: bool, frame: PixelFrame, time: real,
                                          amountFrom: real, amountTo: real, n: nat, initial: seq<Matrix3x3>): (r: SampleSet)
    requires |initial| == n
    ensures |r.mats| == n && |r.amounts| == n && r.size <= n
  {
    var st := BlurLoop(hook, invert, frame, time, amountFrom, amountTo, n, true, 0, BlurStart(n, initial));
    SampleSet(st.mats, st.amounts, FinalSize(st))
  }

  /** While no call has failed, the counter and the slot just written coincide, so both loops agree. */
  lemma {:induction false} AsWrittenAgreesFrom(hook: Hook, invert: bool, frame: PixelFrame, time: real,
                                               amountFrom: real, amountTo: real, n: nat, i: nat, st: BlurArrays)
    requires i <= n && |st.mats| == n && |st.amounts| == n && st.size == i
    requires forall j :: i <= j < n ==> BlurCall(hook, invert, time, amountFrom, amountTo, n, j).Some?
    decreases n - i
    ensures BlurLoop(hook, invert, frame, time, amountFrom, amountTo, n, true, i, st)
            == BlurLoop(hook, invert, frame, time, amountFrom, amountTo, n, false, i, st)
  {
    if i < n {
      AsWrittenAgreesFrom(hook, invert, frame, time, amountFrom, amountTo, n, i + 1,
                          BlurVisit(hook, invert, frame, time, amountFrom, amountTo, n, i, st, i));
    }
  }

  /** Either loop writes nothing exactly when nothing was written before and every remaining call fails. */
  lemma {:induction false} BlurLoopEmpty(hook: Hook, invert: bool, frame: PixelFrame, time: real,
                                         amountFrom: real, amountTo: real, n: nat, asWritten: bool, i: nat, st: BlurArrays)
    requires i <= n && |st.mats| == n && |st.amounts| == n && st.size <= i
    decreases n - i
    ensures BlurLoop(hook, invert, frame, time, amountFrom, amountTo, n, asWritten, i, st).size == 0
            <==> st.size == 0 && forall j :: i <= j < n ==> BlurCall(hook, invert, time, amountFrom, amountTo, n, j).None?
  {
    if i < n {
      var cmp := if asWritten then i else st.size;
      var st' := BlurVisit(hook, invert, frame, time, amountFrom, amountTo, n, i, st, cmp);
      BlurLoopEmpty(hook, invert, frame, time, amountFrom, amountTo, n, asWritten, i + 1, st');
      assert BlurLoop(hook, invert, frame, time, amountFrom, amountTo, n, asWritten, i, st)
          == BlurLoop(hook, invert, frame, time, amountFrom, amountTo, n, asWritten, i + 1, st');
    }
  }

  /**
   * The blur set as written is empty exactly when every hook call fails,
   * as the intended one is: the faulty collapse test never turns a
   * nonzero count into 0.
   */
  lemma AsWrittenSetSize(hook: Hook, invert: bool, frame: PixelFrame, time: real,
                         amountFrom: real, amountTo: real, n: nat, initial: seq<Matrix3x3>)
    requires |initial| == n
    ensures InverseTransformsBlurAsWritten(hook, invert, frame, time, amountFrom, amountTo, n, initial).size == 0
            <==> forall i :: 0 <= i < n ==> BlurCall(hook, invert, time, amountFrom, amountTo, n, i).None?
  {
    BlurLoopEmpty(hook, invert, frame, time, amountFrom, amountTo, n, true, 0, BlurStart(n, initial));
  }

  /** When every hook call succeeds, the source's collapse test is the intended one. */
  lemma AsWrittenAgreesWhenAllSucceed(hook: Hook, invert: bool, frame: PixelFrame, time: real,
                                      amountFrom: real, amountTo: real, n: nat, initial: seq<Matrix3x3>)
    requires |initial| == n
    requires forall j :: 0 <= j < n ==> BlurCall(hook, invert, time, amountFrom, amountTo, n, j).Some?
    ensures InverseTransformsBlurAsWritten(hook, invert, frame, time, amountFrom, amountTo, n, initial)
            == InverseTransformsBlur(hook, invert, frame, time, amountFrom, amountTo, n, initial)
  {
    AsWrittenAgreesFrom(hook, invert, frame, time, amountFrom, amountTo, n, 0, BlurStart(n, initial));
  }

  /**
   * A hook that fails at the first slot (amount 2/3 of three), answers the
   * identity at 1/3 and a unit translation at 0, with slots allocated as
   * identities: as written, slots 1 and 2 are compared while still
   * unwritten, the two different transforms collapse to one and the blur
   * is lost; the intended test keeps both.
   */
  lemma AsWrittenCollapsesDistinctSamples()
    ensures var hook: Hook := (t: real, a: real, inv: bool) =>
              if a == 2.0 / 3.0 then None else if a == 1.0 / 3.0 then Some(Identity) else Some(Translation(1.0, 0.0));
            var frame := PixelFrame(Identity, Identity);
            var initial := [Identity, Identity, Identity];
            && InverseTransformsBlurAsWritten(hook, false, frame, 0.0, 0.0, 1.0, 3, initial).size == 1
            && InverseTransformsBlur(hook, false, frame, 0.0, 0.0, 1.0, 3, initial).size == 2
  {
    var hook: Hook := (t: real, a: real, inv: bool) =>
      if a == 2.0 / 3.0 then None else if a == 1.0 / 3.0 then Some(Identity) else Some(Translation(1.0, 0.0));
    var frame := PixelFrame(Identity, Identity);
    var initial := [Identity, Identity, Identity];
    assert BlurAmount(0.0, 1.0, 3, 0) == 2.0 / 3.0;
    assert BlurAmount(0.0, 1.0, 3, 1) == 1.0 / 3.0;
    assert BlurAmount(0.0, 1.0, 3, 2) == 0.0;
    assert ToPixel(frame, Identity) == Identity;
    assert ToPixel(frame, Translation(1.0, 0.0)) == Translation(1.0, 0.0);
    var s0 := BlurStart(3, initial);
    var s1 := BlurVisit(hook, false, frame, 0.0, 0.0, 1.0, 3, 0, s0, 0);
    assert s1 == s0;
    var s2 := BlurVisit(hook, false, frame, 0.0, 0.0, 1.0, 3, 1, s1, 1);
    assert s2.mats == [Identity, Identity, Identity] && s2.size == 1 && s2.allEqual;
    var s3 := BlurVisit(hook, false, frame, 0.0, 0.0, 1.0, 3, 2, s2, 2);
    assert s3.mats == [Identity, Translation(1.0, 0.0), Identity] && s3.size == 2 && s3.allEqual;
    assert BlurLoop(hook, false, frame, 0.0, 0.0, 1.0, 3, true, 0, s0) == s3;
    var r := InverseTransformsBlur(hook, false, frame, 0.0, 0.0, 1.0, 3, initial);
    var js := Successes(hook, false, 0.0, 0.0, 1.0, 3, 3);
    assert js == [1, 2];
    assert r.mats[1] != r.mats[0];
  }
}
