/** The synth graph: validated gains, the three node kinds and their sample
    functions. Sampling takes `&mut self` in the program but never writes a
    field, so every `sample` is a function of the node. */
module Synth {
  import opened Float

  // ---------------------------------------------------------------------
  // VolumeControl

  /** A gain that validation has accepted: finite and not negative. */
  datatype VolumeControl = VolumeControl(gain: NonNegReal) {
    /** `VolumeControl::value`: the wrapped gain. */
    function Value(): (r: real)
      ensures r == gain
      ensures r >= 0.0
    {
      gain
    }
  }

  datatype SynthError = NegativeVolume(rejected: F32)

  datatype Result<T> = Ok(value: T) | Err(error: SynthError)

  /** `VolumeControl::default`: unity gain. */
  function DefaultVolume(): (v: VolumeControl)
    ensures v.Value() == 1.0
  {
    VolumeControl(1.0)
  }

  /** `VolumeControl::try_from`: reject a set sign bit or a non-finite value,
      carrying the input in the error; otherwise wrap the number. */
  function TryFrom(v: F32): (r: Result<VolumeControl>)
    ensures r.Ok? <==> IsFinite(v) && !IsSignNegative(v)
    ensures r.Ok? ==> r.value.Value() == ToReal(v)
    ensures r.Err? ==> r.error == NegativeVolume(v)
  {
    if IsSignNegative(v) || !IsFinite(v) then Err(NegativeVolume(v))
    else Ok(VolumeControl(v.magnitude))
  }

  /** Validation accepts exactly the finite floats that denote a number
      `>= 0`, except -0.0, whose sign bit is set. */
  lemma TryFromAcceptsExactlyNonNegative(v: F32)
    ensures TryFrom(v).Ok? <==> IsFinite(v) && ToReal(v) >= 0.0 && v != Finite(true, 0.0)
  {
  }

  /** The rejected inputs on their own: -0.0, both infinities, and NaN of
      either sign. +0.0 is accepted. */
  lemma TryFromEdgeCases()
    ensures TryFrom(Finite(true, 0.0)) == Err(NegativeVolume(Finite(true, 0.0)))
    ensures TryFrom(Finite(false, 0.0)) == Ok(VolumeControl(0.0))
    ensures forall s: bool :: TryFrom(Infinite(s)) == Err(NegativeVolume(Infinite(s)))
    ensures forall s: bool :: TryFrom(NotANumber(s)) == Err(NegativeVolume(NotANumber(s)))
  {
  }

  /** Every volume comes back unchanged from the float that denotes it, and
      an accepted float is exactly the positive-signed float of its value. */
  lemma TryFromRoundTrip(vc: VolumeControl, v: F32)
    ensures TryFrom(Finite(false, vc.Value())) == Ok(vc)
    ensures TryFrom(v) == Ok(vc) ==> v == Finite(false, vc.Value())
  {
  }

  /** The default is a volume that validation would also produce. */
  lemma DefaultVolumeIsValid()
    ensures TryFrom(Finite(false, 1.0)) == Ok(DefaultVolume())
  {
  }

  // ---------------------------------------------------------------------
  // Graph nodes

  /** `Box<T>`: one level of owned indirection. */
  datatype Box<T> = Box(contents: T)

  /** `Clip<T>`: one child, clamped to `[-max_vol, max_vol]`. */
  datatype Clip<T> = Clip(inner: T, maxVol: VolumeControl)

  /** `Mixer`: ordered children, each with its weight. */
  datatype Mixer = Mixer(subSynths: seq<(SynthType, VolumeControl)>)

  /** The unit struct `Silence`. */
  datatype Silence = Silence

  /** The closed set of node kinds. */
  datatype SynthType =
    | SynthClip(clip: Clip<Box<SynthType>>)
    | SynthMixer(mixer: Mixer)
    | SynthSilence

  /** The derived `Default` of `Clip<T>`: the inner node's default and a
      unity gain. */
  function DefaultClip<T>(innerDefault: T): (c: Clip<T>)
    ensures c.inner == innerDefault
    ensures c.maxVol == DefaultVolume()
  {
    Clip(innerDefault, DefaultVolume())
  }

  /** The derived `Default` of `Mixer`: no children. */
  function DefaultMixer(): (m: Mixer)
    ensures |m.subSynths| == 0
  {
    Mixer([])
  }

  // ---------------------------------------------------------------------
  // Sampling

  /** `Clip::sample` once the inner sample is drawn. Validation makes
      `-max_vol <= max_vol`, so the clamp never panics. */
  function ClipOutput(inner: Sample, maxVol: VolumeControl): (r: Sample)
    ensures r.NaN? <==> inner.NaN?
    ensures inner.Num? ==> -maxVol.Value() <= r.value <= maxVol.Value()
    ensures inner.Num? && -maxVol.Value() <= inner.value <= maxVol.Value() ==> r == inner
  {
    Clamp(inner, -maxVol.Value(), maxVol.Value())
  }

  /** `Silence::sample`: the constant zero. */
  function SampleSilence(s: Silence): (r: Sample)
    ensures r.Num? && r.value == 0.0
  {
    Num(0.0)
  }

  /** `SynthType::sample`: dispatch on the tag. */
  function SampleSynth(t: SynthType): (r: Sample)
    ensures t.SynthSilence? ==> r == Num(0.0)
    ensures t.SynthClip? && r.Num? ==> -t.clip.maxVol.Value() <= r.value <= t.clip.maxVol.Value()
    ensures t.SynthMixer? && |t.mixer.subSynths| == 0 ==> r.NaN?
    decreases t, 0
  {
    match t
    case SynthClip(c) => SampleClip(c)
    case SynthMixer(m) => SampleMixer(m)
    case SynthSilence => SampleSilence(Silence)
  }

  /** `Clip<Box<SynthType>>::sample`. */
  function SampleClip(c: Clip<Box<SynthType>>): (r: Sample)
    ensures r.NaN? <==> SampleBox(c.inner).NaN?
    ensures r.Num? ==> -c.maxVol.Value() <= r.value <= c.maxVol.Value()
    decreases c, 0
  {
    ClipOutput(SampleBox(c.inner), c.maxVol)
  }

  /** `Box<SynthType>::sample`: sample the boxed node. */
  function SampleBox(b: Box<SynthType>): (r: Sample)
    ensures r == SampleSynth(b.contents)
    decreases b, 0
  {
    SampleSynth(b.contents)
  }

  /** `Mixer::sample`: fold the weighted children from 0.0, then divide by
      the number of children. */
  function SampleMixer(m: Mixer): (r: Sample)
    ensures |m.subSynths| == 0 ==> r.NaN?
    decreases m, |m.subSynths| + 1
  {
    DivByCount(FoldWeighted(m, 0, Num(0.0)), |m.subSynths|)
  }

  /** The child at `k`, sampled and multiplied by its weight. */
  function Term(m: Mixer, k: nat): (r: Sample)
    requires k < |m.subSynths|
    ensures r.NaN? <==> SampleSynth(m.subSynths[k].0).NaN?
    decreases m, 0
  {
    Scale(SampleSynth(m.subSynths[k].0), m.subSynths[k].1.Value())
  }

  /** The left fold that adds each child's sample times its weight to the
      accumulator, over the children from index `k` on. Once NaN, it stays
      NaN. */
  function FoldWeighted(m: Mixer, k: nat, acc: Sample): (r: Sample)
    requires k <= |m.subSynths|
    ensures k == |m.subSynths| ==> r == acc
    ensures acc.NaN? ==> r.NaN?
    decreases m, |m.subSynths| - k
  {
    if k == |m.subSynths| then acc
    else FoldWeighted(m, k + 1, Add(acc, Term(m, k)))
  }

  /** `Clip<Mixer>::sample`, the master limiter around the root mixer. */
  function SampleMaster(root: Clip<Mixer>): (r: Sample)
    ensures r.NaN? <==> SampleMixer(root.inner).NaN?
    ensures r.Num? ==> -root.maxVol.Value() <= r.value <= root.maxVol.Value()
  {
    ClipOutput(SampleMixer(root.inner), root.maxVol)
  }

  // ---------------------------------------------------------------------
  // Reference definitions and lemmas

  /** Reference sum of the weighted children from index `k` on, defined
      independently of the fold (right to left). */
  function WeightedSum(m: Mixer, k: nat): Sample
    requires k <= |m.subSynths|
    decreases |m.subSynths| - k
  {
    if k == |m.subSynths| then Num(0.0)
    else Add(Term(m, k), WeightedSum(m, k + 1))
  }

  /** The left fold from any accumulator is that accumulator plus the sum of
      the remaining weighted children. */
  lemma {:induction false} FoldIsSum(m: Mixer, k: nat, acc: Sample)
    requires k <= |m.subSynths|
    ensures FoldWeighted(m, k, acc) == Add(acc, WeightedSum(m, k))
    decreases |m.subSynths| - k
  {
    if k == |m.subSynths| {
      AddZero(acc);
    } else {
      FoldIsSum(m, k + 1, Add(acc, Term(m, k)));
      AddAssociative(acc, Term(m, k), WeightedSum(m, k + 1));
    }
  }

  /** The reference sum is NaN exactly when some remaining child samples to
      NaN. */
  lemma {:induction false} WeightedSumNaN(m: Mixer, k: nat)
    requires k <= |m.subSynths|
    ensures WeightedSum(m, k).NaN? <==>
            exists j :: k <= j < |m.subSynths| && SampleSynth(m.subSynths[j].0).NaN?
    decreases |m.subSynths| - k
  {
    if k < |m.subSynths| {
      WeightedSumNaN(m, k + 1);
      if SampleSynth(m.subSynths[k].0).NaN? {
        assert Term(m, k).NaN?;
      }
    }
  }

  /** `Mixer::sample` is the weighted sum divided by the number of children,
      not by the sum of the weights; with no children it is 0.0 / 0, NaN. */
  lemma MixerIsMeanOfWeightedChildren(m: Mixer)
    ensures |m.subSynths| == 0 ==> SampleMixer(m) == NaN
    ensures |m.subSynths| > 0 ==> SampleMixer(m) == DivByCount(WeightedSum(m, 0), |m.subSynths|)
  {
    FoldIsSum(m, 0, Num(0.0));
    AddZero(WeightedSum(m, 0));
  }

  /** `Mixer::sample` is NaN exactly when there are no children or some
      child samples to NaN. */
  lemma MixerNaN(m: Mixer)
    ensures SampleMixer(m).NaN? <==>
            |m.subSynths| == 0 ||
            exists j :: 0 <= j < |m.subSynths| && SampleSynth(m.subSynths[j].0).NaN?
  {
    FoldIsSum(m, 0, Num(0.0));
    AddZero(WeightedSum(m, 0));
    WeightedSumNaN(m, 0);
  }

  /** A Mixer with one child yields that child's sample times its weight. */
  lemma MixerOfOne(child: SynthType, w: VolumeControl)
    ensures SampleMixer(Mixer([(child, w)])) == Scale(SampleSynth(child), w.Value())
  {
    var m := Mixer([(child, w)]);
    assert m.subSynths[0] == (child, w);
    MixerIsMeanOfWeightedChildren(m);
    assert WeightedSum(m, 1) == Num(0.0);
    AddZero(Term(m, 0));
    DivByOne(Term(m, 0));
  }

  /** Dispatch and the Box forward to the wrapped node unchanged: a Clip node
      clamps the very sample of its boxed child, and a Mixer node is its
      Mixer. */
  lemma DispatchForwards(t: SynthType, v: VolumeControl, m: Mixer)
    ensures SampleSynth(SynthClip(Clip(Box(t), v))) == ClipOutput(SampleSynth(t), v)
    ensures SampleSynth(SynthMixer(m)) == SampleMixer(m)
    ensures SampleSynth(SynthSilence) == SampleSilence(Silence) == Num(0.0)
  {
    assert SampleClip(Clip(Box(t), v)) == ClipOutput(SampleBox(Box(t)), v);
  }

  /** Silence stays 0.0 through any Clip. */
  lemma ClippedSilence(v: VolumeControl)
    ensures SampleClip(Clip(Box(SynthSilence), v)) == Num(0.0)
  {
  }

  /** Some Mixer somewhere in the tree has no children. */
  predicate HasEmptyMixer(t: SynthType)
    decreases t, 0
  {
    match t
    case SynthClip(c) => HasEmptyMixer(c.inner.contents)
    case SynthMixer(m) => |m.subSynths| == 0 || ChildHasEmptyMixer(m, 0)
    case SynthSilence => false
  }

  /** Some child of `m` at index `k` or later has an empty Mixer in it. */
  predicate ChildHasEmptyMixer(m: Mixer, k: nat)
    requires k <= |m.subSynths|
    decreases m, |m.subSynths| - k
  {
    k < |m.subSynths| && (HasEmptyMixer(m.subSynths[k].0) || ChildHasEmptyMixer(m, k + 1))
  }

  /** No node produces a signal: every tree samples to 0.0, or to NaN exactly
      when one of its Mixers is empty. */
  lemma {:induction false} SynthSampleIsZeroOrNaN(t: SynthType)
    ensures SampleSynth(t) == if HasEmptyMixer(t) then NaN else Num(0.0)
    decreases t, 1
  {
    match t
    case SynthClip(c) => ClipZeroOrNaN(c);
    case SynthMixer(m) => MixerZeroOrNaN(m);
    case SynthSilence =>
  }

  /** The Clip case: the clamp keeps 0.0 and NaN. */
  lemma {:induction false} ClipZeroOrNaN(c: Clip<Box<SynthType>>)
    ensures SampleClip(c) == if HasEmptyMixer(c.inner.contents) then NaN else Num(0.0)
    decreases c, 0
  {
    SynthSampleIsZeroOrNaN(c.inner.contents);
    assert SampleBox(c.inner) == SampleSynth(c.inner.contents);
  }

  /** The Mixer case: the weighted sum of 0.0s and NaNs, divided by the
      count. */
  lemma {:induction false} MixerZeroOrNaN(m: Mixer)
    ensures SampleMixer(m) == if HasEmptyMixer(SynthMixer(m)) then NaN else Num(0.0)
    decreases m, 0
  {
    var k := 0;
    while k < |m.subSynths|
      invariant 0 <= k <= |m.subSynths|
      invariant forall j :: 0 <= j < k ==> ZeroOrNaN(m.subSynths[j].0)
    {
      assert m.subSynths[k] in m.subSynths;
      SynthSampleIsZeroOrNaN(m.subSynths[k].0);
      k := k + 1;
    }
    WeightedSumZeroOrNaN(m, 0);
    MixerFromWeightedSum(m);
  }

  /** Children that each sample to 0.0 or NaN as above have a weighted sum
      of 0.0, or NaN exactly when one of them has an empty Mixer. */
  lemma {:induction false} WeightedSumZeroOrNaN(m: Mixer, k: nat)
    requires k <= |m.subSynths|
    requires forall j :: 0 <= j < |m.subSynths| ==> ZeroOrNaN(m.subSynths[j].0)
    ensures WeightedSum(m, k) == if ChildHasEmptyMixer(m, k) then NaN else Num(0.0)
    decreases |m.subSynths| - k
  {
    if k < |m.subSynths| {
      WeightedSumZeroOrNaN(m, k + 1);
      WeightedSumStep(m, k);
    }
  }

  /** One step of the sum above: a child of 0.0 or NaN keeps the sum in
      that set. */
  lemma WeightedSumStep(m: Mixer, k: nat)
    requires k < |m.subSynths|
    requires ZeroOrNaN(m.subSynths[k].0)
    requires WeightedSum(m, k + 1) == if ChildHasEmptyMixer(m, k + 1) then NaN else Num(0.0)
    ensures WeightedSum(m, k) == if ChildHasEmptyMixer(m, k) then NaN else Num(0.0)
  {
    ScaleZero(m.subSynths[k].1.Value());
    assert Term(m, k) == if HasEmptyMixer(m.subSynths[k].0) then NaN else Num(0.0);
  }

  /** The statement of `SynthSampleIsZeroOrNaN` for one node. */
  predicate ZeroOrNaN(t: SynthType) {
    SampleSynth(t) == if HasEmptyMixer(t) then NaN else Num(0.0)
  }

  /** From a weighted sum of 0.0 or NaN to the mixer's sample. */
  lemma MixerFromWeightedSum(m: Mixer)
    requires WeightedSum(m, 0) == if ChildHasEmptyMixer(m, 0) then NaN else Num(0.0)
    ensures SampleMixer(m) == if HasEmptyMixer(SynthMixer(m)) then NaN else Num(0.0)
  {
    MixerIsMeanOfWeightedChildren(m);
    DivZeroByCount(|m.subSynths|);
  }

  /** The master Clip around a Mixer samples to NaN exactly when that Mixer,
      or a Mixer below it, is empty, and to 0.0 otherwise. */
  lemma MasterSampleIsZeroOrNaN(root: Clip<Mixer>)
    ensures SampleMaster(root) == if HasEmptyMixer(SynthMixer(root.inner)) then NaN else Num(0.0)
  {
    SynthSampleIsZeroOrNaN(SynthMixer(root.inner));
  }

  /** The default root, a unity Clip around an empty Mixer, yields NaN and
      not a defined 0.0. */
  lemma DefaultMasterIsNaN()
    ensures DefaultClip(DefaultMixer()) == Clip(Mixer([]), VolumeControl(1.0))
    ensures SampleMaster(DefaultClip(DefaultMixer())) == NaN
  {
  }
}
