/** The part of IEEE-754 single precision that the synth graph and the volume
    validation can observe.

    A sample is an exact real number or NaN: rounding is not modelled, and no
    graph operation produces an infinity from finite gains unless it overflows,
    which is not modelled either. The input to volume validation keeps the
    sign bit and the class of the float, so that -0.0, the infinities and NaN
    can be told apart. */
module Float {

  /** One audio sample. */
  datatype Sample = Num(value: real) | NaN

  type NonNegReal = r: real | r >= 0.0

  /** An arbitrary `f32`: every class carries its sign bit. */
  datatype F32 =
    | Finite(signNegative: bool, magnitude: NonNegReal)
    | Infinite(signNegative: bool)
    | NotANumber(signNegative: bool)

  /** `f32::is_sign_negative`: the sign bit, for every class, NaN included. */
  predicate IsSignNegative(v: F32) {
    v.signNegative
  }

  /** `f32::is_finite`: neither infinite nor NaN. */
  predicate IsFinite(v: F32) {
    v.Finite?
  }

  /** The number a finite float denotes (both zeros denote 0). */
  function ToReal(v: F32): (r: real)
    requires IsFinite(v)
    ensures r >= 0.0 <==> !v.signNegative || v.magnitude == 0.0
  {
    var m: real := v.magnitude;
    if v.signNegative then -m else m
  }

  /** Float addition: NaN absorbs. */
  function Add(a: Sample, b: Sample): Sample {
    if a.Num? && b.Num? then Num(a.value + b.value) else NaN
  }

  /** Multiplication by a finite factor: NaN absorbs. */
  function Scale(a: Sample, w: real): Sample {
    if a.Num? then Num(a.value * w) else NaN
  }

  /** Division by the conversion `n as f32` of a count. A zero count is only
      ever met with a sum of 0.0 (an empty fold), and 0.0 / 0.0 is NaN. */
  function DivByCount(sum: Sample, n: nat): Sample {
    if n == 0 || sum.NaN? then NaN else Num(sum.value / n as real)
  }

  /** `f32::clamp(self, min, max)`: it panics unless `min <= max`, moves a
      number below `min` up to `min` and one above `max` down to `max`, and
      passes NaN through because every comparison with NaN is false. */
  function Clamp(s: Sample, lo: real, hi: real): (r: Sample)
    requires lo <= hi
    ensures r.NaN? <==> s.NaN?
    ensures s.Num? ==> lo <= r.value <= hi
    ensures s.Num? && lo <= s.value <= hi ==> r == s
    ensures s.Num? && s.value < lo ==> r == Num(lo)
    ensures s.Num? && s.value > hi ==> r == Num(hi)
  {
    match s
    case NaN => NaN
    case Num(x) =>
      var raised := if x < lo then lo else x;
      Num(if raised > hi then hi else raised)
  }

  lemma AddAssociative(a: Sample, b: Sample, c: Sample)
    ensures Add(Add(a, b), c) == Add(a, Add(b, c))
  {
  }

  lemma DivZeroByCount(n: nat)
    ensures DivByCount(Num(0.0), n) == if n == 0 then NaN else Num(0.0)
  {
    if n > 0 {
      var d := n as real;
      assert 0.0 / d == 0.0;
    }
  }

  lemma ScaleZero(w: real)
    ensures Scale(Num(0.0), w) == Num(0.0)
  {
  }

  lemma DivByOne(s: Sample)
    ensures DivByCount(s, 1) == s
  {
  }

  lemma AddZero(a: Sample)
    ensures Add(a, Num(0.0)) == a && Add(Num(0.0), a) == a
  {
  }
}
