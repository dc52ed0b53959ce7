/** `calculate_absorption`: the mean intensity of the three channels at each
    position for a reference and a sample profile, zero intensities replaced
    by a small positive constant, and the absorption -log10(I_sample / I_reference).
    Arithmetic is over exact reals; `log10` is a parameter standing for the
    floating-point library routine. */
module Absorption {

  /** The value that replaces an intensity of exactly zero. */
  const Epsilon: real := 0.000001

  /** The mean of three channel values. */
  function Mean3(r: int, g: int, b: int): (m: real)
    ensures 3.0 * m == r as real + g as real + b as real
  {
    (r as real + g as real + b as real) / 3.0
  }

  /** The per-position mean of three channels over the positions of `r`; the
      other two channels only need to be at least as long. */
  function Intensities(r: seq<int>, g: seq<int>, b: seq<int>): (s: seq<real>)
    requires |g| >= |r| && |b| >= |r|
    ensures |s| == |r|
  {
    seq(|r|, i requires 0 <= i < |r| => Mean3(r[i], g[i], b[i]))
  }

  /** `np.where(s == 0, 0.000001, s)`. */
  function AvoidZero(s: seq<real>): (t: seq<real>)
    ensures |t| == |s|
    ensures forall i :: 0 <= i < |s| ==> t[i] != 0.0
    ensures forall i :: 0 <= i < |s| && s[i] != 0.0 ==> t[i] == s[i]
  {
    seq(|s|, i requires 0 <= i < |s| => if s[i] == 0.0 then Epsilon else s[i])
  }

  /** `-log10(sample / reference)` position by position. */
  function AbsorptionOf(sample: seq<real>, reference: seq<real>, log10: real -> real): (a: seq<real>)
    requires |sample| == |reference|
    requires forall i :: 0 <= i < |reference| ==> reference[i] != 0.0
    ensures |a| == |reference|
  {
    seq(|reference|, i requires 0 <= i < |reference| => -log10(sample[i] / reference[i]))
  }

  /** What `calculate_absorption` needs of its inputs to finish: the loop runs
      over the positions of `ref_r`, reads every other channel there, and the
      final division is element by element, so both red profiles have the same
      length and no channel is shorter. */
  predicate ChannelsFit(refR: seq<int>, refG: seq<int>, refB: seq<int>,
                        sampleR: seq<int>, sampleG: seq<int>, sampleB: seq<int>)
  {
    |sampleR| == |refR| &&
    |refG| >= |refR| && |refB| >= |refR| && |sampleG| >= |refR| && |sampleB| >= |refR|
  }

  /** `calculate_absorption`: fills two preallocated arrays with the mean
      intensities, substitutes zeros, and forms the absorption. */
  method CalculateAbsorption(refR: seq<int>, refG: seq<int>, refB: seq<int>,
                             sampleR: seq<int>, sampleG: seq<int>, sampleB: seq<int>,
                             log10: real -> real)
    returns (absorption: seq<real>, iReference: seq<real>, iSample: seq<real>)
    requires ChannelsFit(refR, refG, refB, sampleR, sampleG, sampleB)
    ensures iReference == AvoidZero(Intensities(refR, refG, refB))
    ensures iSample == AvoidZero(Intensities(sampleR, sampleG, sampleB))
    ensures absorption == AbsorptionOf(iSample, iReference, log10)
  {
    var n := |refR|;
    var refIntensity := new real[n](_ => 0.0);
    var sampleIntensity := new real[|sampleR|](_ => 0.0);
    for i := 0 to n
      invariant refIntensity[..i] == Intensities(refR, refG, refB)[..i]
      invariant sampleIntensity[..i] == Intensities(sampleR, sampleG, sampleB)[..i]
    {
      refIntensity[i] := Mean3(refR[i], refG[i], refB[i]);
      sampleIntensity[i] := Mean3(sampleR[i], sampleG[i], sampleB[i]);
    }
    assert refIntensity[..] == refIntensity[..n];
    assert sampleIntensity[..] == sampleIntensity[..n];
    iReference := AvoidZero(refIntensity[..]);
    iSample := AvoidZero(sampleIntensity[..]);
    absorption := AbsorptionOf(iSample, iReference, log10);
  }

  /** With non-negative channels every substituted intensity is strictly
      positive: the ratio and the logarithm never see zero or a negative. */
  lemma IntensitiesPositive(r: seq<int>, g: seq<int>, b: seq<int>)
    requires |g| >= |r| && |b| >= |r|
    requires forall i :: 0 <= i < |r| ==> r[i] >= 0 && g[i] >= 0 && b[i] >= 0
    ensures forall i :: 0 <= i < |r| ==> AvoidZero(Intensities(r, g, b))[i] > 0.0
  {
    var s := Intensities(r, g, b);
    forall i | 0 <= i < |r| ensures AvoidZero(s)[i] > 0.0 {
      assert s[i] == Mean3(r[i], g[i], b[i]) >= 0.0;
    }
  }

  /** Exactly the zero intensities are replaced, and by `Epsilon`. */
  lemma AvoidZeroReplacesZeros(s: seq<real>)
    ensures forall i :: 0 <= i < |s| ==> (AvoidZero(s)[i] == Epsilon <==> s[i] == 0.0 || s[i] == Epsilon)
    ensures forall i :: 0 <= i < |s| && s[i] == 0.0 ==> AvoidZero(s)[i] == Epsilon
  {
  }

  /** When the logarithm of 1 is 0, identical reference and sample channels
      give an absorption of zero at every position. */
  lemma IdenticalChannelsNoAbsorption(r: seq<int>, g: seq<int>, b: seq<int>, log10: real -> real)
    requires |g| >= |r| && |b| >= |r|
    requires log10(1.0) == 0.0
    ensures var i := AvoidZero(Intensities(r, g, b));
      forall k :: 0 <= k < |r| ==> AbsorptionOf(i, i, log10)[k] == 0.0
  {
    var s := AvoidZero(Intensities(r, g, b));
    forall k | 0 <= k < |r| ensures AbsorptionOf(s, s, log10)[k] == 0.0 {
      assert s[k] != 0.0;
      assert s[k] / s[k] == 1.0;
    }
  }

  /** Three equal-length channels that all hold the value `v` at every position. */
  predicate Uniform(r: seq<int>, g: seq<int>, b: seq<int>, v: int)
  {
    |g| == |r| && |b| == |r| &&
    forall i :: 0 <= i < |r| ==> r[i] == v && g[i] == v && b[i] == v
  }

  /** A uniformly grey reference of level `refLevel` and sample of level `sampleLevel`
      give the constant absorption -log10(sampleLevel / refLevel); for 200 and 100 that
      is -log10(0.5), about 0.301. */
  lemma UniformAbsorption(refR: seq<int>, refG: seq<int>, refB: seq<int>, refLevel: int,
                          sampleR: seq<int>, sampleG: seq<int>, sampleB: seq<int>, sampleLevel: int,
                          log10: real -> real)
    requires Uniform(refR, refG, refB, refLevel) && Uniform(sampleR, sampleG, sampleB, sampleLevel)
    requires |sampleR| == |refR| && refLevel > 0 && sampleLevel > 0
    ensures var a := AbsorptionOf(AvoidZero(Intensities(sampleR, sampleG, sampleB)),
                                  AvoidZero(Intensities(refR, refG, refB)), log10);
      forall k :: 0 <= k < |a| ==> a[k] == -log10(sampleLevel as real / refLevel as real)
  {
    var ir := AvoidZero(Intensities(refR, refG, refB));
    var iSam := AvoidZero(Intensities(sampleR, sampleG, sampleB));
    forall k | 0 <= k < |refR|
      ensures AbsorptionOf(iSam, ir, log10)[k] == -log10(sampleLevel as real / refLevel as real)
    {
      assert Intensities(refR, refG, refB)[k] == refLevel as real;
      assert Intensities(sampleR, sampleG, sampleB)[k] == sampleLevel as real;
    }
  }
}
