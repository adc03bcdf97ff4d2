/**
 * The YIN fundamental-frequency estimator of `PitchDetector`: steps 2 to 5 of
 * de Cheveigné and Kawahara, "YIN, a fundamental frequency estimator for speech
 * and music" (JASA 2002, section II). Samples and profile values are reals; the
 * configuration (threshold 0.15, buffer size 2048, hence a 1024-entry profile)
 * is fixed, so it is given as constants and the sample rate as a parameter.
 */
module PitchDetector {

  /** Confidence threshold of the absolute-threshold step. */
  const Threshold: real := 0.15
  /** Configured window size; the profile has half as many entries. */
  const BufferSize: nat := 2048
  const HalfLength: nat := BufferSize / 2
  /** Smallest lag the threshold search considers. */
  const MinTau: nat := 16

  /** A JavaScript number as far as this code can produce one: a real or NaN. */
  datatype JsNumber = Num(value: real) | NaN

  // ---------------------------------------------------------------------------
  // Step 2: the squared-difference profile

  /** The sum over i < n of (x[i] - x[i + tau])^2. */
  function SquaredDifferenceSum(x: seq<real>, tau: nat, n: nat): real
    requires tau + n <= |x|
  {
    if n == 0 then 0.0
    else SquaredDifferenceSum(x, tau, n - 1) + (x[n - 1] - x[n - 1 + tau]) * (x[n - 1] - x[n - 1 + tau])
  }

  /** The difference profile of a window: entry tau is the squared difference at lag tau over `half` samples. */
  function DifferenceProfile(x: seq<real>, half: nat): (d: seq<real>)
    requires 2 * half <= |x| + 1
    ensures |d| == half
  {
    seq(half, tau requires 0 <= tau < half => SquaredDifferenceSum(x, tau, half))
  }

  lemma {:induction false} SquaredDifferenceSumNonNegative(x: seq<real>, tau: nat, n: nat)
    requires tau + n <= |x|
    ensures SquaredDifferenceSum(x, tau, n) >= 0.0
  {
    if n > 0 {
      SquaredDifferenceSumNonNegative(x, tau, n - 1);
    }
  }

  lemma {:induction false} SquaredDifferenceSumAtZeroLag(x: seq<real>, n: nat)
    requires n <= |x|
    ensures SquaredDifferenceSum(x, 0, n) == 0.0
  {
    if n > 0 {
      SquaredDifferenceSumAtZeroLag(x, n - 1);
    }
  }

  /** A window whose samples in the compared range are all equal has zero difference at every lag. */
  lemma {:induction false} SquaredDifferenceSumOfConstant(x: seq<real>, tau: nat, n: nat, c: real)
    requires tau + n <= |x|
    requires forall i :: 0 <= i < |x| ==> x[i] == c
    ensures SquaredDifferenceSum(x, tau, n) == 0.0
  {
    if n > 0 {
      SquaredDifferenceSumOfConstant(x, tau, n - 1, c);
    }
  }

  /** Every entry of the difference profile is non-negative, and entry 0 is exactly 0. */
  lemma DifferenceProfileShape(x: seq<real>, half: nat)
    requires 2 * half <= |x| + 1
    ensures forall tau :: 0 <= tau < half ==> DifferenceProfile(x, half)[tau] >= 0.0
    ensures half > 0 ==> DifferenceProfile(x, half)[0] == 0.0
  {
    forall tau | 0 <= tau < half
      ensures DifferenceProfile(x, half)[tau] >= 0.0
    {
      SquaredDifferenceSumNonNegative(x, tau, half);
    }
    if half > 0 {
      SquaredDifferenceSumAtZeroLag(x, half);
    }
  }

  /**
   * `difference`: fills `yinBuffer` with the difference profile of `buffer`.
   * It reads samples up to index 2 * yinBuffer.Length - 2.
   */
  method Difference(buffer: array<real>, yinBuffer: array<real>)
    requires buffer != yinBuffer
    requires 2 * yinBuffer.Length <= buffer.Length + 1
    modifies yinBuffer
    ensures yinBuffer[..] == DifferenceProfile(buffer[..], yinBuffer.Length)
  {
    var halfLength := yinBuffer.Length;
    ghost var x := buffer[..];
    for tau := 0 to halfLength
      invariant forall t :: 0 <= t < tau ==> yinBuffer[t] == SquaredDifferenceSum(x, t, halfLength)
    {
      yinBuffer[tau] := 0.0;
      for i := 0 to halfLength
        invariant yinBuffer[tau] == SquaredDifferenceSum(x, tau, i)
        invariant forall t :: 0 <= t < tau ==> yinBuffer[t] == SquaredDifferenceSum(x, t, halfLength)
      {
        var delta := buffer[i] - buffer[i + tau];
        yinBuffer[tau] := yinBuffer[tau] + delta * delta;
      }
    }
  }

  // ---------------------------------------------------------------------------
  // Step 3: cumulative-mean normalisation

  /** The running sum d[1] + ... + d[tau]. */
  function RunningSum(d: seq<real>, tau: nat): real
    requires tau < |d|
  {
    if tau == 0 then 0.0 else RunningSum(d, tau - 1) + d[tau]
  }

  /**
   * Entry tau of the normalised profile: 1 at lag 0, otherwise d[tau] times
   * tau / RunningSum(d, tau). Where the running sum is still 0 the source
   * computes 0 * (tau / 0), which is NaN; the model writes 1 there instead
   * (see README: every later comparison treats the two alike).
   */
  function NormalizedAt(d: seq<real>, tau: nat): real
    requires tau < |d|
  {
    if tau == 0 then 1.0
    else if RunningSum(d, tau) == 0.0 then 1.0
    else d[tau] * (tau as real / RunningSum(d, tau))
  }

  function CumulativeMeanNormalized(d: seq<real>): (r: seq<real>)
    ensures |r| == |d|
  {
    seq(|d|, tau requires 0 <= tau < |d| => NormalizedAt(d, tau))
  }

  lemma {:induction false} RunningSumNonNegative(d: seq<real>, tau: nat)
    requires tau < |d|
    requires forall t :: 1 <= t < |d| ==> d[t] >= 0.0
    ensures RunningSum(d, tau) >= 0.0
    ensures forall t :: 1 <= t <= tau ==> d[t] <= RunningSum(d, tau)
  {
    if tau > 0 {
      RunningSumNonNegative(d, tau - 1);
    }
  }

  /**
   * The defining property of the normalisation: entry 0 is 1 and, for tau >= 1,
   * the new value times d[1] + ... + d[tau] is tau * d[tau]; the values are
   * non-negative.
   */
  lemma CumulativeMeanNormalizedProperty(d: seq<real>, tau: nat)
    requires tau < |d|
    requires forall t :: 1 <= t < |d| ==> d[t] >= 0.0
    ensures tau == 0 ==> CumulativeMeanNormalized(d)[tau] == 1.0
    ensures tau >= 1 ==> CumulativeMeanNormalized(d)[tau] * RunningSum(d, tau) == tau as real * d[tau]
    ensures CumulativeMeanNormalized(d)[tau] >= 0.0
  {
    RunningSumNonNegative(d, tau);
    if tau >= 1 && RunningSum(d, tau) != 0.0 {
      var s := RunningSum(d, tau);
      assert CumulativeMeanNormalized(d)[tau] == d[tau] * (tau as real / s);
      assert d[tau] * (tau as real / s) * s == tau as real * d[tau];
    }
  }

  /** Scaling the raw profile by a positive factor (a louder signal) leaves the normalised profile unchanged. */
  lemma CumulativeMeanNormalizedScaleInvariant(d: seq<real>, c: real)
    requires c > 0.0
    ensures CumulativeMeanNormalized(seq(|d|, i requires 0 <= i < |d| => c * d[i])) == CumulativeMeanNormalized(d)
  {
    var e := seq(|d|, i requires 0 <= i < |d| => c * d[i]);
    forall tau | 0 <= tau < |d|
      ensures NormalizedAt(e, tau) == NormalizedAt(d, tau)
    {
      RunningSumScaled(d, e, c, tau);
      if tau >= 1 && RunningSum(d, tau) != 0.0 {
        var s := RunningSum(d, tau);
        assert c * d[tau] * (tau as real / (c * s)) == d[tau] * (tau as real / s);
      }
    }
  }

  lemma {:induction false} RunningSumScaled(d: seq<real>, e: seq<real>, c: real, tau: nat)
    requires |e| == |d| && tau < |d|
    requires forall i :: 0 <= i < |d| ==> e[i] == c * d[i]
    ensures RunningSum(e, tau) == c * RunningSum(d, tau)
  {
    if tau > 0 {
      RunningSumScaled(d, e, c, tau - 1);
    }
  }

  /** `cumulativeMeanNormalizedDifference`: normalises the raw profile in place, with a running sum. */
  method CumulativeMeanNormalizedDifference(yinBuffer: array<real>)
    requires forall t :: 1 <= t < yinBuffer.Length ==> yinBuffer[t] >= 0.0
    modifies yinBuffer
    ensures yinBuffer[..] == CumulativeMeanNormalized(old(yinBuffer[..]))
  {
    ghost var d := yinBuffer[..];
    if yinBuffer.Length == 0 {
      return;
    }
    yinBuffer[0] := 1.0;
    var runningSum := 0.0;
    for tau := 1 to yinBuffer.Length
      invariant runningSum == RunningSum(d, tau - 1)
      invariant forall t :: 0 <= t < tau ==> yinBuffer[t] == NormalizedAt(d, t)
      invariant forall t :: tau <= t < yinBuffer.Length ==> yinBuffer[t] == d[t]
    {
      runningSum := runningSum + yinBuffer[tau];
      if runningSum == 0.0 {
        yinBuffer[tau] := 1.0;
      } else {
        yinBuffer[tau] := yinBuffer[tau] * (tau as real / runningSum);
      }
    }
  }

  // ---------------------------------------------------------------------------
  // Step 4: the absolute-threshold search

  /** tau lies in the searched range [MinTau, |p| - 2], holds its smallest value, and no earlier lag does. */
  ghost predicate IsFirstGlobalMinimum(p: seq<real>, tau: int) {
    MinTau <= tau < |p| - 1
    && (forall t :: MinTau <= t < |p| - 1 ==> p[tau] <= p[t])
    && (forall t :: MinTau <= t < tau ==> p[tau] < p[t])
  }

  /** No lag in the searched range has a value below the threshold. */
  ghost predicate NoLagBelowThreshold(p: seq<real>) {
    forall t :: MinTau <= t < |p| - 1 ==> p[t] >= Threshold
  }

  lemma FirstGlobalMinimumUnique(p: seq<real>, t1: int, t2: int)
    requires IsFirstGlobalMinimum(p, t1) && IsFirstGlobalMinimum(p, t2)
    ensures t1 == t2
  {
    assert p[t1] <= p[t2] && p[t2] <= p[t1];
  }

  /**
   * The backward walk: moves left from `minPos` while the value to the left is
   * strictly smaller, never below MinTau. The result is the left end of the
   * strictly rising run that ends at `minPos`.
   */
  method WalkBack(yinBuffer: array<real>, minPos: int) returns (startPoint: int)
    requires MinTau <= minPos < yinBuffer.Length
    ensures MinTau <= startPoint <= minPos
    ensures yinBuffer[startPoint] <= yinBuffer[minPos]
    ensures forall k :: startPoint <= k < minPos ==> yinBuffer[k] < yinBuffer[k + 1]
    ensures startPoint == MinTau || yinBuffer[startPoint - 1] >= yinBuffer[startPoint]
  {
    startPoint := minPos;
    while startPoint > MinTau && yinBuffer[startPoint - 1] < yinBuffer[startPoint]
      invariant MinTau <= startPoint <= minPos
      invariant yinBuffer[startPoint] <= yinBuffer[minPos]
      invariant forall k :: startPoint <= k < minPos ==> yinBuffer[k] < yinBuffer[k + 1]
      decreases startPoint
    {
      startPoint := startPoint - 1;
    }
  }

  /**
   * The forward scan: the first lag in [from, to] whose value is below the
   * threshold, or `to` when there is none (the source's fallback).
   */
  method ScanForward(yinBuffer: array<real>, from: int, to: int) returns (tau: int)
    requires 0 <= from <= to < yinBuffer.Length
    ensures from <= tau <= to
    ensures forall k :: from <= k < tau ==> yinBuffer[k] >= Threshold
    ensures yinBuffer[tau] < Threshold || tau == to
    ensures (exists k :: from <= k <= to && yinBuffer[k] < Threshold) ==> yinBuffer[tau] < Threshold
  {
    tau := from;
    while tau <= to
      invariant from <= tau <= to + 1
      invariant forall k :: from <= k < tau ==> yinBuffer[k] >= Threshold
    {
      if yinBuffer[tau] < Threshold {
        return;
      }
      tau := tau + 1;
    }
    tau := to;
  }

  /**
   * `absoluteThreshold`: -1 exactly when no searched lag is below the threshold;
   * otherwise the first position of the global minimum over [MinTau, length - 2],
   * whose value is below the threshold. The backward walk cannot move, because
   * every earlier value is strictly larger than the minimum, so the forward scan
   * returns at its first step and the fallback `return minTauPosition` is never
   * taken.
   */
  method AbsoluteThreshold(yinBuffer: array<real>) returns (tau: int)
    ensures tau == -1 <==> NoLagBelowThreshold(yinBuffer[..])
    ensures tau != -1 ==> IsFirstGlobalMinimum(yinBuffer[..], tau) && yinBuffer[tau] < Threshold
  {
    var maxTau := yinBuffer.Length - 1;
    var minValue := 1.0;
    var minTauPosition := -1;
    var t := MinTau;
    while t < maxTau
      invariant MinTau <= t && (t <= maxTau || t == MinTau)
      invariant forall k :: MinTau <= k < t ==> yinBuffer[k] >= minValue
      invariant minTauPosition == -1 ==> minValue == 1.0
      invariant minTauPosition != -1 ==>
        MinTau <= minTauPosition < t && minValue == yinBuffer[minTauPosition]
        && forall k :: MinTau <= k < minTauPosition ==> yinBuffer[k] > minValue
    {
      if yinBuffer[t] < minValue {
        minValue := yinBuffer[t];
        minTauPosition := t;
      }
      t := t + 1;
    }
    if minValue < Threshold {
      var startPoint := WalkBack(yinBuffer, minTauPosition);
      assert startPoint == minTauPosition;
      tau := ScanForward(yinBuffer, startPoint, minTauPosition);
      return;
    }
    tau := -1;
  }

  // ---------------------------------------------------------------------------
  // Step 5: parabolic refinement

  function Abs(x: real): real {
    if x < 0.0 then -x else x
  }

  /**
   * The vertex offset of the parabola through (-1, s0), (0, s1), (1, s2): the
   * slope of that parabola, (s2 - s0) / 2 + (s0 - 2 s1 + s2) * delta, is zero at delta.
   */
  ghost predicate IsVertexOffset(s0: real, s1: real, s2: real, delta: real) {
    (s2 - s0) / 2.0 + (s0 - 2.0 * s1 + s2) * delta == 0.0
  }

  /**
   * `parabolicInterpolation`. At the array borders, or when the adjustment's
   * magnitude exceeds 1, the lag comes back unchanged. A zero denominator gives
   * +-Infinity (caught by the magnitude test) or, when the three values are
   * equal, NaN, which passes that test and makes the result NaN.
   */
  function ParabolicInterpolation(p: seq<real>, tau: int): (r: JsNumber)
    ensures tau < 1 || tau >= |p| - 1 ==> r == Num(tau as real)
    ensures r.NaN? <==> 1 <= tau < |p| - 1 && p[tau - 1] == p[tau] == p[tau + 1]
    ensures r.Num? ==> tau as real - 1.0 <= r.value <= tau as real + 1.0
    ensures 1 <= tau < |p| - 1 && r.Num? && r.value != tau as real ==>
      IsVertexOffset(p[tau - 1], p[tau], p[tau + 1], r.value - tau as real)
    ensures 1 <= tau < |p| - 1 && p[tau - 1] - 2.0 * p[tau] + p[tau + 1] == 0.0 && p[tau - 1] != p[tau + 1] ==>
      r == Num(tau as real)
  {
    if tau < 1 then Num(tau as real)
    else if tau >= |p| - 1 then Num(tau as real)
    else
      var s0, s1, s2 := p[tau - 1], p[tau], p[tau + 1];
      var numerator, denominator := s2 - s0, 2.0 * (2.0 * s1 - s2 - s0);
      if denominator == 0.0 then
        if numerator == 0.0 then NaN else Num(tau as real)
      else
        var adjustment := numerator / denominator;
        if Abs(adjustment) > 1.0 then Num(tau as real)
        else
          assert denominator * adjustment == numerator;
          Num(tau as real + adjustment)
  }

  /**
   * Where the three points bend (their second difference is not zero) the
   * parabola has one vertex: the lag moves to it when it lies within 1, and
   * stays put otherwise.
   */
  lemma ParabolicInterpolationRefines(p: seq<real>, tau: int, delta: real)
    requires 1 <= tau < |p| - 1
    requires p[tau - 1] - 2.0 * p[tau] + p[tau + 1] != 0.0
    requires IsVertexOffset(p[tau - 1], p[tau], p[tau + 1], delta)
    ensures Abs(delta) <= 1.0 ==> ParabolicInterpolation(p, tau) == Num(tau as real + delta)
    ensures Abs(delta) > 1.0 ==> ParabolicInterpolation(p, tau) == Num(tau as real)
  {
    var s0, s1, s2 := p[tau - 1], p[tau], p[tau + 1];
    var numerator, denominator := s2 - s0, 2.0 * (2.0 * s1 - s2 - s0);
    var adjustment := numerator / denominator;
    assert denominator * adjustment == numerator;
    assert denominator * delta == numerator;
    assert denominator * (delta - adjustment) == 0.0;
    assert delta == adjustment;
  }

  /** `getProbability`: 0 for the sentinel -1, otherwise one minus the profile value. */
  function GetProbability(p: seq<real>, tau: int): (r: real)
    requires tau == -1 || 0 <= tau < |p|
    ensures tau == -1 ==> r == 0.0
    ensures tau != -1 ==> r + p[tau] == 1.0
  {
    if tau == -1 then 0.0 else 1.0 - p[tau]
  }

  /** Any lag the threshold search returns has probability above 1 - Threshold. */
  lemma CandidateProbability(p: seq<real>, tau: int)
    requires IsFirstGlobalMinimum(p, tau) && p[tau] < Threshold
    ensures GetProbability(p, tau) > 1.0 - Threshold
  {
  }

  // ---------------------------------------------------------------------------
  // The facade

  /** The normalised profile `getPitch` computes from a window. */
  function YinProfile(x: seq<real>): (p: seq<real>)
    requires 2 * HalfLength <= |x| + 1
    ensures |p| == HalfLength
  {
    CumulativeMeanNormalized(DifferenceProfile(x, HalfLength))
  }

  /** The frequency for a refined lag: NaN stays NaN. */
  function Frequency(sampleRate: real, betterTau: JsNumber): (r: JsNumber)
    requires betterTau.Num? ==> betterTau.value != 0.0
    ensures r.NaN? <==> betterTau.NaN?
    ensures r.Num? ==> r.value * betterTau.value == sampleRate
  {
    match betterTau
    case NaN => NaN
    case Num(b) => Num(sampleRate / b)
  }

  lemma ProductNonNegative(a: real, b: real)
    requires a >= 0.0 && b >= 0.0
    ensures a * b >= 0.0
  {
  }

  lemma FrequencyBounds(sampleRate: real, b: real)
    requires sampleRate > 0.0 && 15.0 <= b <= 1023.0
    ensures sampleRate / 1023.0 <= sampleRate / b <= sampleRate / 15.0
  {
    var f := sampleRate / b;
    assert f * b == sampleRate && f > 0.0;
    ProductNonNegative(f, b - 15.0);
    ProductNonNegative(f, 1023.0 - b);
    assert f * 15.0 <= sampleRate <= f * 1023.0;
    assert f <= sampleRate / 15.0;
    assert sampleRate / 1023.0 <= f;
  }

  /**
   * `getPitch`: -1 exactly when the threshold search finds nothing; otherwise
   * the sample rate divided by the refined first global minimum, which lies in
   * [sampleRate / 1023, sampleRate / 15] unless the refinement produced NaN.
   */
  method GetPitch(buffer: array<real>, sampleRate: real) returns (pitch: JsNumber)
    requires sampleRate > 0.0
    requires 2 * HalfLength <= buffer.Length + 1
    ensures pitch == Num(-1.0) <==> NoLagBelowThreshold(YinProfile(buffer[..]))
    ensures pitch != Num(-1.0) ==> exists tau ::
      IsFirstGlobalMinimum(YinProfile(buffer[..]), tau) && YinProfile(buffer[..])[tau] < Threshold
      && pitch == Frequency(sampleRate, ParabolicInterpolation(YinProfile(buffer[..]), tau))
    ensures pitch.Num? && pitch != Num(-1.0) ==> sampleRate / 1023.0 <= pitch.value <= sampleRate / 15.0
  {
    var yinBuffer := new real[HalfLength];
    Difference(buffer, yinBuffer);
    DifferenceProfileShape(buffer[..], HalfLength);
    CumulativeMeanNormalizedDifference(yinBuffer);
    assert yinBuffer[..] == YinProfile(buffer[..]);
    var tauEstimate := AbsoluteThreshold(yinBuffer);
    if tauEstimate == -1 {
      return Num(-1.0);
    }
    var betterTau := ParabolicInterpolation(yinBuffer[..], tauEstimate);
    pitch := Frequency(sampleRate, betterTau);
    if betterTau.Num? {
      FrequencyBounds(sampleRate, betterTau.value);
    }
  }

  /** A silent or constant window has no lag below the threshold, so `getPitch` returns -1 for it. */
  lemma ConstantWindowHasNoPitch(x: seq<real>, c: real)
    requires 2 * HalfLength <= |x| + 1
    requires forall i :: 0 <= i < |x| ==> x[i] == c
    ensures NoLagBelowThreshold(YinProfile(x))
  {
    var d := DifferenceProfile(x, HalfLength);
    forall tau | 0 <= tau < HalfLength
      ensures d[tau] == 0.0
    {
      SquaredDifferenceSumOfConstant(x, tau, HalfLength, c);
    }
    forall tau | 0 <= tau < HalfLength
      ensures RunningSum(d, tau) == 0.0
    {
      RunningSumOfZeros(d, tau);
    }
  }

  lemma {:induction false} RunningSumOfZeros(d: seq<real>, tau: nat)
    requires tau < |d|
    requires forall t :: 0 <= t < |d| ==> d[t] == 0.0
    ensures RunningSum(d, tau) == 0.0
  {
    if tau > 0 {
      RunningSumOfZeros(d, tau - 1);
    }
  }
}
