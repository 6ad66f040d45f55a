/**
  The Yin pitch-detector audio worklet that the app loads
  (src/worklets/pitch-detector.js): a 2048-sample ring buffer filled block by
  block, detection on every fourth block with input, and the Yin steps
  difference, cumulative-mean normalisation, absolute-threshold search with
  descent to a local minimum, parabolic interpolation and a frequency gate.

  Arithmetic is exact over `real`; the Float32 rounding of the typed arrays is
  not modelled. The normalised values are `Num`s, so that the 0 * Infinity of a
  zero running sum (silence) is the NaN it is in JavaScript, and every
  comparison with NaN is false.
 */
module PitchDetector {
  import opened Common
  import opened Signal

  const BufferSize: nat := 2048
  /** `bufferSize / 2`, the length of yinBuffer. */
  const YinSize: nat := 1024
  const Threshold: real := 0.15
  const ProcessEveryNFrames: nat := 4
  const MinFrequency: real := 80.0
  const MaxFrequency: real := 2000.0
  const DefaultSampleRate: real := 44100.0

  /** A Float32Array element after normalisation: a finite value or NaN. */
  datatype Num = Finite(v: real) | NaN

  /** JavaScript `x < y`: false as soon as either side is NaN. */
  predicate Lt(x: Num, y: Num)
  {
    x.Finite? && y.Finite? && x.v < y.v
  }

  predicate Below(x: Num, c: real)
  {
    x.Finite? && x.v < c
  }

  predicate AtLeast(x: Num, c: real)
  {
    x.Finite? && x.v >= c
  }

  /** The object `detectPitch` returns. */
  datatype Pitch = Pitch(frequency: real, confidence: real)

  // ---------------------------------------------------------------- the Yin steps

  /** Step 1: the difference function. Entry 0 is never written and keeps its initial 0. */
  function Differences(b: seq<real>): seq<real>
    requires |b| == BufferSize
  {
    seq(YinSize, tau requires 0 <= tau < YinSize => if tau == 0 then 0.0 else DiffSum(b, tau, YinSize))
  }

  /** The running sum of step 2 after lag k: d[1] + ... + d[k]. */
  function RunningSum(d: seq<real>, k: nat): real
    requires k < |d|
  {
    if k == 0 then 0.0 else RunningSum(d, k - 1) + d[k]
  }

  /** Step 2 at lag tau: d[tau] * (tau / runningSum). A zero running sum makes the factor
      Infinity, and with d[tau] = 0 the product is NaN. */
  function Normalised(d: seq<real>, tau: nat): Num
    requires 1 <= tau < |d|
  {
    var s := RunningSum(d, tau);
    if s == 0.0 then NaN else Finite(d[tau] * (tau as real / s))
  }

  /** Step 2: the cumulative mean normalised difference, with entry 0 set to 1. */
  function Cmnd(d: seq<real>): seq<Num>
    requires |d| >= 1
  {
    seq(|d|, k requires 0 <= k < |d| => if k == 0 then Finite(1.0) else Normalised(d, k))
  }

  /** The inner while loop of step 3: walk right while the next value is smaller. */
  function Descend(yin: seq<Num>, tau: nat): (t: nat)
    requires tau < |yin|
    ensures tau <= t < |yin|
    ensures forall k :: tau <= k < t ==> Lt(yin[k + 1], yin[k])
    ensures t + 1 < |yin| ==> !Lt(yin[t + 1], yin[t])
    decreases |yin| - tau
  {
    if tau + 1 < |yin| && Lt(yin[tau + 1], yin[tau]) then Descend(yin, tau + 1) else tau
  }

  /** The outer while loop of step 3, from lag tau: stop at the first value below the
      threshold and descend from there, or run out at |yin| - 1. */
  function Scan(yin: seq<Num>, tau: nat): (t: nat)
    requires 2 <= tau <= |yin| - 1
    ensures tau <= t < |yin|
    decreases |yin| - tau
  {
    if tau == |yin| - 1 then tau
    else if Below(yin[tau], Threshold) then Descend(yin, tau)
    else Scan(yin, tau + 1)
  }

  /** Step 3 with its null test: the lag the search settles on, if any. */
  function Search(yin: seq<Num>): (r: Option<nat>)
    requires |yin| >= 3
    ensures r.Some? ==> 2 <= r.value < |yin| - 1
  {
    var tau := Scan(yin, 2);
    if tau == |yin| - 1 || AtLeast(yin[tau], Threshold) then None else Some(tau)
  }

  /** first is the lowest lag in [2, |yin| - 1) whose value is below the threshold. */
  predicate IsFirstCandidate(yin: seq<Num>, first: nat)
  {
    2 <= first < |yin| - 1 && Below(yin[first], Threshold)
    && forall k :: 2 <= k < first ==> !Below(yin[k], Threshold)
  }

  /** Step 4, the three-point branch: the vertex of the parabola through
      (tau - 1, s0), (tau, s1), (tau + 1, s2). */
  function Interpolate(s0: real, s1: real, s2: real, tau: nat): real
    requires 2.0 * s1 - s2 - s0 != 0.0
  {
    tau as real + (s2 - s0) / (2.0 * (2.0 * s1 - s2 - s0))
  }

  /** The whole of `detectPitch` on a buffer's contents. */
  function Detect(b: seq<real>, sampleRate: real): Option<Pitch>
    requires |b| == BufferSize
  {
    var yin := Cmnd(Differences(b));
    match Search(yin)
    case None => None
    case Some(tau) =>
      NeighboursShape(b, tau);
      PitchAt(yin, tau, sampleRate)
  }

  /** A lag strictly inside the buffer whose three values are finite, with the value at the lag
      below its left neighbour and not above its right one. */
  predicate Dip(yin: seq<Num>, tau: nat)
  {
    && 2 <= tau < |yin| - 1
    && yin[tau - 1].Finite? && yin[tau].Finite? && yin[tau + 1].Finite?
    && yin[tau - 1].v > yin[tau].v && yin[tau + 1].v >= yin[tau].v
  }

  /** Steps 4 and 5 at the lag of the search: the interpolated frequency, kept when it lies in
      the detectable range, with confidence 1 - yin[tau]. */
  function PitchAt(yin: seq<Num>, tau: nat, sampleRate: real): Option<Pitch>
    requires Dip(yin, tau)
  {
    var s0, s1, s2 := yin[tau - 1].v, yin[tau].v, yin[tau + 1].v;
    InterpolateNear(s0, s1, s2, tau);
    var frequency := sampleRate / Interpolate(s0, s1, s2, tau);
    if frequency < MinFrequency || frequency > MaxFrequency then None
    else Some(Pitch(frequency, 1.0 - s1))
  }

  /** `if (pitch) postMessage(...)`: the messages one detection posts. */
  function Posted(p: Option<Pitch>): seq<Pitch>
  {
    if p.Some? then [p.value] else []
  }

  // ---------------------------------------------------------------- the search

  lemma {:induction false} DescendStaysBelow(yin: seq<Num>, tau: nat, c: real)
    requires tau < |yin| && Below(yin[tau], c)
    ensures Below(yin[Descend(yin, tau)], c)
    decreases |yin| - tau
  {
    if tau + 1 < |yin| && Lt(yin[tau + 1], yin[tau]) {
      DescendStaysBelow(yin, tau + 1, c);
    }
  }

  lemma {:induction false} ScanReachesFirst(yin: seq<Num>, tau: nat, first: nat)
    requires 2 <= tau <= first && IsFirstCandidate(yin, first)
    ensures Scan(yin, tau) == Descend(yin, first)
    decreases first - tau
  {
    if tau < first {
      ScanReachesFirst(yin, tau + 1, first);
    }
  }

  lemma {:induction false} ScanWithoutCandidate(yin: seq<Num>, tau: nat)
    requires 2 <= tau <= |yin| - 1
    requires forall k :: tau <= k < |yin| - 1 ==> !Below(yin[k], Threshold)
    ensures Scan(yin, tau) == |yin| - 1
    decreases |yin| - tau
  {
    if tau < |yin| - 1 {
      ScanWithoutCandidate(yin, tau + 1);
    }
  }

  /** With a first candidate, the search answers the end of the descent from it, and null
      exactly when that descent runs into |yin| - 1. */
  lemma SearchFromFirst(yin: seq<Num>, first: nat)
    requires |yin| >= 3 && IsFirstCandidate(yin, first)
    ensures var t := Descend(yin, first);
            Search(yin) == if t == |yin| - 1 then None else Some(t)
  {
    ScanReachesFirst(yin, 2, first);
    DescendStaysBelow(yin, first, Threshold);
  }

  /** With no value below the threshold in [2, |yin| - 1) the search answers null. */
  lemma SearchWithoutCandidate(yin: seq<Num>)
    requires |yin| >= 3
    requires forall k :: 2 <= k < |yin| - 1 ==> !Below(yin[k], Threshold)
    ensures Search(yin) == None
  {
    ScanWithoutCandidate(yin, 2);
  }

  /** Every lag the search returns: inside [2, |yin| - 1), below the threshold, not above its
      right neighbour, and reached by a strictly decreasing walk from the first candidate. */
  lemma SearchResult(yin: seq<Num>, tau: nat)
    requires |yin| >= 3 && Search(yin) == Some(tau)
    ensures 2 <= tau < |yin| - 1
    ensures Below(yin[tau], Threshold)
    ensures !Lt(yin[tau + 1], yin[tau])
    ensures exists first: nat :: IsFirstCandidate(yin, first) && first <= tau
              && forall k :: first <= k < tau ==> Lt(yin[k + 1], yin[k])
  {
    if forall k :: 2 <= k < |yin| - 1 ==> !Below(yin[k], Threshold) {
      SearchWithoutCandidate(yin);
    } else {
      var first := FirstCandidate(yin, 2);
      SearchFromFirst(yin, first);
      DescendStaysBelow(yin, first, Threshold);
    }
  }

  /** Helper: the lowest lag at or above lo that is below the threshold, given that one exists. */
  lemma {:induction false} FirstCandidate(yin: seq<Num>, lo: nat) returns (first: nat)
    requires 2 <= lo < |yin| - 1
    requires forall k :: 2 <= k < lo ==> !Below(yin[k], Threshold)
    requires exists k :: lo <= k < |yin| - 1 && Below(yin[k], Threshold)
    ensures IsFirstCandidate(yin, first)
    decreases |yin| - lo
  {
    if Below(yin[lo], Threshold) {
      first := lo;
    } else {
      first := FirstCandidate(yin, lo + 1);
    }
  }

  // ---------------------------------------------------------------- shape of the normalised values

  lemma {:induction false} RunningSumMonotone(d: seq<real>, j: nat, k: nat)
    requires j <= k < |d| && forall i :: 0 <= i < |d| ==> d[i] >= 0.0
    ensures 0.0 <= RunningSum(d, j) <= RunningSum(d, k)
    decreases k
  {
    if k > 0 {
      if j < k {
        RunningSumMonotone(d, j, k - 1);
      } else {
        RunningSumMonotone(d, j - 1, k - 1);
      }
    }
  }

  /** A normalised value below the threshold at lag k >= 1 has a positive running sum at k - 1:
      where the running sum first becomes positive the value is k itself. */
  lemma CandidateHasPositivePrefix(d: seq<real>, k: nat)
    requires 1 <= k < |d| && forall i :: 0 <= i < |d| ==> d[i] >= 0.0
    requires Below(Normalised(d, k), Threshold)
    ensures RunningSum(d, k - 1) > 0.0
  {
    RunningSumMonotone(d, k - 1, k - 1);
  }

  /** For the lag the search settles on, both neighbours are finite, the left one is strictly
      larger and the right one no smaller, so the denominator of the interpolation is negative. */
  lemma NeighboursShape(b: seq<real>, tau: nat)
    requires |b| == BufferSize && Search(Cmnd(Differences(b))) == Some(tau)
    ensures 2 <= tau < YinSize - 1
    ensures var yin := Cmnd(Differences(b));
            yin[tau - 1].Finite? && yin[tau].Finite? && yin[tau + 1].Finite?
            && yin[tau - 1].v > yin[tau].v && yin[tau + 1].v >= yin[tau].v
  {
    var d := Differences(b);
    assert forall i :: 0 <= i < |d| ==> d[i] >= 0.0;
    CmndNeighbours(d, tau);
  }

  /** NeighboursShape for any non-negative difference values. */
  lemma CmndNeighbours(d: seq<real>, tau: nat)
    requires |d| >= 3 && forall i :: 0 <= i < |d| ==> d[i] >= 0.0
    requires Search(Cmnd(d)) == Some(tau)
    ensures 2 <= tau < |d| - 1
    ensures var yin := Cmnd(d);
            yin[tau - 1].Finite? && yin[tau].Finite? && yin[tau + 1].Finite?
            && yin[tau - 1].v > yin[tau].v && yin[tau + 1].v >= yin[tau].v
  {
    var yin := Cmnd(d);
    SearchResult(yin, tau);
    var first: nat :| IsFirstCandidate(yin, first) && first <= tau
                      && forall k :: first <= k < tau ==> Lt(yin[k + 1], yin[k]);
    assert yin[first] == Normalised(d, first);
    CandidateHasPositivePrefix(d, first);
    FiniteFrom(d, first - 1, tau - 1);
    FiniteFrom(d, first - 1, tau + 1);
    if tau == first {
      if tau - 1 == 1 {
        assert yin[1].v == d[1] * (1 as real / d[1]);
      } else {
        assert !Below(yin[tau - 1], Threshold);
      }
    } else {
      assert Lt(yin[tau], yin[tau - 1]);
    }
  }

  /** Once the running sum is positive every later normalised value is finite. */
  lemma FiniteFrom(d: seq<real>, k: nat, j: nat)
    requires 1 <= k <= j < |d| && forall i :: 0 <= i < |d| ==> d[i] >= 0.0
    requires RunningSum(d, k) > 0.0
    ensures RunningSum(d, j) > 0.0
    ensures Cmnd(d)[j] == Finite(d[j] * (j as real / RunningSum(d, j)))
  {
    RunningSumMonotone(d, k, j);
  }

  /** The interpolated lag stays within half a sample of tau (on the far side from the larger
      neighbour), so it is positive and the division by it is defined. */
  lemma InterpolateNear(s0: real, s1: real, s2: real, tau: nat)
    requires s0 > s1 && s2 >= s1
    ensures 2.0 * s1 - s2 - s0 < 0.0
    ensures tau as real - 0.5 < Interpolate(s0, s1, s2, tau) <= tau as real + 0.5
  {
    var den := 2.0 * (2.0 * s1 - s2 - s0);
    var q := (s2 - s0) / den;
    assert q * den == s2 - s0;
    assert (q + 0.5) * den == 2.0 * (s1 - s0) < 0.0;
    assert (q - 0.5) * den == 2.0 * (s2 - s1) >= 0.0;
    SignOfFactor(q + 0.5, den);
    SignOfFactor(q - 0.5, den);
  }

  /** Dividing out a negative factor: the sign of x follows from the sign of x * y. */
  lemma SignOfFactor(x: real, y: real)
    requires y < 0.0
    ensures x * y < 0.0 ==> x > 0.0
    ensures x * y >= 0.0 ==> x <= 0.0
  {
    if x > 0.0 {
      assert x * y < 0.0;
    } else if x < 0.0 {
      assert x * y > 0.0;
    }
  }

  // ---------------------------------------------------------------- properties of detection

  /** A detected pitch lies in [80, 2000] Hz and its confidence is 1 - yin[tau] for the lag of
      the search, hence in (0.85, 1]. */
  lemma DetectedPitchRange(b: seq<real>, sampleRate: real)
    requires |b| == BufferSize && Detect(b, sampleRate).Some?
    ensures var p := Detect(b, sampleRate).value;
            var yin := Cmnd(Differences(b));
            MinFrequency <= p.frequency <= MaxFrequency
            && Search(yin).Some? && Below(yin[Search(yin).value], Threshold)
            && p.confidence == 1.0 - yin[Search(yin).value].v
            && 1.0 - Threshold < p.confidence <= 1.0
  {
    var d := Differences(b);
    var yin := Cmnd(d);
    var tau := Search(yin).value;
    NeighboursShape(b, tau);
    assert yin[tau] == Normalised(d, tau);
    RunningSumMonotone(d, tau, tau);
    assert d[tau] >= 0.0 && RunningSum(d, tau) > 0.0;
    assert tau as real / RunningSum(d, tau) > 0.0;
  }

  /** Silence: an all-zero buffer makes every normalised value NaN, so nothing is detected. */
  lemma SilenceGivesNull(b: seq<real>, sampleRate: real)
    requires |b| == BufferSize && forall i :: 0 <= i < |b| ==> b[i] == 0.0
    ensures Detect(b, sampleRate) == None
  {
    var d := Differences(b);
    forall tau | 1 <= tau < YinSize
      ensures d[tau] == 0.0
    {
      DiffSumOfSilence(b, tau, YinSize);
    }
    forall k | 1 <= k < YinSize
      ensures RunningSum(d, k) == 0.0
    {
      RunningSumOfZeros(d, k);
    }
    SearchWithoutCandidate(Cmnd(d));
  }

  lemma {:induction false} RunningSumOfZeros(d: seq<real>, k: nat)
    requires k < |d| && forall i :: 1 <= i < |d| ==> d[i] == 0.0
    ensures RunningSum(d, k) == 0.0
  {
    if k > 0 {
      RunningSumOfZeros(d, k - 1);
    }
  }

  // ---------------------------------------------------------------- the worklet

  class PitchDetectorProcessor {
    var sampleRate: real
    var buffer: array<real>
    var bufferIndex: int
    var frameCount: nat
    /** The `postMessage` calls made so far (pitch and confidence; the note is left out). */
    var posted: seq<Pitch>

    ghost predicate Valid()
      reads this
    {
      buffer.Length == BufferSize && 0 <= bufferIndex < BufferSize
    }

    constructor()
      ensures Valid() && fresh(buffer)
      ensures sampleRate == DefaultSampleRate && bufferIndex == 0 && frameCount == 0 && posted == []
      ensures forall i :: 0 <= i < BufferSize ==> buffer[i] == 0.0
    {
      sampleRate := DefaultSampleRate;
      buffer := new real[BufferSize](_ => 0.0);
      bufferIndex := 0;
      frameCount := 0;
      posted := [];
    }

    /** `port.onmessage`: a truthy sampleRate replaces the current one. */
    method OnMessage(newSampleRate: Option<real>)
      modifies this
      ensures sampleRate == if newSampleRate.Some? && newSampleRate.value != 0.0 then newSampleRate.value
                            else old(sampleRate)
      ensures buffer == old(buffer) && bufferIndex == old(bufferIndex)
      ensures frameCount == old(frameCount) && posted == old(posted)
    {
      if newSampleRate.Some? && newSampleRate.value != 0.0 {
        sampleRate := newSampleRate.value;
      }
    }

    /** `process`: `input` is the first channel of the first input, None when there is no
        input or it has no channels. */
    method Process(input: Option<seq<real>>) returns (keepAlive: bool)
      requires Valid()
      modifies this, buffer
      ensures Valid() && keepAlive
      ensures buffer == old(buffer) && sampleRate == old(sampleRate)
      ensures input.None? ==> buffer[..] == old(buffer[..]) && bufferIndex == old(bufferIndex)
                              && frameCount == old(frameCount) && posted == old(posted)
      ensures input.Some? ==>
                buffer[..] == RingWrite(old(buffer[..]), old(bufferIndex), input.value, BufferSize)
                && bufferIndex == RingIndex(old(bufferIndex), |input.value|, BufferSize)
                && frameCount == old(frameCount) + 1
                && posted == old(posted) + if frameCount % ProcessEveryNFrames == 0
                                           then Posted(Detect(buffer[..], sampleRate)) else []
    {
      if input.Some? {
        var x := input.value;
        ghost var buf0, idx0 := buffer[..], bufferIndex;
        for i := 0 to |x|
          invariant buffer == old(buffer) && sampleRate == old(sampleRate)
          invariant frameCount == old(frameCount) && posted == old(posted)
          invariant 0 <= bufferIndex < BufferSize
          invariant RingWrite(buffer[..], bufferIndex, x[i..], BufferSize) == RingWrite(buf0, idx0, x, BufferSize)
          invariant RingIndex(bufferIndex, |x| - i, BufferSize) == RingIndex(idx0, |x|, BufferSize)
        {
          assert x[i..][1..] == x[i + 1..];
          buffer[bufferIndex] := x[i];
          bufferIndex := (bufferIndex + 1) % BufferSize;
        }
        assert x[|x|..] == [];
        frameCount := frameCount + 1;
        if frameCount % ProcessEveryNFrames == 0 {
          var pitch := DetectPitch();
          if pitch.Some? {
            posted := posted + [pitch.value];
          }
        }
      }
      keepAlive := true;
    }

    /** `detectPitch`: steps 1 to 4 on a fresh yinBuffer. */
    method DetectPitch() returns (pitch: Option<Pitch>)
      requires Valid()
      ensures pitch == Detect(buffer[..], sampleRate)
    {
      ghost var d := Differences(buffer[..]);
      var yinBuffer := new Num[YinSize](_ => Finite(0.0));
      FillDifferences(buffer, yinBuffer);
      NormaliseInPlace(yinBuffer, d);
      ghost var yin := yinBuffer[..];
      var tau, probability := AbsoluteThreshold(yinBuffer);

      if tau == YinSize - 1 || AtLeast(yinBuffer[tau], Threshold) {
        return None;
      }
      assert Search(yin) == Some(tau);

      // Step 4: parabolic interpolation.
      var x0 := if tau < 1 then tau else tau - 1;
      var x2 := if tau + 1 < YinSize then tau + 1 else tau;
      if x0 == tau || x2 == tau {
        // The one-sided branches of the source, unreachable for 2 <= tau < YinSize - 1.
        assert false;
      }
      NeighboursShape(buffer[..], tau);
      assert yin == Cmnd(Differences(buffer[..])) && Dip(yin, tau);
      var s0, s1, s2 := yinBuffer[x0].v, yinBuffer[tau].v, yinBuffer[x2].v;
      InterpolateNear(s0, s1, s2, tau);
      var betterTau := Interpolate(s0, s1, s2, tau);
      var frequency := sampleRate / betterTau;
      if frequency < MinFrequency || frequency > MaxFrequency {
        return None;
      }
      pitch := Some(Pitch(frequency, probability));
      assert pitch == PitchAt(yin, tau, sampleRate);
    }
  }

  /** Step 1 in place: lag tau of yinBuffer gets the difference sum over the first YinSize
      samples, reading b in physical order from index 0 with every i + tau below BufferSize. */
  method FillDifferences(b: array<real>, yinBuffer: array<Num>)
    requires b.Length == BufferSize && yinBuffer.Length == YinSize
    modifies yinBuffer
    ensures yinBuffer[0] == old(yinBuffer[0])
    ensures forall k :: 1 <= k < YinSize ==> yinBuffer[k] == Finite(Differences(b[..])[k])
  {
    ghost var d := Differences(b[..]);
    for tau := 1 to YinSize
      invariant yinBuffer[0] == old(yinBuffer[0])
      invariant forall k :: 1 <= k < tau ==> yinBuffer[k] == Finite(d[k])
    {
      yinBuffer[tau] := Finite(0.0);
      for i := 0 to YinSize
        invariant yinBuffer[tau] == Finite(DiffSum(b[..], tau, i))
        invariant yinBuffer[0] == old(yinBuffer[0])
        invariant forall k :: 1 <= k < tau ==> yinBuffer[k] == Finite(d[k])
      {
        var delta := b[i] - b[i + tau];
        yinBuffer[tau] := Finite(yinBuffer[tau].v + delta * delta);
      }
    }
  }

  /** Step 2 in place: entry 0 becomes 1 and each later entry d[tau] becomes
      d[tau] * (tau / runningSum). */
  method NormaliseInPlace(yinBuffer: array<Num>, ghost d: seq<real>)
    requires yinBuffer.Length == |d| >= 1
    requires forall k :: 1 <= k < |d| ==> yinBuffer[k] == Finite(d[k])
    modifies yinBuffer
    ensures yinBuffer[..] == Cmnd(d)
  {
    yinBuffer[0] := Finite(1.0);
    var runningSum := 0.0;
    for tau := 1 to yinBuffer.Length
      invariant runningSum == RunningSum(d, tau - 1)
      invariant yinBuffer[0] == Finite(1.0)
      invariant forall k :: 1 <= k < tau ==> yinBuffer[k] == Normalised(d, k)
      invariant forall k :: tau <= k < |d| ==> yinBuffer[k] == Finite(d[k])
    {
      var value := yinBuffer[tau].v;
      assert value == d[tau];
      runningSum := runningSum + value;
      assert runningSum == RunningSum(d, tau);
      if runningSum == 0.0 {
        // tau / 0 is Infinity and the value is 0, so the product is NaN.
        yinBuffer[tau] := NaN;
      } else {
        yinBuffer[tau] := Finite(value * (tau as real / runningSum));
      }
      assert yinBuffer[tau] == Normalised(d, tau);
    }
    assert forall k :: 0 <= k < |d| ==> yinBuffer[k] == Cmnd(d)[k];
  }

  /** Step 3: the outer scan from lag 2 and the descent, with `probability` set from the lag
      the descent ends on. */
  method AbsoluteThreshold(yinBuffer: array<Num>) returns (tau: nat, probability: real)
    requires yinBuffer.Length >= 3
    ensures tau == Scan(yinBuffer[..], 2)
    ensures tau < yinBuffer.Length - 1 && Below(yinBuffer[tau], Threshold) ==> probability == 1.0 - yinBuffer[tau].v
  {
    ghost var yin := yinBuffer[..];
    tau := 2;
    probability := 0.0;
    while tau < yinBuffer.Length - 1
      invariant 2 <= tau <= yinBuffer.Length - 1
      invariant Scan(yin, tau) == Scan(yin, 2)
      decreases yinBuffer.Length - tau
    {
      if Below(yinBuffer[tau], Threshold) {
        ghost var first := tau;
        while tau + 1 < yinBuffer.Length && Lt(yinBuffer[tau + 1], yinBuffer[tau])
          invariant first <= tau < yinBuffer.Length
          invariant Descend(yin, tau) == Descend(yin, first)
          invariant Below(yinBuffer[tau], Threshold)
          decreases yinBuffer.Length - tau
        {
          tau := tau + 1;
        }
        probability := 1.0 - yinBuffer[tau].v;
        assert tau == Scan(yin, 2);
        return;
      }
      tau := tau + 1;
    }
  }
}
