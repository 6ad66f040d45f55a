/**
  The low-latency variant of the pitch-detector worklet
  (src/worklets/pitch-detector-optimized.js): a resizable ring buffer,
  detection on every second block with input, an RMS silence gate, and a
  single pass over the lags that computes each normalised difference into a
  persistent yinBuffer and stops at the first one below the threshold.

  Arithmetic is exact over `real` (Float32 rounding is not modelled). Here no
  NaN can arise: every normalised value is a quotient of non-negative reals
  whose zero denominator is replaced by 1.
 */
module PitchDetectorOptimized {
  import opened Common
  import opened Signal
  import Harmony
  import PitchDetector

  type Pitch = PitchDetector.Pitch

  const DefaultBufferSize: nat := 1024
  const Threshold: real := 0.15
  const ProcessEveryNFrames: nat := 2
  /** `minVal` before the search: the candidate test `cmnd < minVal` compares against it. */
  const InitialMinVal: real := 1.0
  /** `rms < 0.01` with rms = sqrt(sum / n) is `sum / n < 0.01 * 0.01`. */
  const SilenceMeanSquare: real := 0.0001
  const MinFrequency: real := 50.0
  const MaxFrequency: real := 2000.0
  const DefaultSampleRate: real := 44100.0

  /** One normalised difference: `sum / ((sum + prev) || 1)`. */
  function NormalisedDifference(sum: real, prev: real): real
  {
    sum / if sum + prev != 0.0 then sum + prev else 1.0
  }

  /** The search loop from lag t: each lag's value is written into yin, and the loop breaks
      at the first value below both the threshold and minVal. Gives the final yinBuffer and
      the selected lag, -1 when none is found. */
  function Scan(b: seq<real>, yin: seq<real>, t: nat): (r: (seq<real>, int))
    requires |b| >= 1 && |yin| == |b| / 2 && 1 <= t
    ensures |r.0| == |yin|
    ensures r.1 == -1 || t <= r.1 < |yin|
    decreases |yin| - t
  {
    var half := |b| / 2;
    if t >= half then (yin, -1)
    else
      var cmnd := NormalisedDifference(DiffSum(b, t, half), yin[t - 1]);
      var yin' := yin[t := cmnd];
      if cmnd < Threshold && cmnd < InitialMinVal then (yin', t as int)
      else Scan(b, yin', t + 1)
  }

  /** Step 4: `tau - b / (2a)` for the parabola through the three neighbouring values, applied
      only when the right neighbour is inside the half buffer and a is non-zero. */
  function InterpolatedLag(yin: seq<real>, tau: nat): (r: real)
    requires 1 <= tau < |yin|
    ensures r != tau as real ==> tau + 1 < |yin| && yin[tau - 1] - 2.0 * yin[tau] + yin[tau + 1] != 0.0
  {
    if tau + 1 < |yin| then
      var y0, y1, y2 := yin[tau - 1], yin[tau], yin[tau + 1];
      var a := (y0 - 2.0 * y1 + y2) / 2.0;
      var b := (y2 - y0) / 2.0;
      if a != 0.0 then tau as real - b / (2.0 * a) else tau as real
    else tau as real
  }

  /** The whole of `detectPitch`: its result and the yinBuffer it leaves behind. */
  function Detect(b: seq<real>, yin: seq<real>, sampleRate: real): (Option<Pitch>, seq<real>)
    requires |b| >= 1 && |yin| == |b| / 2
  {
    if SumSquares(b, |b|) / (|b| as real) < SilenceMeanSquare then (None, yin)
    else
      var (yin', tau) := Scan(b, yin, 2);
      if tau == -1 then (None, yin')
      else
        var lag := InterpolatedLag(yin', tau);
        // sampleRate / 0 is an infinity, which the range test rejects.
        if lag == 0.0 then (None, yin')
        else
          var frequency := sampleRate / lag;
          if frequency < MinFrequency || frequency > MaxFrequency then (None, yin')
          else (Some(PitchDetector.Pitch(frequency, 1.0 - yin'[tau])), yin')
  }

  // ---------------------------------------------------------------- properties of the search

  /** The lag the search selects is the first in [2, |b|/2) whose value is below the threshold
      (the minVal test never rejects one); the values before it are not, and no lag at all
      means none of [2, |b|/2) is. */
  lemma {:induction false} ScanSelectsFirst(b: seq<real>, yin: seq<real>, t: nat)
    requires |b| >= 1 && |yin| == |b| / 2 && 1 <= t
    ensures var (yin', tau) := Scan(b, yin, t);
            (tau == -1 || t <= tau < |yin|)
            && (tau != -1 ==> yin'[tau] < Threshold)
            && forall k :: t <= k < |yin| && (tau == -1 || k < tau) ==> yin'[k] >= Threshold
    decreases |yin| - t
  {
    var half := |b| / 2;
    if t < half {
      var cmnd := NormalisedDifference(DiffSum(b, t, half), yin[t - 1]);
      if !(cmnd < Threshold && cmnd < InitialMinVal) {
        ScanSelectsFirst(b, yin[t := cmnd], t + 1);
        ScanFrame(b, yin[t := cmnd], t + 1);
      }
    }
  }

  /** What the search rewrites in the persistent yinBuffer: only lags from t up to the
      selected one (all of [t, |b|/2) when none is selected). Index 0, index 1 and every lag
      above the selected one keep their old values. */
  lemma {:induction false} ScanFrame(b: seq<real>, yin: seq<real>, t: nat)
    requires |b| >= 1 && |yin| == |b| / 2 && 1 <= t
    ensures var (yin', tau) := Scan(b, yin, t);
            forall k :: 0 <= k < |yin| && (k < t || (tau != -1 && k > tau)) ==> yin'[k] == yin[k]
    decreases |yin| - t
  {
    var half := |b| / 2;
    if t < half {
      var cmnd := NormalisedDifference(DiffSum(b, t, half), yin[t - 1]);
      var yin1 := yin[t := cmnd];
      if !(cmnd < Threshold && cmnd < InitialMinVal) {
        ScanFrame(b, yin1, t + 1);
        var r := Scan(b, yin1, t + 1);
        assert Scan(b, yin, t) == r;
        forall k | 0 <= k < |yin| && (k < t || (r.1 != -1 && k > r.1))
          ensures r.0[k] == yin[k]
        {
          assert r.0[k] == yin1[k];
        }
      }
    }
  }

  /** With non-negative old values every value the search writes lies in [0, 1]. */
  lemma {:induction false} ScanKeepsUnitRange(b: seq<real>, yin: seq<real>, t: nat)
    requires |b| >= 1 && |yin| == |b| / 2 && 1 <= t
    requires forall k :: 0 <= k < |yin| ==> 0.0 <= yin[k] <= 1.0
    ensures forall k :: 0 <= k < |yin| ==> 0.0 <= Scan(b, yin, t).0[k] <= 1.0
    decreases |yin| - t
  {
    var half := |b| / 2;
    if t < half {
      var sum := DiffSum(b, t, half);
      var cmnd := NormalisedDifference(sum, yin[t - 1]);
      UnitRange(sum, yin[t - 1]);
      if !(cmnd < Threshold && cmnd < InitialMinVal) {
        ScanKeepsUnitRange(b, yin[t := cmnd], t + 1);
      }
    }
  }

  lemma UnitRange(sum: real, prev: real)
    requires sum >= 0.0 && prev >= 0.0
    ensures 0.0 <= NormalisedDifference(sum, prev) <= 1.0
  {
    if sum + prev != 0.0 {
      QuotientInUnit(sum, sum + prev);
    }
  }

  lemma QuotientInUnit(x: real, y: real)
    requires 0.0 <= x <= y && y > 0.0
    ensures 0.0 <= x / y <= 1.0
  {
    var q := x / y;
    assert q * y == x;
  }

  // ---------------------------------------------------------------- properties of detection

  /** The silence gate: an all-zero buffer has RMS 0 < 0.01, so it gives null and leaves
      yinBuffer alone. */
  lemma SilenceGivesNull(b: seq<real>, yin: seq<real>, sampleRate: real)
    requires |b| >= 1 && |yin| == |b| / 2 && forall i :: 0 <= i < |b| ==> b[i] == 0.0
    ensures Detect(b, yin, sampleRate) == (None, yin)
  {
    SumSquaresOfSilence(b, |b|);
  }

  /** A one-sample buffer, which a bufferSize message of 1 allocates along with an empty
      yinBuffer, never gives a pitch: halfBuffer is 0, so no lag is searched. */
  lemma OneSampleGivesNull(b: seq<real>, yin: seq<real>, sampleRate: real)
    requires |b| == 1 && |yin| == 0
    ensures Detect(b, yin, sampleRate) == (None, yin)
  {
  }

  /** A detected pitch: the lag is the first in [2, |b|/2) below the threshold, the frequency
      lies in [50, 2000] Hz, and the confidence is 1 - cmnd at that lag, in (0.85, 1] when the
      old yinBuffer held values in [0, 1]. */
  lemma DetectedPitch(b: seq<real>, yin: seq<real>, sampleRate: real)
    requires |b| >= 1 && |yin| == |b| / 2
    requires Detect(b, yin, sampleRate).0.Some?
    ensures var (yin', tau) := Scan(b, yin, 2);
            var p := Detect(b, yin, sampleRate).0.value;
            2 <= tau < |yin| && yin'[tau] < Threshold
            && (forall k :: 2 <= k < tau ==> yin'[k] >= Threshold)
            && MinFrequency <= p.frequency <= MaxFrequency
            && p.confidence == 1.0 - yin'[tau]
            && ((forall k :: 0 <= k < |yin| ==> 0.0 <= yin[k] <= 1.0) ==> 1.0 - Threshold < p.confidence <= 1.0)
  {
    ScanSelectsFirst(b, yin, 2);
    if forall k :: 0 <= k < |yin| ==> 0.0 <= yin[k] <= 1.0 {
      ScanKeepsUnitRange(b, yin, 2);
    }
  }

  /** The yinBuffer after a detection: index 1 is never written, lags above the selected one
      keep their old values, so the interpolation's right neighbour is a stale value. */
  lemma DetectFrame(b: seq<real>, yin: seq<real>, sampleRate: real)
    requires |b| >= 1 && |yin| == |b| / 2
    ensures var (yin', tau) := Scan(b, yin, 2);
            var after := Detect(b, yin, sampleRate).1;
            |after| == |yin| && (after == yin || after == yin')
            && forall k :: 0 <= k < |yin| && (k < 2 || (tau != -1 && k > tau)) ==> after[k] == yin[k]
  {
    ScanFrame(b, yin, 2);
  }

  // ---------------------------------------------------------------- frequencyToNote

  datatype NoteReading = NoteReading(note: string, octave: int, midi: int)

  /** The integer tail of `frequencyToNote`, from the rounded MIDI number on:
      `noteNames[midi % 12]` and `Math.floor(midi / 12) - 1`. */
  function NoteFromMidi(midi: int): (r: NoteReading)
    ensures r.midi == midi
    ensures midi >= 0 ==> r.note in Harmony.NoteNames && Harmony.NoteToMidi(r.note, r.octave) == midi
    ensures midi < 0 && midi % 12 != 0 ==> r.note == "undefined"
  {
    Harmony.MidiRoundTrip(if midi >= 0 then midi else 0);
    NoteReading(Harmony.PitchName(midi), Harmony.MidiOctave(midi), midi)
  }

  // ---------------------------------------------------------------- the worklet

  class OptimizedPitchDetectorProcessor {
    var sampleRate: real
    var bufferSize: nat
    var buffer: array<real>
    var bufferIndex: int
    var frameCount: nat
    var yinBuffer: array<real>
    /** The `postMessage` calls made so far (pitch and confidence; the note is left out). */
    var posted: seq<Pitch>

    ghost predicate Valid()
      reads this, yinBuffer
    {
      buffer.Length == bufferSize && bufferSize >= 1
      && yinBuffer.Length == bufferSize / 2 && bufferIndex >= 0 && sampleRate != 0.0
      && forall k :: 0 <= k < yinBuffer.Length ==> 0.0 <= yinBuffer[k] <= 1.0
    }

    constructor()
      ensures Valid() && fresh(buffer) && fresh(yinBuffer)
      ensures sampleRate == DefaultSampleRate && bufferSize == DefaultBufferSize
      ensures bufferIndex == 0 && frameCount == 0 && posted == []
      ensures forall i :: 0 <= i < bufferSize ==> buffer[i] == 0.0
      ensures forall i :: 0 <= i < bufferSize / 2 ==> yinBuffer[i] == 0.0
    {
      sampleRate := DefaultSampleRate;
      bufferSize := DefaultBufferSize;
      buffer := new real[DefaultBufferSize](_ => 0.0);
      bufferIndex := 0;
      frameCount := 0;
      yinBuffer := new real[DefaultBufferSize / 2](_ => 0.0);
      posted := [];
    }

    /** `port.onmessage`: a truthy sampleRate replaces the rate; a truthy bufferSize
        reallocates both arrays (zero-filled) but leaves bufferIndex where it was. The typed
        array constructor truncates a fractional length, so an odd size n gives a yinBuffer
        of n / 2 rounded down, the halfBuffer that detection reads. */
    method OnMessage(newSampleRate: Option<real>, newBufferSize: Option<int>)
      requires Valid()
      requires newBufferSize.Some? && newBufferSize.value != 0 ==> newBufferSize.value >= 1
      modifies this
      ensures Valid()
      ensures sampleRate == if newSampleRate.Some? && newSampleRate.value != 0.0 then newSampleRate.value
                            else old(sampleRate)
      ensures bufferIndex == old(bufferIndex) && frameCount == old(frameCount) && posted == old(posted)
      ensures if newBufferSize.Some? && newBufferSize.value != 0 then
                bufferSize == newBufferSize.value && fresh(buffer) && fresh(yinBuffer)
                && (forall i :: 0 <= i < bufferSize ==> buffer[i] == 0.0)
                && (forall i :: 0 <= i < bufferSize / 2 ==> yinBuffer[i] == 0.0)
              else bufferSize == old(bufferSize) && buffer == old(buffer) && yinBuffer == old(yinBuffer)
    {
      if newSampleRate.Some? && newSampleRate.value != 0.0 {
        sampleRate := newSampleRate.value;
      }
      if newBufferSize.Some? && newBufferSize.value != 0 {
        bufferSize := newBufferSize.value;
        buffer := new real[bufferSize](_ => 0.0);
        yinBuffer := new real[bufferSize / 2](_ => 0.0);
      }
    }

    /** `process`: as in the other worklet, except that a write at an index left out of range
        by a resize is dropped, and detection runs on every second block with input. */
    method Process(input: Option<seq<real>>) returns (keepAlive: bool)
      requires Valid()
      modifies this, buffer, yinBuffer
      ensures Valid() && keepAlive
      ensures buffer == old(buffer) && yinBuffer == old(yinBuffer)
      ensures bufferSize == old(bufferSize) && sampleRate == old(sampleRate)
      ensures input.None? ==> buffer[..] == old(buffer[..]) && yinBuffer[..] == old(yinBuffer[..])
                              && bufferIndex == old(bufferIndex) && frameCount == old(frameCount)
                              && posted == old(posted)
      ensures input.Some? ==>
                buffer[..] == RingWrite(old(buffer[..]), old(bufferIndex), input.value, bufferSize)
                && bufferIndex == RingIndex(old(bufferIndex), |input.value|, bufferSize)
                && frameCount == old(frameCount) + 1
                && if frameCount % ProcessEveryNFrames == 0 then
                     var (p, yin') := Detect(buffer[..], old(yinBuffer[..]), sampleRate);
                     posted == old(posted) + PitchDetector.Posted(p) && yinBuffer[..] == yin'
                   else posted == old(posted) && yinBuffer[..] == old(yinBuffer[..])
    {
      if input.Some? {
        var x := input.value;
        ghost var buf0, idx0 := buffer[..], bufferIndex;
        for i := 0 to |x|
          invariant buffer == old(buffer) && yinBuffer == old(yinBuffer) && yinBuffer[..] == old(yinBuffer[..])
          invariant bufferSize == old(bufferSize) && sampleRate == old(sampleRate)
          invariant frameCount == old(frameCount) && posted == old(posted)
          invariant bufferIndex >= 0
          invariant RingWrite(buffer[..], bufferIndex, x[i..], bufferSize) == RingWrite(buf0, idx0, x, bufferSize)
          invariant RingIndex(bufferIndex, |x| - i, bufferSize) == RingIndex(idx0, |x|, bufferSize)
        {
          assert x[i..][1..] == x[i + 1..];
          if bufferIndex < buffer.Length {
            buffer[bufferIndex] := x[i];
          }
          bufferIndex := (bufferIndex + 1) % bufferSize;
        }
        assert x[|x|..] == [];
        frameCount := frameCount + 1;
        if frameCount % ProcessEveryNFrames == 0 {
          var pitch := DetectPitch();
          if pitch.Some? {
            posted := posted + [pitch.value];
          }
        }
      }
      keepAlive := true;
    }

    /** `detectPitch`. */
    method DetectPitch() returns (pitch: Option<Pitch>)
      requires Valid()
      modifies yinBuffer
      ensures Valid()
      ensures (pitch, yinBuffer[..]) == Detect(buffer[..], old(yinBuffer[..]), sampleRate)
    {
      ghost var b, yin0 := buffer[..], yinBuffer[..];
      var rms := SquareSum(buffer);
      // Math.sqrt(rms / bufferSize) < 0.01, squared.
      if rms / (bufferSize as real) < SilenceMeanSquare {
        return None;
      }

      var halfBuffer := bufferSize / 2;
      var tau, minVal := SearchLags(buffer, yinBuffer);
      if tau == -1 {
        return None;
      }

      var lag := tau as real;
      var x0, x2 := tau - 1, tau + 1;
      if x0 >= 0 && x2 < halfBuffer {
        // `|| 0` only replaces 0 and NaN, so it leaves these values unchanged.
        var y0 := yinBuffer[x0];
        var y1 := yinBuffer[tau];
        var y2 := yinBuffer[x2];
        var a := (y0 - 2.0 * y1 + y2) / 2.0;
        var b := (y2 - y0) / 2.0;
        if a != 0.0 {
          lag := tau as real - b / (2.0 * a);
        }
      }
      assert lag == InterpolatedLag(yinBuffer[..], tau);
      if lag == 0.0 {
        // sampleRate / 0 is an infinity, which the range test below rejects.
        return None;
      }
      var frequency := sampleRate / lag;
      var confidence := 1.0 - minVal;
      if frequency < MinFrequency || frequency > MaxFrequency {
        return None;
      }
      pitch := Some(PitchDetector.Pitch(frequency, confidence));
    }
  }

  /** The sum of squares the silence gate starts from. */
  method SquareSum(buffer: array<real>) returns (rms: real)
    ensures rms == SumSquares(buffer[..], buffer.Length)
  {
    rms := 0.0;
    for i := 0 to buffer.Length
      invariant rms == SumSquares(buffer[..], i)
    {
      rms := rms + buffer[i] * buffer[i];
    }
  }

  /** The inner loop of the search: the difference sum over the first `half` samples at lag t. */
  method LagDifference(buffer: array<real>, t: nat, half: nat) returns (sum: real)
    requires half + t <= buffer.Length
    ensures sum == DiffSum(buffer[..], t, half)
  {
    sum := 0.0;
    for i := 0 to half
      invariant sum == DiffSum(buffer[..], t, i)
    {
      var delta := buffer[i] - buffer[i + t];
      sum := sum + delta * delta;
    }
  }

  /** The search loop of `detectPitch`: it writes each lag's normalised difference into
      yinBuffer and breaks at the first below both the threshold and minVal, leaving minVal
      at that value. */
  method SearchLags(buffer: array<real>, yinBuffer: array<real>) returns (tau: int, minVal: real)
    requires buffer.Length >= 1 && yinBuffer.Length == buffer.Length / 2
    requires forall k :: 0 <= k < yinBuffer.Length ==> 0.0 <= yinBuffer[k] <= 1.0
    modifies yinBuffer
    ensures (yinBuffer[..], tau) == Scan(buffer[..], old(yinBuffer[..]), 2)
    ensures tau != -1 ==> 0 <= tau < yinBuffer.Length && minVal == yinBuffer[tau]
    ensures forall k :: 0 <= k < yinBuffer.Length ==> 0.0 <= yinBuffer[k] <= 1.0
  {
    ghost var b, yin0 := buffer[..], yinBuffer[..];
    var halfBuffer := buffer.Length / 2;
    tau := -1;
    minVal := InitialMinVal;
    var t := 2;
    while t < halfBuffer
      invariant 2 <= t && buffer[..] == b
      invariant Scan(b, yinBuffer[..], t) == Scan(b, yin0, 2)
      invariant forall k :: 0 <= k < yinBuffer.Length ==> 0.0 <= yinBuffer[k] <= 1.0
      invariant minVal == InitialMinVal && tau == -1
      decreases halfBuffer - t
    {
      var sum := LagDifference(buffer, t, halfBuffer);
      ghost var before := yinBuffer[..];
      var cmnd := NormalisedDifference(sum, yinBuffer[t - 1]);
      UnitRange(sum, yinBuffer[t - 1]);
      yinBuffer[t] := cmnd;
      assert yinBuffer[..] == before[t := cmnd];
      if cmnd < Threshold && cmnd < minVal {
        minVal := cmnd;
        tau := t;
        break;
      }
      assert Scan(b, before, t) == Scan(b, yinBuffer[..], t + 1);
      t := t + 1;
    }
  }
}
