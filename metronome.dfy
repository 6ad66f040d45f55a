/**
  The metronome: a scheduler tick, run every 25 ms, schedules every click due
  within the next 0.1 s, one beat apart, cycling the beat number through the
  bar. Ticks are explicit calls carrying the context's current time. A run
  keeps the tempo it was started with.
 */
module Metronome {
  import Signal

  const ScheduleAheadTime: real := 0.1
  const Lookahead: real := 25.0

  /** A scheduled click: an oscillator at `frequency` through a 0.3 gain envelope to the
      destination, started at `time` and stopped 0.05 s later. */
  datatype Click = Click(time: real, frequency: real, gain: real, stopAt: real)

  /** `scheduleNote(time, beatNumber)`: 1000 Hz on the downbeat, 800 Hz otherwise. */
  function ClickAt(time: real, beatNumber: int): Click
  {
    Click(time, if beatNumber == 1 then 1000.0 else 800.0, 0.3, time + 0.05)
  }

  /** `(beat % beatsPerBar) + 1`. */
  function NextBeat(beat: int, beatsPerBar: int): int
    requires beatsPerBar > 0
  {
    beat % beatsPerBar + 1
  }

  /** The beat number after k clicks. */
  function BeatAfter(beat: int, k: nat, beatsPerBar: int): int
    requires beatsPerBar > 0
  {
    if k == 0 then beat else NextBeat(BeatAfter(beat, k - 1, beatsPerBar), beatsPerBar)
  }

  /** The time of the click k beats after time t. */
  function TimeAfter(t: real, k: nat, secondsPerBeat: real): real
  {
    if k == 0 then t else TimeAfter(t, k - 1, secondsPerBeat) + secondsPerBeat
  }

  /** The n clicks a tick schedules from time t and beat b, one beat apart, in order. */
  function ClickRun(t: real, beat: int, n: nat, secondsPerBeat: real, beatsPerBar: int): (r: seq<Click>)
    requires beatsPerBar > 0
    ensures |r| == n
  {
    if n == 0 then []
    else ClickRun(t, beat, n - 1, secondsPerBeat, beatsPerBar)
         + [ClickAt(TimeAfter(t, n - 1, secondsPerBeat), BeatAfter(beat, n - 1, beatsPerBar))]
  }

  datatype MetronomeState = MetronomeState(isPlaying: bool, currentBeat: int, bpm: real, beatsPerBar: int)

  const InitialState := MetronomeState(false, 1, 120.0, 4)

  // ---------------------------------------------------------------- properties

  /** From the downbeat, click k carries beat k mod beatsPerBar + 1, so the beats cycle
      1, 2, ..., beatsPerBar, 1. */
  lemma {:induction false} BeatCycles(k: nat, beatsPerBar: int)
    requires beatsPerBar > 0
    ensures BeatAfter(1, k, beatsPerBar) == k % beatsPerBar + 1
  {
    if k > 0 {
      BeatCycles(k - 1, beatsPerBar);
      var prev := BeatAfter(1, k - 1, beatsPerBar);
      assert BeatAfter(1, k, beatsPerBar) == prev % beatsPerBar + 1;
      ModSucc(k - 1, beatsPerBar);
      assert prev % beatsPerBar == k % beatsPerBar;
    }
  }

  /** One step round the bar: the remainder of k + 1 follows from the remainder of k. */
  lemma ModSucc(k: int, m: int)
    requires m > 0
    ensures (k % m + 1) % m == (k + 1) % m
  {
    var q, r := k / m, k % m;
    if r + 1 < m {
      Signal.ModUnique(r + 1, 0, r + 1, m);
      Signal.ModUnique(k + 1, q, r + 1, m);
    } else {
      assert (q + 1) * m == q * m + m;
      Signal.ModUnique(r + 1, 1, 0, m);
      Signal.ModUnique(k + 1, q + 1, 0, m);
    }
  }

  /** Any beat in [1, beatsPerBar] stays there. */
  lemma {:induction false} BeatInBar(beat: int, k: nat, beatsPerBar: int)
    requires beatsPerBar > 0 && 1 <= beat <= beatsPerBar
    ensures 1 <= BeatAfter(beat, k, beatsPerBar) <= beatsPerBar
  {
    if k > 0 {
      BeatInBar(beat, k - 1, beatsPerBar);
    }
  }

  /** Click k of a run is at k beats after its start with the beat number k clicks on. */
  lemma {:induction false} ClickRunElements(t: real, beat: int, n: nat, secondsPerBeat: real, beatsPerBar: int)
    requires beatsPerBar > 0
    ensures forall k :: 0 <= k < n ==>
      ClickRun(t, beat, n, secondsPerBeat, beatsPerBar)[k] == ClickAt(TimeAfter(t, k, secondsPerBeat), BeatAfter(beat, k, beatsPerBar))
  {
    if n > 0 {
      ClickRunElements(t, beat, n - 1, secondsPerBeat, beatsPerBar);
    }
  }

  /** k beats after t is t + k * secondsPerBeat. */
  lemma {:induction false} TimeAfterValue(t: real, k: nat, secondsPerBeat: real)
    ensures TimeAfter(t, k, secondsPerBeat) == t + k as real * secondsPerBeat
  {
    if k > 0 {
      TimeAfterValue(t, k - 1, secondsPerBeat);
      assert (k - 1) as real * secondsPerBeat + secondsPerBeat == k as real * secondsPerBeat;
    }
  }

  /** The clicks of a tick are strictly increasing in time, exactly one beat apart, and each
      lasts 0.05 s; in a run starting on the downbeat, exactly every beatsPerBar-th click is
      the 1000 Hz one. */
  lemma ClickSpacing(t: real, n: nat, secondsPerBeat: real, beatsPerBar: int)
    requires beatsPerBar > 0 && secondsPerBeat > 0.0
    ensures var r := ClickRun(t, 1, n, secondsPerBeat, beatsPerBar);
      && (forall k :: 0 <= k < n - 1 ==> r[k + 1].time == r[k].time + secondsPerBeat && r[k].time < r[k + 1].time)
      && (forall k :: 0 <= k < n ==> r[k].time == t + k as real * secondsPerBeat && r[k].stopAt == r[k].time + 0.05)
      && (forall k :: 0 <= k < n ==> (r[k].frequency == 1000.0 <==> k % beatsPerBar == 0))
  {
    var r := ClickRun(t, 1, n, secondsPerBeat, beatsPerBar);
    ClickRunElements(t, 1, n, secondsPerBeat, beatsPerBar);
    forall k | 0 <= k < n
      ensures r[k].time == t + k as real * secondsPerBeat
      ensures r[k].frequency == 1000.0 <==> k % beatsPerBar == 0
    {
      TimeAfterValue(t, k, secondsPerBeat);
      BeatCycles(k, beatsPerBar);
    }
  }

  /** The number of beats left before the limit drops by one per click. */
  lemma DecreasesStep(limit: real, before: real, spb: real)
    requires spb > 0.0 && before < limit
    ensures ((limit - before) / spb).Floor + 1 > 0
    ensures before + spb < limit ==>
      0 <= ((limit - (before + spb)) / spb).Floor + 1 < ((limit - before) / spb).Floor + 1
  {
    var x := (limit - before) / spb;
    var y := (limit - (before + spb)) / spb;
    assert x * spb == limit - before;
    assert y * spb == limit - (before + spb);
    assert (y - (x - 1.0)) * spb == 0.0;
    ZeroProduct(y - (x - 1.0), spb);
  }

  lemma ZeroProduct(z: real, c: real)
    requires c > 0.0 && z * c == 0.0
    ensures z == 0.0
  {
  }

  /** The while loop of a scheduler tick: from the next note time and beat, a click per beat
      while the time is before the limit. Gives the clicks, the time after them (at or past the
      limit) and the beat number after them. */
  method ScheduleRun(start: real, startBeat: int, limit: real, spb: real) returns (run: seq<Click>, time: real, beat: int)
    requires spb > 0.0 && 1 <= startBeat <= 4
    ensures run == ClickRun(start, startBeat, |run|, spb, 4)
    ensures time == TimeAfter(start, |run|, spb) && time >= limit
    ensures forall k :: 0 <= k < |run| ==> run[k].time < limit
    ensures beat == BeatAfter(startBeat, |run|, 4) && 1 <= beat <= 4
  {
    time, beat, run := start, startBeat, [];
    while time < limit
      invariant run == ClickRun(start, startBeat, |run|, spb, 4)
      invariant time == TimeAfter(start, |run|, spb)
      invariant forall k :: 0 <= k < |run| ==> run[k].time < limit
      invariant beat == BeatAfter(startBeat, |run|, 4) && 1 <= beat <= 4
      decreases if time < limit then ((limit - time) / spb).Floor + 1 else 0
    {
      DecreasesStep(limit, time, spb);
      run := run + [ClickAt(time, beat)];
      beat := NextBeat(beat, 4);
      time := time + spb;
    }
  }

  // ---------------------------------------------------------------- the hook

  class Metronome {
    const hasContext: bool
    var metronomeState: MetronomeState
    var nextNoteTime: real
    var currentBeatRef: int
    /** Whether a scheduler timeout is pending. */
    var timerActive: bool
    /** The tempo of the current run, fixed when it was started. */
    var runBpm: real
    /** Every click scheduled so far. */
    var clicks: seq<Click>

    ghost predicate Valid()
      reads this
    {
      && metronomeState.beatsPerBar == 4 && metronomeState.bpm > 0.0 && runBpm > 0.0
      && 1 <= currentBeatRef <= metronomeState.beatsPerBar
    }

    constructor(context: bool)
      ensures Valid() && metronomeState == InitialState
      ensures nextNoteTime == 0.0 && currentBeatRef == 1 && !timerActive && clicks == [] && hasContext == context
    {
      hasContext := context;
      metronomeState := InitialState;
      nextNoteTime, currentBeatRef, timerActive := 0.0, 1, false;
      runBpm, clicks := 120.0, [];
    }

    /** One scheduler tick at time `now`: every click due before now + 0.1 is scheduled,
        one beat of the run's tempo apart, and the next note time ends at or past now + 0.1. */
    method Scheduler(now: real)
      requires Valid()
      modifies this
      ensures Valid()
      ensures !hasContext ==> clicks == old(clicks) && nextNoteTime == old(nextNoteTime)
                              && currentBeatRef == old(currentBeatRef) && metronomeState == old(metronomeState)
      ensures hasContext ==>
        && |old(clicks)| <= |clicks|
        && var n := |clicks| - |old(clicks)|;
           var spb := 60.0 / runBpm;
           && clicks == old(clicks) + ClickRun(old(nextNoteTime), old(currentBeatRef), n, spb, 4)
           && nextNoteTime == TimeAfter(old(nextNoteTime), n, spb)
           && nextNoteTime >= now + ScheduleAheadTime
           && (forall k :: |old(clicks)| <= k < |clicks| ==> clicks[k].time < now + ScheduleAheadTime)
           && currentBeatRef == BeatAfter(old(currentBeatRef), n, 4)
           && metronomeState == old(metronomeState).(currentBeat := if n == 0 then old(metronomeState).currentBeat else currentBeatRef)
      ensures timerActive == old(timerActive) && runBpm == old(runBpm)
    {
      if !hasContext {
        return;
      }
      var run, time, beat := ScheduleRun(nextNoteTime, currentBeatRef, now + ScheduleAheadTime, 60.0 / runBpm);
      clicks, currentBeatRef, nextNoteTime := clicks + run, beat, time;
      if |run| > 0 {
        metronomeState := metronomeState.(currentBeat := beat);
      }
      assert clicks[..|old(clicks)|] == old(clicks) && |clicks| - |old(clicks)| == |run|;
    }

    /** Without a context nothing happens. Otherwise the beat is reset to 1 and the next note
        time to now, so the first click is a downbeat at once; the run takes the current
        tempo, the first tick runs, and the metronome is playing. */
    method StartMetronome(now: real)
      requires Valid()
      modifies this
      ensures Valid()
      ensures !hasContext ==>
        && metronomeState == old(metronomeState) && clicks == old(clicks) && timerActive == old(timerActive)
        && nextNoteTime == old(nextNoteTime) && currentBeatRef == old(currentBeatRef) && runBpm == old(runBpm)
      ensures hasContext ==>
        && runBpm == old(metronomeState).bpm && timerActive
        && |clicks| > |old(clicks)| && clicks[|old(clicks)|] == ClickAt(now, 1)
        && var n := |clicks| - |old(clicks)|;
           var spb := 60.0 / old(metronomeState).bpm;
           && clicks == old(clicks) + ClickRun(now, 1, n, spb, 4)
           && nextNoteTime == TimeAfter(now, n, spb) && nextNoteTime >= now + ScheduleAheadTime
           && (forall k :: |old(clicks)| <= k < |clicks| ==> clicks[k].time < now + ScheduleAheadTime)
           && currentBeatRef == BeatAfter(1, n, 4)
           && metronomeState == old(metronomeState).(currentBeat := currentBeatRef, isPlaying := true)
    {
      if !hasContext {
        return;
      }
      currentBeatRef := 1;
      nextNoteTime := now;
      runBpm := metronomeState.bpm;
      Scheduler(now);
      ClickRunElements(now, 1, |clicks| - |old(clicks)|, 60.0 / runBpm, 4);
      timerActive := true;
      metronomeState := metronomeState.(isPlaying := true);
    }

    /** Clears the timer and shows beat 1, not playing; the next note time is left alone. */
    method StopMetronome()
      requires Valid()
      modifies this
      ensures Valid()
      ensures !timerActive && metronomeState == old(metronomeState).(isPlaying := false, currentBeat := 1)
      ensures nextNoteTime == old(nextNoteTime) && clicks == old(clicks) && currentBeatRef == old(currentBeatRef)
      ensures runBpm == old(runBpm)
    {
      timerActive := false;
      metronomeState := metronomeState.(isPlaying := false, currentBeat := 1);
    }

    /** Changes only the tempo; a running tick keeps the tempo of its run. */
    method SetBpm(bpm: real)
      requires Valid() && bpm > 0.0
      modifies this
      ensures Valid()
      ensures metronomeState == old(metronomeState).(bpm := bpm)
      ensures runBpm == old(runBpm) && nextNoteTime == old(nextNoteTime) && clicks == old(clicks)
      ensures timerActive == old(timerActive) && currentBeatRef == old(currentBeatRef)
    {
      metronomeState := metronomeState.(bpm := bpm);
    }

    /** Stops a playing metronome and starts a stopped one, with the outcome of
        StopMetronome or StartMetronome. */
    method ToggleMetronome(now: real)
      requires Valid()
      modifies this
      ensures Valid()
      ensures old(metronomeState).isPlaying ==>
        && !timerActive && metronomeState == old(metronomeState).(isPlaying := false, currentBeat := 1)
        && clicks == old(clicks) && nextNoteTime == old(nextNoteTime)
        && currentBeatRef == old(currentBeatRef) && runBpm == old(runBpm)
      ensures !old(metronomeState).isPlaying && !hasContext ==>
        && metronomeState == old(metronomeState) && clicks == old(clicks) && timerActive == old(timerActive)
        && nextNoteTime == old(nextNoteTime) && currentBeatRef == old(currentBeatRef) && runBpm == old(runBpm)
      ensures !old(metronomeState).isPlaying && hasContext ==>
        && runBpm == old(metronomeState).bpm && timerActive
        && |clicks| > |old(clicks)| && clicks[|old(clicks)|] == ClickAt(now, 1)
        && var n := |clicks| - |old(clicks)|;
           var spb := 60.0 / old(metronomeState).bpm;
           && clicks == old(clicks) + ClickRun(now, 1, n, spb, 4)
           && nextNoteTime == TimeAfter(now, n, spb) && nextNoteTime >= now + ScheduleAheadTime
           && (forall k :: |old(clicks)| <= k < |clicks| ==> clicks[k].time < now + ScheduleAheadTime)
           && currentBeatRef == BeatAfter(1, n, 4)
           && metronomeState == old(metronomeState).(currentBeat := currentBeatRef, isPlaying := true)
    {
      if metronomeState.isPlaying {
        StopMetronome();
      } else {
        StartMetronome(now);
      }
    }
  }
}
