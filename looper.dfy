/**
  The looper: every recorded track plays as a looping buffer source, and a
  scheduler tick, run every 25 ms, restarts all tracks at each loop boundary
  and tracks the current bar. Ticks are explicit calls carrying the context's
  current time. `Tick` reads the looper state as it is now; `TickAsWritten` reads
  the state the timer's tick was made with, as the component's running timer does.
 */
module Looper {
  import opened Common
  import opened AudioNodes
  import opened TrackList

  const ScheduleAheadTime: real := 0.1
  const SchedulerInterval: int := 25

  function SecondsPerBeat(bpm: real): real
    requires bpm > 0.0
  {
    60.0 / bpm
  }

  /** Four beats to the bar. */
  function SecondsPerBar(bpm: real): (r: real)
    requires bpm > 0.0
    ensures r > 0.0
  {
    SecondsPerBeat(bpm) * 4.0
  }

  function LoopDuration(bpm: real, totalBars: int): real
    requires bpm > 0.0
  {
    SecondsPerBar(bpm) * totalBars as real
  }

  /** A looping buffer source playing one track. */
  datatype Source = Source(trackId: string, buffer: nat, loop: bool, loopEnd: real,
                           startAt: real, stopped: bool, connected: bool)

  /** The source `scheduleTrack` starts: looping, ending each pass at the loop duration. */
  function NewSource(track: Track, when: real, loopDuration: real): Source
  {
    Source(track.id, track.buffer, true, loopDuration, when, false, true)
  }

  function Halt(s: Source): Source { s.(stopped := true, connected := false) }

  /** One `scheduleTrack(track, when)`: the new map and the sources it stopped. An existing
      source for the track's id is stopped and disconnected before the new one replaces it. */
  function ScheduleOne(m: Entries<string, Source>, track: Track, when: real, loopDuration: real)
    : (r: (Entries<string, Source>, seq<Source>))
    ensures r.0 == Put(m, track.id, NewSource(track, when, loopDuration))
    ensures Get(m, track.id).Some? ==> r.1 == [Halt(Get(m, track.id).value)]
    ensures Get(m, track.id).None? ==> r.1 == []
  {
    var existing := Get(m, track.id);
    var stopped := if existing.Some? then [Halt(existing.value)] else [];
    (Put(m, track.id, NewSource(track, when, loopDuration)), stopped)
  }

  /** `tracks.forEach(track => scheduleTrack(track, when))`. */
  function ScheduleAll(m: Entries<string, Source>, tracks: seq<Track>, when: real, loopDuration: real)
    : (r: (Entries<string, Source>, seq<Source>))
    ensures DistinctKeys(m) ==> DistinctKeys(r.0)
    decreases |tracks|
  {
    if tracks == [] then (m, [])
    else
      var (m', s') := ScheduleOne(m, tracks[0], when, loopDuration);
      var (m'', s'') := ScheduleAll(m', tracks[1..], when, loopDuration);
      (m'', s' + s'')
  }

  /** The k-th loop boundary of a run started at `start`. */
  function Boundary(start: real, k: nat, loopDuration: real): real
  {
    if k == 0 then start else Boundary(start, k - 1, loopDuration) + loopDuration
  }

  /** The k-th boundary lies k loop durations after the start. */
  lemma {:induction false} BoundaryValue(start: real, k: nat, loopDuration: real)
    ensures Boundary(start, k, loopDuration) == start + k as real * loopDuration
  {
    if k > 0 {
      BoundaryValue(start, k - 1, loopDuration);
      assert (k - 1) as real * loopDuration + loopDuration == k as real * loopDuration;
    }
  }

  /** The looper state record. */
  datatype LooperState = LooperState(isPlaying: bool, currentBar: int, nextLoopTime: real)

  const Stopped := LooperState(false, 1, 0.0)

  /** The bar the tick computes from the loop start before any advance. */
  function BarCandidate(now: real, nextLoopTime: real, loopDuration: real, secondsPerBar: real): int
    requires secondsPerBar > 0.0
  {
    ((now - (nextLoopTime - loopDuration)) / secondsPerBar).Floor + 1
  }

  /** Whether a tick at `now` restarts the tracks: the boundary is within the lookahead. */
  predicate Fires(st: LooperState, now: real)
  {
    now + ScheduleAheadTime >= st.nextLoopTime
  }

  /** The two state updates of a tick that decides from the state `seen` and updates the
      state `st`: when `seen` is at a boundary, advance the loop time of `st` by one loop and
      reset its bar to 1; then store the bar candidate computed from `seen` if it differs from
      the bar of `seen` and does not exceed the number of bars. The tests read the state the
      tick holds; the updates apply to the state as it is. */
  function AdvanceSeen(seen: LooperState, st: LooperState, now: real, bpm: real, totalBars: int): LooperState
    requires bpm > 0.0
  {
    var loopDuration := LoopDuration(bpm, totalBars);
    var st1 := if Fires(seen, now) then st.(nextLoopTime := st.nextLoopTime + loopDuration, currentBar := 1) else st;
    var c := BarCandidate(now, seen.nextLoopTime, loopDuration, SecondsPerBar(bpm));
    if c != seen.currentBar && c <= totalBars then st1.(currentBar := c) else st1
  }

  /** A tick that reads the current state. */
  function Advance(st: LooperState, now: real, bpm: real, totalBars: int): LooperState
    requires bpm > 0.0
  {
    AdvanceSeen(st, st, now, bpm, totalBars)
  }

  // ---------------------------------------------------------------- properties

  /** A tick moves the loop time by exactly one loop duration when it fires, and not at all
      otherwise; playing is untouched. */
  lemma AdvanceByOneLoop(st: LooperState, now: real, bpm: real, totalBars: int)
    requires bpm > 0.0
    ensures Advance(st, now, bpm, totalBars).nextLoopTime
            == st.nextLoopTime + if Fires(st, now) then LoopDuration(bpm, totalBars) else 0.0
    ensures Advance(st, now, bpm, totalBars).isPlaying == st.isPlaying
  {
  }

  /** The loop duration is 240 / bpm seconds per bar, times the number of bars. */
  lemma LoopDurationValue(bpm: real, totalBars: int)
    requires bpm > 0.0
    ensures LoopDuration(bpm, totalBars) * bpm == 240.0 * totalBars as real
  {
    assert SecondsPerBeat(bpm) * bpm == 60.0;
  }

  /** Inside a loop pass, the candidate is a bar number between 1 and the number of bars. */
  lemma {:induction false} BarWithinPass(now: real, nextLoopTime: real, bpm: real, totalBars: int)
    requires bpm > 0.0 && totalBars >= 1
    requires nextLoopTime - LoopDuration(bpm, totalBars) <= now < nextLoopTime
    ensures 1 <= BarCandidate(now, nextLoopTime, LoopDuration(bpm, totalBars), SecondsPerBar(bpm)) <= totalBars
  {
    var spb, l := SecondsPerBar(bpm), LoopDuration(bpm, totalBars);
    var e := now - (nextLoopTime - l);
    var q := e / spb;
    assert q * spb == e;
    assert 0.0 <= q;
    assert q < totalBars as real;
  }

  /** During the 0.1 s lead before the first pass (at tempos up to 2400 bpm, where a bar
      lasts at least 0.1 s), the candidate is bar 0: nothing bounds it from below. */
  lemma {:induction false} BarZeroInLead(now: real, nextLoopTime: real, bpm: real, totalBars: int)
    requires 0.0 < bpm <= 2400.0
    requires nextLoopTime - LoopDuration(bpm, totalBars) - ScheduleAheadTime <= now < nextLoopTime - LoopDuration(bpm, totalBars)
    ensures BarCandidate(now, nextLoopTime, LoopDuration(bpm, totalBars), SecondsPerBar(bpm)) == 0
  {
    var spb, l := SecondsPerBar(bpm), LoopDuration(bpm, totalBars);
    var e := now - (nextLoopTime - l);
    var q := e / spb;
    assert q * spb == e;
    assert spb * bpm == 240.0 by {
      assert SecondsPerBeat(bpm) * bpm == 60.0;
    }
    TenthOfSecond(spb, bpm);
    assert q < 0.0;
    assert q >= -1.0;
  }

  /** A bar of at most 2400 bpm lasts at least a tenth of a second. */
  lemma TenthOfSecond(spb: real, bpm: real)
    requires 0.0 < bpm <= 2400.0 && spb * bpm == 240.0
    ensures spb >= 0.1
  {
  }

  /** A tick that holds the stopped state fires at every time from -0.1 s on, and its bar
      candidate always exceeds the number of bars: every such tick pushes the loop time of the
      current state one loop further and shows bar 1. */
  lemma {:induction false} StaleTickRestarts(st: LooperState, now: real, bpm: real, totalBars: int)
    requires bpm > 0.0 && totalBars >= 0 && now >= 0.0
    ensures Fires(Stopped, now)
    ensures AdvanceSeen(Stopped, st, now, bpm, totalBars)
            == st.(nextLoopTime := st.nextLoopTime + LoopDuration(bpm, totalBars), currentBar := 1)
  {
    var spb, l := SecondsPerBar(bpm), LoopDuration(bpm, totalBars);
    var q := (now - (0.0 - l)) / spb;
    assert q * spb == now + spb * totalBars as real;
    assert (q - totalBars as real) * spb == now;
    if q < totalBars as real {
      PositiveProduct(totalBars as real - q, spb);
    }
    assert BarCandidate(now, 0.0, l, spb) > totalBars;
  }

  lemma PositiveProduct(x: real, y: real)
    requires x > 0.0 && y > 0.0
    ensures x * y > 0.0
  {
  }

  /** On the last bar just before a boundary the candidate equals the bar already shown, so
      the reset to 1 stands. */
  lemma BoundaryShowsBarOne(bpm: real, nextLoopTime: real)
    requires bpm == 120.0
    ensures var st := LooperState(true, 4, nextLoopTime);
      Advance(st, nextLoopTime - 0.05, bpm, 4) == LooperState(true, 1, nextLoopTime + 8.0)
  {
    var l := LoopDuration(bpm, 4);
    assert SecondsPerBar(bpm) == 2.0 && l == 8.0;
    var e := (nextLoopTime - 0.05) - (nextLoopTime - l);
    assert e == 7.95;
    assert (e / 2.0).Floor == 3;
  }

  /** After scheduling, a track's id maps to a fresh looping source starting at `when`, taken
      from the last track with that id; every other key keeps its source. */
  lemma {:induction false} ScheduledSource(m: Entries<string, Source>, tracks: seq<Track>, when: real,
                                           loopDuration: real, id: string)
    requires DistinctKeys(m)
    ensures Get(ScheduleAll(m, tracks, when, loopDuration).0, id)
            == if exists i :: 0 <= i < |tracks| && tracks[i].id == id
               then Some(NewSource(tracks[LastIndex(tracks, id)], when, loopDuration))
               else Get(m, id)
    decreases |tracks|
  {
    if tracks != [] {
      var m' := ScheduleOne(m, tracks[0], when, loopDuration).0;
      assert ScheduleAll(m, tracks, when, loopDuration).0 == ScheduleAll(m', tracks[1..], when, loopDuration).0;
      GetPut(m, tracks[0].id, NewSource(tracks[0], when, loopDuration), id);
      ScheduledSource(m', tracks[1..], when, loopDuration, id);
      if exists i :: 1 <= i < |tracks| && tracks[i].id == id {
        var i :| 1 <= i < |tracks| && tracks[i].id == id;
        assert tracks[1..][i - 1].id == id;
        assert tracks[LastIndex(tracks, id)] == tracks[1..][LastIndex(tracks[1..], id)];
      } else {
        AbsentFromTail(tracks, id);
      }
    }
  }

  /** No track after the first has the id, so the tail has none either. */
  lemma AbsentFromTail(tracks: seq<Track>, id: string)
    requires tracks != [] && forall i :: 1 <= i < |tracks| ==> tracks[i].id != id
    ensures forall i :: 0 <= i < |tracks[1..]| ==> tracks[1..][i].id != id
  {
    forall i | 0 <= i < |tracks[1..]| ensures tracks[1..][i].id != id {
      assert tracks[1..][i] == tracks[i + 1];
    }
  }

  /** Every track has a looping source that ends each pass at the loop duration. */
  predicate AllLooping(m: Entries<string, Source>, tracks: seq<Track>, loopDuration: real)
  {
    forall t :: t in tracks ==>
      Get(m, t.id).Some? && Get(m, t.id).value.loop && Get(m, t.id).value.loopEnd == loopDuration
  }

  /** Every track has a source that starts at `when`. */
  predicate AllStartAt(m: Entries<string, Source>, tracks: seq<Track>, when: real)
  {
    forall t :: t in tracks ==> Get(m, t.id).Some? && Get(m, t.id).value.startAt == when
  }

  /** After scheduling a list of tracks at `when` every one of them is looping from `when`. */
  lemma ScheduledAllLoop(m: Entries<string, Source>, tracks: seq<Track>, when: real, loopDuration: real)
    requires DistinctKeys(m)
    ensures AllLooping(ScheduleAll(m, tracks, when, loopDuration).0, tracks, loopDuration)
    ensures AllStartAt(ScheduleAll(m, tracks, when, loopDuration).0, tracks, when)
  {
    forall t | t in tracks
      ensures var g := Get(ScheduleAll(m, tracks, when, loopDuration).0, t.id);
              g.Some? && g.value.loop && g.value.loopEnd == loopDuration && g.value.startAt == when
    {
      var i :| 0 <= i < |tracks| && tracks[i] == t;
      ScheduledSource(m, tracks, when, loopDuration, t.id);
    }
  }

  /** The index of the last track with the given id (0 when there is none). */
  function LastIndex(tracks: seq<Track>, id: string): (i: nat)
    ensures (exists j :: 0 <= j < |tracks| && tracks[j].id == id) ==>
              i < |tracks| && tracks[i].id == id && forall j :: i < j < |tracks| ==> tracks[j].id != id
    decreases |tracks|
  {
    if tracks == [] then 0
    else if exists j :: 1 <= j < |tracks| && tracks[j].id == id then
      var j :| 1 <= j < |tracks| && tracks[j].id == id;
      assert tracks[1..][j - 1].id == id;
      1 + LastIndex(tracks[1..], id)
    else 0
  }

  /** A source that is replaced is stopped and disconnected: the old source of every
      rescheduled id ends up in the stopped list. */
  lemma {:induction false} ReplacedSourceStopped(m: Entries<string, Source>, tracks: seq<Track>, when: real,
                                                 loopDuration: real, k: nat)
    requires DistinctKeys(m) && k < |tracks| && Get(m, tracks[k].id).Some?
    requires forall j :: 0 <= j < k ==> tracks[j].id != tracks[k].id
    ensures Halt(Get(m, tracks[k].id).value) in ScheduleAll(m, tracks, when, loopDuration).1
    decreases |tracks|
  {
    var (m', s') := ScheduleOne(m, tracks[0], when, loopDuration);
    if k > 0 {
      GetPut(m, tracks[0].id, NewSource(tracks[0], when, loopDuration), tracks[k].id);
      assert tracks[1..][k - 1] == tracks[k];
      ReplacedSourceStopped(m', tracks[1..], when, loopDuration, k - 1);
    }
  }

  /** Scheduling one more track schedules the list, then that track. */
  lemma {:induction false} ScheduleAllSnoc(m: Entries<string, Source>, tracks: seq<Track>, track: Track,
                                           when: real, loopDuration: real)
    ensures var all := ScheduleAll(m, tracks, when, loopDuration);
      var one := ScheduleOne(all.0, track, when, loopDuration);
      ScheduleAll(m, tracks + [track], when, loopDuration) == (one.0, all.1 + one.1)
    decreases |tracks|
  {
    if tracks == [] {
      assert [] + [track] == [track] && [track][1..] == [];
      var one := ScheduleOne(m, track, when, loopDuration);
      assert one.1 + [] == one.1 && [] + one.1 == one.1;
    } else {
      var first := ScheduleOne(m, tracks[0], when, loopDuration);
      assert (tracks + [track])[0] == tracks[0];
      assert (tracks + [track])[1..] == tracks[1..] + [track];
      ScheduleAllSnoc(first.0, tracks[1..], track, when, loopDuration);
      var rest := ScheduleAll(first.0, tracks[1..], when, loopDuration);
      var one := ScheduleOne(rest.0, track, when, loopDuration);
      assert first.1 + (rest.1 + one.1) == (first.1 + rest.1) + one.1;
    }
  }

  // ---------------------------------------------------------------- the hook

  class Looper {
    const hasContext: bool
    const hasOutputGain: bool
    const bpm: real
    const totalBars: int
    var looperState: LooperState
    /** Whether a scheduler timeout is pending. */
    var schedulerActive: bool
    var playbackSources: Entries<string, Source>
    /** Every source stopped so far, in stop order. */
    var retired: seq<Source>
    /** The looper state of the render in which the running timer's tick was made: the
        state the source's tick tests and reads its loop time from. */
    var tickView: LooperState
    /** The start time of the current run and how many boundaries it has passed. */
    ghost var playStart: real
    ghost var loops: nat

    /** While playing, the loop boundaries are start + k * loopDuration: the next one is
        one loop after the last one passed. */
    ghost predicate Valid()
      reads this
    {
      && bpm > 0.0 && DistinctKeys(playbackSources)
      && (looperState.isPlaying ==>
            looperState.nextLoopTime == Boundary(playStart, loops + 1, LoopDuration(bpm, totalBars)))
    }

    constructor(context: bool, outputGain: bool, bpm: real, totalBars: int)
      requires bpm > 0.0
      ensures Valid() && looperState == Stopped && !schedulerActive && tickView == Stopped
      ensures playbackSources == [] && retired == []
      ensures hasContext == context && hasOutputGain == outputGain && this.bpm == bpm && this.totalBars == totalBars
    {
      hasContext, hasOutputGain := context, outputGain;
      this.bpm, this.totalBars := bpm, totalBars;
      looperState, schedulerActive, tickView := Stopped, false, Stopped;
      playbackSources, retired := [], [];
      playStart, loops := 0.0, 0;
    }

    /** Without a context and an output gain nothing happens; otherwise any source of this
        track is stopped and replaced by a new looping source starting at `when`. */
    method ScheduleTrack(track: Track, when: real)
      requires Valid()
      modifies this
      ensures Valid()
      ensures hasContext && hasOutputGain ==>
        && playbackSources == ScheduleOne(old(playbackSources), track, when, LoopDuration(bpm, totalBars)).0
        && retired == old(retired) + ScheduleOne(old(playbackSources), track, when, LoopDuration(bpm, totalBars)).1
      ensures !(hasContext && hasOutputGain) ==> playbackSources == old(playbackSources) && retired == old(retired)
      ensures looperState == old(looperState) && schedulerActive == old(schedulerActive)
      ensures playStart == old(playStart) && loops == old(loops) && tickView == old(tickView)
    {
      if !hasContext || !hasOutputGain {
        return;
      }
      var existing := Get(playbackSources, track.id);
      if existing.Some? {
        retired := retired + [Halt(existing.value)];
      }
      playbackSources := Put(playbackSources, track.id, NewSource(track, when, LoopDuration(bpm, totalBars)));
    }

    /** Schedules every track at `when`, in order. */
    method ScheduleTracks(tracks: seq<Track>, when: real)
      requires Valid()
      modifies this
      ensures Valid()
      ensures hasContext && hasOutputGain ==>
        && playbackSources == ScheduleAll(old(playbackSources), tracks, when, LoopDuration(bpm, totalBars)).0
        && retired == old(retired) + ScheduleAll(old(playbackSources), tracks, when, LoopDuration(bpm, totalBars)).1
      ensures !(hasContext && hasOutputGain) ==> playbackSources == old(playbackSources) && retired == old(retired)
      ensures looperState == old(looperState) && schedulerActive == old(schedulerActive)
      ensures playStart == old(playStart) && loops == old(loops) && tickView == old(tickView)
    {
      ghost var l := LoopDuration(bpm, totalBars);
      ghost var m0 := playbackSources;
      for i := 0 to |tracks|
        invariant Valid()
        invariant hasContext && hasOutputGain ==>
          && playbackSources == ScheduleAll(m0, tracks[..i], when, l).0
          && retired == old(retired) + ScheduleAll(m0, tracks[..i], when, l).1
        invariant !(hasContext && hasOutputGain) ==> playbackSources == m0 && retired == old(retired)
        invariant looperState == old(looperState) && schedulerActive == old(schedulerActive)
        invariant playStart == old(playStart) && loops == old(loops) && tickView == old(tickView)
      {
        ScheduleTrack(tracks[i], when);
        assert tracks[..i + 1] == tracks[..i] + [tracks[i]];
        ScheduleAllSnoc(m0, tracks[..i], tracks[i], when, l);
      }
      assert tracks[..|tracks|] == tracks;
    }

    /** One scheduler tick at time `now`; without a context it does nothing. */
    method Tick(tracks: seq<Track>, now: real)
      requires Valid()
      modifies this
      ensures Valid()
      ensures !hasContext ==> looperState == old(looperState) && playbackSources == old(playbackSources) && retired == old(retired)
      ensures hasContext ==> looperState == Advance(old(looperState), now, bpm, totalBars)
      ensures hasContext && Fires(old(looperState), now) && hasOutputGain ==>
        && playbackSources == ScheduleAll(old(playbackSources), tracks, old(looperState).nextLoopTime, LoopDuration(bpm, totalBars)).0
        && retired == old(retired) + ScheduleAll(old(playbackSources), tracks, old(looperState).nextLoopTime, LoopDuration(bpm, totalBars)).1
      ensures hasContext && Fires(old(looperState), now) && !hasOutputGain ==>
        playbackSources == old(playbackSources) && retired == old(retired)
      ensures !Fires(old(looperState), now) ==> playbackSources == old(playbackSources) && retired == old(retired)
      ensures schedulerActive == old(schedulerActive) && tickView == old(tickView)
    {
      if !hasContext {
        return;
      }
      var st := looperState;
      var loopDuration := LoopDuration(bpm, totalBars);
      if now + ScheduleAheadTime >= st.nextLoopTime {
        ScheduleTracks(tracks, st.nextLoopTime);
        looperState := looperState.(nextLoopTime := looperState.nextLoopTime + loopDuration, currentBar := 1);
        loops := loops + 1;
      }
      var currentBar := BarCandidate(now, st.nextLoopTime, loopDuration, SecondsPerBar(bpm));
      if currentBar != st.currentBar && currentBar <= totalBars {
        looperState := looperState.(currentBar := currentBar);
      }
    }

    /** One scheduler tick at time `now` as the running timer performs it: the tick is the
        one made in the render before playback started, so the boundary test, the time the
        tracks are restarted at and the bar candidate all use the state it holds,
        `tickView`, while its updates apply to the current state. */
    method TickAsWritten(tracks: seq<Track>, now: real)
      requires Valid()
      modifies this
      ensures Valid()
      ensures !hasContext ==> looperState == old(looperState) && playbackSources == old(playbackSources) && retired == old(retired)
      ensures hasContext ==> looperState == AdvanceSeen(old(tickView), old(looperState), now, bpm, totalBars)
      ensures hasContext && Fires(old(tickView), now) && hasOutputGain ==>
        && playbackSources == ScheduleAll(old(playbackSources), tracks, old(tickView).nextLoopTime, LoopDuration(bpm, totalBars)).0
        && retired == old(retired) + ScheduleAll(old(playbackSources), tracks, old(tickView).nextLoopTime, LoopDuration(bpm, totalBars)).1
      ensures hasContext && Fires(old(tickView), now) && !hasOutputGain ==>
        playbackSources == old(playbackSources) && retired == old(retired)
      ensures !Fires(old(tickView), now) ==> playbackSources == old(playbackSources) && retired == old(retired)
      ensures schedulerActive == old(schedulerActive) && tickView == old(tickView)
    {
      if !hasContext {
        return;
      }
      var seen := tickView;
      var loopDuration := LoopDuration(bpm, totalBars);
      if now + ScheduleAheadTime >= seen.nextLoopTime {
        ScheduleTracks(tracks, seen.nextLoopTime);
        looperState := looperState.(nextLoopTime := looperState.nextLoopTime + loopDuration, currentBar := 1);
        loops := loops + 1;
      }
      var currentBar := BarCandidate(now, seen.nextLoopTime, loopDuration, SecondsPerBar(bpm));
      if currentBar != seen.currentBar && currentBar <= totalBars {
        looperState := looperState.(currentBar := currentBar);
      }
    }

    /** Without a context or with no tracks nothing happens. Otherwise the run starts 0.1 s
        from now: the state is playing, bar 1, next boundary one loop after the start; every
        track is scheduled at the start; and the first tick runs at once. */
    method StartPlayback(tracks: seq<Track>, now: real)
      requires Valid()
      modifies this
      ensures Valid()
      ensures !hasContext || tracks == [] ==>
        looperState == old(looperState) && playbackSources == old(playbackSources)
        && retired == old(retired) && schedulerActive == old(schedulerActive)
      ensures hasContext && tracks != [] ==>
        var startTime := now + ScheduleAheadTime;
        var first := LooperState(true, 1, startTime + LoopDuration(bpm, totalBars));
        && looperState == Advance(first, now, bpm, totalBars)
        && schedulerActive
        && (hasOutputGain ==> AllLooping(playbackSources, tracks, LoopDuration(bpm, totalBars)))
      ensures hasContext && tracks != [] && hasOutputGain ==>
        var l := LoopDuration(bpm, totalBars);
        var startTime := now + ScheduleAheadTime;
        var scheduled := ScheduleAll(old(playbackSources), tracks, startTime, l);
        var again := if Fires(LooperState(true, 1, startTime + l), now)
                     then ScheduleAll(scheduled.0, tracks, startTime + l, l) else (scheduled.0, []);
        && playbackSources == again.0 && retired == old(retired) + scheduled.1 + again.1
        && (l > 0.0 ==> AllStartAt(playbackSources, tracks, startTime))
      ensures tickView == old(tickView)
    {
      if !hasContext || |tracks| == 0 {
        return;
      }
      var startTime := now + ScheduleAheadTime;
      looperState := LooperState(true, 1, startTime + LoopDuration(bpm, totalBars));
      playStart, loops := startTime, 0;
      // Nothing between the first tick and arming its timeout observes the flag.
      schedulerActive := true;
      ghost var first := looperState;
      ScheduleTracks(tracks, startTime);
      ghost var scheduled := playbackSources;
      Tick(tracks, now);
      assert looperState == Advance(first, now, bpm, totalBars);
      if hasOutputGain {
        ghost var l := LoopDuration(bpm, totalBars);
        if Fires(first, now) {
          assert playbackSources == ScheduleAll(scheduled, tracks, first.nextLoopTime, l).0;
          ScheduledAllLoop(scheduled, tracks, first.nextLoopTime, l);
        } else {
          assert playbackSources == scheduled == ScheduleAll(old(playbackSources), tracks, startTime, l).0;
          ScheduledAllLoop(old(playbackSources), tracks, startTime, l);
        }
      }
    }

    /** `startPlayback` as the component is written: as StartPlayback, except that the
        timer's tick is the one made in the render in which playback was started, so it holds
        the looper state from before the start, and the first tick runs at once. */
    method StartPlaybackAsWritten(tracks: seq<Track>, now: real)
      requires Valid()
      modifies this
      ensures Valid()
      ensures !hasContext || tracks == [] ==>
        looperState == old(looperState) && playbackSources == old(playbackSources)
        && retired == old(retired) && schedulerActive == old(schedulerActive) && tickView == old(tickView)
      ensures hasContext && tracks != [] ==>
        var startTime := now + ScheduleAheadTime;
        var first := LooperState(true, 1, startTime + LoopDuration(bpm, totalBars));
        && tickView == old(looperState)
        && looperState == AdvanceSeen(old(looperState), first, now, bpm, totalBars)
        && schedulerActive
      ensures hasContext && tracks != [] && hasOutputGain ==>
        var l := LoopDuration(bpm, totalBars);
        var scheduled := ScheduleAll(old(playbackSources), tracks, now + ScheduleAheadTime, l);
        var again := if Fires(old(looperState), now)
                     then ScheduleAll(scheduled.0, tracks, old(looperState).nextLoopTime, l) else (scheduled.0, []);
        && playbackSources == again.0 && retired == old(retired) + scheduled.1 + again.1
        && AllLooping(playbackSources, tracks, l)
        && (Fires(old(looperState), now) ==> AllStartAt(playbackSources, tracks, old(looperState).nextLoopTime))
    {
      if !hasContext || |tracks| == 0 {
        return;
      }
      tickView := looperState;
      var startTime := now + ScheduleAheadTime;
      looperState := LooperState(true, 1, startTime + LoopDuration(bpm, totalBars));
      playStart, loops := startTime, 0;
      schedulerActive := true;
      ScheduleTracks(tracks, startTime);
      ghost var scheduled := playbackSources;
      TickAsWritten(tracks, now);
      if hasOutputGain {
        ghost var l := LoopDuration(bpm, totalBars);
        if Fires(tickView, now) {
          ScheduledAllLoop(scheduled, tracks, tickView.nextLoopTime, l);
        } else {
          ScheduledAllLoop(old(playbackSources), tracks, startTime, l);
        }
      }
    }

    /** Clears the timer, stops and disconnects every source, empties the map and resets
        the state to not playing, bar 1, loop time 0. */
    method StopPlayback()
      requires Valid()
      modifies this
      ensures Valid()
      ensures !schedulerActive && looperState == Stopped && playbackSources == []
      ensures retired == old(retired) + HaltAll(old(playbackSources))
    {
      schedulerActive := false;
      var sources := playbackSources;
      for i := 0 to |sources|
        invariant retired == old(retired) + HaltAll(sources)[..i]
        invariant playbackSources == sources && looperState == old(looperState)
        invariant Valid() && !schedulerActive
      {
        retired := retired + [Halt(sources[i].1)];
      }
      playbackSources := [];
      looperState := Stopped;
    }
  }

  /** Scenario, as written: at 120 bpm over four bars (an 8 s loop), one track started at
      time 0 is restarted at time 0 by the first tick, and again by the next tick 25 ms later,
      and each tick pushes the next boundary one loop further; the source started for 0.1 s
      is stopped at once. */
  method StalePlaybackRestartsEveryTick() returns (afterStart: LooperState, afterTick: LooperState,
                                                   startAfterStart: real, startAfterTick: real, stopped: nat)
    ensures afterStart == LooperState(true, 1, 16.1) && afterTick == LooperState(true, 1, 24.1)
    ensures startAfterStart == 0.0 && startAfterTick == 0.0 && stopped == 2
  {
    var t := Track("t1", 0, "Track 1", 0);
    var looper := new Looper(true, true, 120.0, 4);
    assert LoopDuration(120.0, 4) == 8.0;
    looper.StartPlaybackAsWritten([t], 0.0);
    StaleTickRestarts(LooperState(true, 1, 8.1), 0.0, 120.0, 4);
    afterStart := looper.looperState;
    assert t in [t];
    startAfterStart := Get(looper.playbackSources, t.id).value.startAt;
    ghost var sources := looper.playbackSources;
    looper.TickAsWritten([t], 0.025);
    StaleTickRestarts(afterStart, 0.025, 120.0, 4);
    afterTick := looper.looperState;
    ScheduledAllLoop(sources, [t], 0.0, 8.0);
    startAfterTick := Get(looper.playbackSources, t.id).value.startAt;
    stopped := |looper.retired|;
  }

  /** Scenario, as intended: the same start leaves the track playing from 0.1 s, with the
      first boundary at 8.1 s; a tick 25 ms later restarts nothing. The bar shown is 0 during
      the 0.1 s lead. */
  method CurrentPlaybackKeepsStart() returns (afterStart: LooperState, afterTick: LooperState,
                                              startAfterStart: real, startAfterTick: real, stopped: nat)
    ensures afterStart == LooperState(true, 0, 8.1) && afterTick == afterStart
    ensures startAfterStart == 0.1 && startAfterTick == 0.1 && stopped == 0
  {
    var t := Track("t1", 0, "Track 1", 0);
    var looper := new Looper(true, true, 120.0, 4);
    assert LoopDuration(120.0, 4) == 8.0 && SecondsPerBar(120.0) == 2.0;
    looper.StartPlayback([t], 0.0);
    afterStart := looper.looperState;
    assert t in [t];
    startAfterStart := Get(looper.playbackSources, t.id).value.startAt;
    looper.Tick([t], 0.025);
    afterTick := looper.looperState;
    startAfterTick := Get(looper.playbackSources, t.id).value.startAt;
    stopped := |looper.retired|;
  }

  /** The stopped forms of every source, in map order. */
  function HaltAll(m: Entries<string, Source>): (r: seq<Source>)
    ensures |r| == |m|
    ensures forall i :: 0 <= i < |m| ==> r[i] == Halt(m[i].1) && r[i].stopped && !r[i].connected
  {
    seq(|m|, i requires 0 <= i < |m| => Halt(m[i].1))
  }
}
