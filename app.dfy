/**
  The application component: the pitch handler that turns a confident pitch
  into a quantised harmony and sounds it, and the record, play and stop
  handlers that drive the recorder and the looper. The synthesiser, recorder
  and looper hooks are the objects the component owns; the clock is a
  parameter, the auto-stop timer a queue of pending delays whose expiry is an
  explicit call, and midiToFrequency the uninterpreted `hz`.
 */
module App {
  import opened Common
  import opened Harmony
  import opened TrackList
  import AudioNodes
  import SynthesizerHook
  import Recorder
  import Looper

  /** The note the detector attached to a pitch. */
  datatype NoteInfo = NoteInfo(note: string, octave: int, midi: int, cents: int)

  datatype PitchData = PitchData(pitch: real, confidence: real, note: Option<NoteInfo>, timestamp: real)

  datatype LoopState = LoopState(isRecording: bool, isPlaying: bool, currentBar: int, totalBars: int, bpm: real)

  datatype HarmonySettings = HarmonySettings(key: string, scale: Scale, voicing: string)

  const InitialLoopState := LoopState(false, false, 1, 4, 120.0)
  const InitialSettings := HarmonySettings("C", Major, "triad")

  /** The gate of the pitch handler: a note is attached and the confidence exceeds 0.8. */
  predicate Confident(data: PitchData)
  {
    data.note.Some? && data.confidence > 0.8
  }

  /** The auto-stop delay in milliseconds: `(60 / bpm) * 4 * 1000 * totalBars`. */
  function AutoStopDelay(bpm: real, totalBars: int): real
    requires bpm > 0.0
  {
    (60.0 / bpm) * 4.0 * 1000.0 * totalBars as real
  }

  /** The auto-stop fires after exactly one loop of the looper, in milliseconds. */
  lemma AutoStopIsOneLoop(bpm: real, totalBars: int)
    requires bpm > 0.0
    ensures AutoStopDelay(bpm, totalBars) == Looper.LoopDuration(bpm, totalBars) * 1000.0
  {
  }

  /** The bass of a generated harmony sounds the quantised pitch class, which lies in the
      key's scale: in the detected octave, or one octave lower for satb and open. */
  lemma BassOnQuantisedNote(d: int, key: string, scale: Scale, pc: int, octave: int, voicing: string, hz: int -> real)
    requires 0 <= pc < 12 && IsNearest(d, ScaleNotes(key, scale), pc)
    ensures pc in ScaleNotes(key, scale)
    ensures var bass := GenerateHarmony(NoteNames[pc], octave, scale, voicing, hz)[0];
            var bassOctave := if voicing == "satb" || voicing == "open" then octave - 1 else octave;
            bass.name == Bass && bass.midi == (bassOctave + 1) * 12 + pc
  {
    HarmonyFollowsTable(NoteNames[pc], octave, scale, voicing, hz, 0);
    NoteIndexOfName(pc);
  }

  /** On a named key a confident pitch determines its harmony: any two nearest scale notes
      give the same voices. */
  lemma HarmonyDetermined(d: int, key: string, scale: Scale, a: int, b: int, octave: int, voicing: string, hz: int -> real)
    requires key in NoteNames && -1 <= d < 12
    requires IsNearest(d, ScaleNotes(key, scale), a) && IsNearest(d, ScaleNotes(key, scale), b)
    ensures GenerateHarmony(NoteNames[a], octave, scale, voicing, hz) == GenerateHarmony(NoteNames[b], octave, scale, voicing, hz)
  {
    NearestUnique(d, key, scale, a, b);
  }

  /** The first two steps of the pitch handler: the detected note quantised to the scale of
      the settings, and the harmony generated on the quantised note. */
  method QuantisedHarmony(info: NoteInfo, settings: HarmonySettings, hz: int -> real) returns (h: seq<Voice>)
    requires settings.key in NoteNames
    ensures exists pc :: 0 <= pc < 12 && IsNearest(NoteIndex(info.note), ScaleNotes(settings.key, settings.scale), pc)
              && h == GenerateHarmony(NoteNames[pc], info.octave, settings.scale, settings.voicing, hz)
  {
    var quantized := QuantizeToScale(info.note, info.octave, settings.key, settings.scale);
    ghost var pc := quantized.midi - (info.octave + 1) * 12;
    h := GenerateHarmony(quantized.note, quantized.octave, settings.scale, settings.voicing, hz);
    assert h == GenerateHarmony(NoteNames[pc], info.octave, settings.scale, settings.voicing, hz);
  }

  class App {
    const synth: SynthesizerHook.Synthesizer
    const recorder: Recorder.Recorder
    const looper: Looper.Looper
    /** midiToFrequency. */
    const hz: int -> real
    var currentPitch: Option<PitchData>
    var harmony: seq<Voice>
    var loopState: LoopState
    var settings: HarmonySettings
    var latency: real
    /** `latencyRef.current`: the time of the last confident pitch. */
    var lastPitchTime: real
    /** The delays of the auto-stop timeouts not yet expired, earliest first. */
    var pendingAutoStops: seq<real>

    /** The looper runs on the loop state's tempo and bar count, and the key is one of the
        twelve names the key selector offers. */
    ghost predicate Valid()
      reads this, synth, looper
    {
      && synth.Valid() && looper.Valid()
      && loopState.bpm > 0.0
      && looper.bpm == loopState.bpm && looper.totalBars == loopState.totalBars
      && settings.key in NoteNames
    }

    constructor(stream: bool, context: bool, outputGain: bool, hz: int -> real, startTime: real)
      ensures Valid() && fresh(synth) && fresh(recorder) && fresh(looper)
      ensures loopState == InitialLoopState && settings == InitialSettings
      ensures currentPitch == None && harmony == [] && pendingAutoStops == [] && lastPitchTime == startTime
      ensures recorder.hasStream == stream && recorder.hasContext == context
      ensures !recorder.isRecording && recorder.tracks == [] && !recorder.hasRecorder
      ensures looper.hasContext == context && looper.hasOutputGain == outputGain
      ensures looper.looperState == Looper.Stopped && looper.playbackSources == [] && looper.retired == []
      ensures synth.hasContext == context && synth.hasOutputGain == outputGain
      ensures synth.oscillators == [] && synth.started == [] && synth.retired == []
      ensures this.hz == hz
    {
      synth := new SynthesizerHook.Synthesizer(context, outputGain);
      recorder := new Recorder.Recorder(stream, context);
      looper := new Looper.Looper(context, outputGain, InitialLoopState.bpm, InitialLoopState.totalBars);
      this.hz := hz;
      currentPitch, harmony := None, [];
      loopState, settings := InitialLoopState, InitialSettings;
      latency, lastPitchTime := 0.0, startTime;
      pendingAutoStops := [];
    }

    /** `onSettingsChange` from the harmony controls. */
    method SetSettings(s: HarmonySettings)
      requires Valid() && s.key in NoteNames
      modifies this
      ensures Valid() && settings == s
      ensures currentPitch == old(currentPitch) && latency == old(latency) && lastPitchTime == old(lastPitchTime)
      ensures harmony == old(harmony) && loopState == old(loopState) && pendingAutoStops == old(pendingAutoStops)
    {
      settings := s;
    }

    /** `handlePitchData` at time `now`, as intended: the pitch is always stored. A confident
        pitch is quantised to the scale of the current settings, its harmony generated and
        stored, that same harmony synthesised, and the latency measured since the previous
        confident pitch; any other pitch changes nothing else. */
    method HandlePitchData(data: PitchData, now: real)
      requires Valid()
      modifies this, synth
      ensures Valid() && currentPitch == Some(data)
      ensures settings == old(settings) && loopState == old(loopState) && pendingAutoStops == old(pendingAutoStops)
      ensures !Confident(data) ==>
        && harmony == old(harmony) && latency == old(latency) && lastPitchTime == old(lastPitchTime)
        && synth.oscillators == old(synth.oscillators) && synth.started == old(synth.started)
        && synth.retired == old(synth.retired)
      ensures Confident(data) ==>
        && (exists pc :: 0 <= pc < 12 && IsNearest(NoteIndex(data.note.value.note), ScaleNotes(settings.key, settings.scale), pc)
              && harmony == GenerateHarmony(NoteNames[pc], data.note.value.octave, settings.scale, settings.voicing, hz))
        && latency == now - old(lastPitchTime) && lastPitchTime == now
      ensures Confident(data) && synth.hasContext && synth.hasOutputGain ==>
        && synth.oscillators == AudioNodes.PutAll([], SynthesizerHook.Pairs(harmony))
        && synth.started == old(synth.started) + SynthesizerHook.Tones(harmony)
        && synth.retired == old(synth.retired) + SynthesizerHook.Teardowns(old(synth.oscillators))
      ensures Confident(data) && !(synth.hasContext && synth.hasOutputGain) ==>
        synth.oscillators == old(synth.oscillators) && synth.started == old(synth.started)
        && synth.retired == old(synth.retired)
    {
      currentPitch := Some(data);
      if data.note.Some? && data.confidence > 0.8 {
        var newHarmony := QuantisedHarmony(data.note.value, settings, hz);
        // The state updates take effect together, so they are grouped before the call.
        harmony := newHarmony;
        latency, lastPitchTime := now - lastPitchTime, now;
        synth.SynthesizeVoices(newHarmony);
        assert harmony == newHarmony && settings == old(settings);
      }
    }

    /** `handlePitchData` as the worklet's port calls it. `initializeAudio` installs the
        handler of the render in which Start Audio was pressed, and the button is disabled
        from then on, so that handler is never replaced. In that render the settings were
        still the initial C / major / triad (the harmony controls appear only once audio has
        started), and its `synthesizeVoices` was made while the audio context was still
        null, so it returns at its guard. The harmony is stored and the latency measured, but
        nothing sounds and later settings are never read. */
    method HandlePitchDataAsWritten(data: PitchData, now: real)
      requires Valid()
      modifies this
      ensures Valid() && currentPitch == Some(data)
      ensures settings == old(settings) && loopState == old(loopState) && pendingAutoStops == old(pendingAutoStops)
      ensures !Confident(data) ==>
        harmony == old(harmony) && latency == old(latency) && lastPitchTime == old(lastPitchTime)
      ensures Confident(data) ==>
        && (exists pc :: 0 <= pc < 12 && IsNearest(NoteIndex(data.note.value.note), ScaleNotes(InitialSettings.key, InitialSettings.scale), pc)
              && harmony == GenerateHarmony(NoteNames[pc], data.note.value.octave, InitialSettings.scale, InitialSettings.voicing, hz))
        && latency == now - old(lastPitchTime) && lastPitchTime == now
      ensures synth.oscillators == old(synth.oscillators) && synth.started == old(synth.started)
              && synth.retired == old(synth.retired)
    {
      currentPitch := Some(data);
      if data.note.Some? && data.confidence > 0.8 {
        var newHarmony := QuantisedHarmony(data.note.value, InitialSettings, hz);
        harmony := newHarmony;
        latency, lastPitchTime := now - lastPitchTime, now;
      }
    }

    /** `handleRecord` at time `now`. While recording, it stops the recorder and clears the
        recording flag. Otherwise it first starts looper playback when there are tracks and
        nothing plays, then starts the recorder, sets the flag and arms the one-loop
        auto-stop. */
    method HandleRecord(now: real)
      requires Valid()
      modifies this, recorder, looper
      ensures Valid() && settings == old(settings) && harmony == old(harmony)
      ensures currentPitch == old(currentPitch) && latency == old(latency) && lastPitchTime == old(lastPitchTime)
      ensures loopState == old(loopState).(isRecording := !old(recorder.isRecording))
      ensures recorder.tracks == old(recorder.tracks)
      ensures old(recorder.isRecording) ==>
        && pendingAutoStops == old(pendingAutoStops)
        && looper.looperState == old(looper.looperState) && looper.playbackSources == old(looper.playbackSources)
        && (old(recorder.hasRecorder) ==> !recorder.isRecording && recorder.recorderStopped)
      ensures !old(recorder.isRecording) ==>
        && pendingAutoStops == old(pendingAutoStops) + [AutoStopDelay(loopState.bpm, loopState.totalBars)]
        && (recorder.hasStream ==> recorder.isRecording && recorder.hasRecorder && recorder.recordedChunks == [])
        && (!recorder.hasStream ==> recorder.isRecording == old(recorder.isRecording))
      ensures !old(recorder.isRecording) && |old(recorder.tracks)| > 0 && !old(looper.looperState.isPlaying) && looper.hasContext ==>
        && looper.looperState == Looper.Advance(
             Looper.LooperState(true, 1, now + Looper.ScheduleAheadTime + Looper.LoopDuration(looper.bpm, looper.totalBars)),
             now, looper.bpm, looper.totalBars)
        && looper.schedulerActive
        && (looper.hasOutputGain ==>
              Looper.AllLooping(looper.playbackSources, old(recorder.tracks), Looper.LoopDuration(looper.bpm, looper.totalBars)))
      ensures !old(recorder.isRecording) && (!(|old(recorder.tracks)| > 0 && !old(looper.looperState.isPlaying)) || !looper.hasContext) ==>
        looper.looperState == old(looper.looperState) && looper.playbackSources == old(looper.playbackSources)
    {
      if !recorder.isRecording {
        if |recorder.tracks| > 0 && !looper.looperState.isPlaying {
          looper.StartPlayback(recorder.tracks, now);
        }
        var _ := recorder.StartRecording();
        loopState := loopState.(isRecording := true);
        pendingAutoStops := pendingAutoStops + [AutoStopDelay(loopState.bpm, loopState.totalBars)];
      } else {
        recorder.StopRecording();
        loopState := loopState.(isRecording := false);
      }
    }

    /** The auto-stop timeout expiring, as intended: the recorder is stopped and the
        recording flag cleared. */
    method AutoStop()
      requires Valid() && pendingAutoStops != []
      modifies this, recorder
      ensures Valid() && pendingAutoStops == old(pendingAutoStops)[1..]
      ensures currentPitch == old(currentPitch) && latency == old(latency) && lastPitchTime == old(lastPitchTime)
      ensures loopState == old(loopState).(isRecording := false)
      ensures old(recorder.hasRecorder && recorder.isRecording) ==> !recorder.isRecording && recorder.recorderStopped
      ensures !old(recorder.hasRecorder && recorder.isRecording) ==> recorder.isRecording == old(recorder.isRecording)
      ensures recorder.tracks == old(recorder.tracks) && settings == old(settings) && harmony == old(harmony)
    {
      pendingAutoStops := pendingAutoStops[1..];
      recorder.StopRecording();
      loopState := loopState.(isRecording := false);
    }

    /** The auto-stop timeout expiring, as the component is written: the `stopRecording` the
        timeout holds is the one from the render in which recording was off, and that one acts
        only when its own `isRecording` is true, so the recorder keeps running and only the
        recording flag is cleared. */
    method AutoStopAsWritten()
      requires Valid() && pendingAutoStops != []
      modifies this
      ensures Valid() && pendingAutoStops == old(pendingAutoStops)[1..]
      ensures currentPitch == old(currentPitch) && latency == old(latency) && lastPitchTime == old(lastPitchTime)
      ensures loopState == old(loopState).(isRecording := false)
      ensures settings == old(settings) && harmony == old(harmony)
    {
      pendingAutoStops := pendingAutoStops[1..];
      loopState := loopState.(isRecording := false);
    }

    /** `handlePlay` at time `now`: with no tracks nothing happens; otherwise playback
        starts and the flag says playing, with the bar the looper showed before the start.
        The looper then runs from 0.1 s ahead with every track looping; without an audio
        context it stays as it was. */
    method HandlePlay(now: real)
      requires Valid()
      modifies this, looper
      ensures Valid() && settings == old(settings) && harmony == old(harmony) && pendingAutoStops == old(pendingAutoStops)
      ensures currentPitch == old(currentPitch) && latency == old(latency) && lastPitchTime == old(lastPitchTime)
      ensures recorder.tracks == [] ==>
        loopState == old(loopState) && looper.looperState == old(looper.looperState)
        && looper.playbackSources == old(looper.playbackSources)
      ensures recorder.tracks != [] ==>
        loopState == old(loopState).(isPlaying := true, currentBar := old(looper.looperState).currentBar)
      ensures recorder.tracks != [] && looper.hasContext ==>
        && looper.looperState == Looper.Advance(
             Looper.LooperState(true, 1, now + Looper.ScheduleAheadTime + Looper.LoopDuration(looper.bpm, looper.totalBars)),
             now, looper.bpm, looper.totalBars)
        && looper.looperState.isPlaying && looper.schedulerActive
        && (looper.hasOutputGain ==>
              Looper.AllLooping(looper.playbackSources, recorder.tracks, Looper.LoopDuration(looper.bpm, looper.totalBars)))
      ensures recorder.tracks != [] && !looper.hasContext ==>
        looper.looperState == old(looper.looperState) && looper.playbackSources == old(looper.playbackSources)
        && looper.retired == old(looper.retired) && looper.schedulerActive == old(looper.schedulerActive)
    {
      if |recorder.tracks| > 0 {
        var shownBar := looper.looperState.currentBar;
        looper.StartPlayback(recorder.tracks, now);
        Looper.AdvanceByOneLoop(Looper.LooperState(true, 1, now + Looper.ScheduleAheadTime + Looper.LoopDuration(looper.bpm, looper.totalBars)),
                                now, looper.bpm, looper.totalBars);
        loopState := loopState.(isPlaying := true, currentBar := shownBar);
      }
    }

    /** `handleStop`: playback stops and the flag says stopped at bar 1. */
    method HandleStop()
      requires Valid()
      modifies this, looper
      ensures Valid() && settings == old(settings) && harmony == old(harmony) && pendingAutoStops == old(pendingAutoStops)
      ensures currentPitch == old(currentPitch) && latency == old(latency) && lastPitchTime == old(lastPitchTime)
      ensures loopState == old(loopState).(isPlaying := false, currentBar := 1)
      ensures looper.looperState == Looper.Stopped && looper.playbackSources == [] && !looper.schedulerActive
      ensures looper.retired == old(looper.retired) + Looper.HaltAll(old(looper.playbackSources))
    {
      looper.StopPlayback();
      loopState := loopState.(isPlaying := false, currentBar := 1);
    }
  }

  /** Scenario, as written: with a microphone, pressing record and letting the auto-stop
      expire leaves the recorder recording while the recording flag says it is not. */
  method AutoStopLeavesRecorderRunning() returns (recorderOn: bool, flagOn: bool)
    ensures recorderOn && !flagOn
  {
    var app := new App(true, true, true, _ => 0.0, 0.0);
    app.HandleRecord(0.0);
    app.AutoStopAsWritten();
    recorderOn, flagOn := app.recorder.isRecording, app.loopState.isRecording;
  }

  /** Scenario, as intended: the same steps stop the recorder and clear the flag together. */
  method AutoStopStopsRecorder() returns (recorderOn: bool, flagOn: bool)
    ensures !recorderOn && !flagOn
  {
    var app := new App(true, true, true, _ => 0.0, 0.0);
    app.HandleRecord(0.0);
    app.AutoStop();
    recorderOn, flagOn := app.recorder.isRecording, app.loopState.isRecording;
  }

  /** A confident C4, as the detector reports it. */
  const ConfidentC4 := PitchData(261.63, 0.9, Some(NoteInfo("C", 4, 60, 0)), 0.0)

  /** Scenario, as written: after the settings change to D major with the satb voicing, a
      confident C4 still gets the triad on C4 of the initial C major settings, and no
      oscillator starts. */
  method PitchHandlerIgnoresSettings() returns (midis: seq<int>, started: nat)
    ensures midis == [60, 64, 67, 72] && started == 0
  {
    var app := new App(true, true, true, _ => 0.0, 0.0);
    app.SetSettings(HarmonySettings("D", Major, "satb"));
    app.HandlePitchDataAsWritten(ConfidentC4, 1.0);
    TriadOnC4(app.harmony, app.hz);
    midis := [app.harmony[0].midi, app.harmony[1].midi, app.harmony[2].midi, app.harmony[3].midi];
    started := |app.synth.started|;
  }

  /** Scenario, as intended: the same steps quantise C4 to B4 in D major, give its satb
      voicing, and start one oscillator per voice. */
  method PitchHandlerFollowsSettings() returns (midis: seq<int>, started: nat)
    ensures midis == [59, 71, 75, 90] && started == 4
  {
    var app := new App(true, true, true, _ => 0.0, 0.0);
    app.SetSettings(HarmonySettings("D", Major, "satb"));
    app.HandlePitchData(ConfidentC4, 1.0);
    SatbOnB4(app.harmony, app.hz);
    midis := [app.harmony[0].midi, app.harmony[1].midi, app.harmony[2].midi, app.harmony[3].midi];
    started := |app.synth.started|;
  }

  lemma TriadOnC4(h: seq<Voice>, hz: int -> real)
    requires exists pc :: 0 <= pc < 12 && IsNearest(NoteIndex("C"), ScaleNotes("C", Major), pc)
               && h == GenerateHarmony(NoteNames[pc], 4, Major, "triad", hz)
    ensures |h| == 4 && h[0].midi == 60 && h[1].midi == 64 && h[2].midi == 67 && h[3].midi == 72
  {
    var pc :| 0 <= pc < 12 && IsNearest(NoteIndex("C"), ScaleNotes("C", Major), pc)
              && h == GenerateHarmony(NoteNames[pc], 4, Major, "triad", hz);
    QuantizeCInCMajor(pc);
    NoteIndexOfName(0);
    for k := 0 to 4
      invariant forall j :: 0 <= j < k ==> h[j].midi == 60 + VoicingOffsets("triad")[j]
    {
      HarmonyFollowsTable(NoteNames[0], 4, Major, "triad", hz, k);
    }
  }

  lemma SatbOnB4(h: seq<Voice>, hz: int -> real)
    requires exists pc :: 0 <= pc < 12 && IsNearest(NoteIndex("C"), ScaleNotes("D", Major), pc)
               && h == GenerateHarmony(NoteNames[pc], 4, Major, "satb", hz)
    ensures |h| == 4 && h[0].midi == 59 && h[1].midi == 71 && h[2].midi == 75 && h[3].midi == 90
  {
    var pc :| 0 <= pc < 12 && IsNearest(NoteIndex("C"), ScaleNotes("D", Major), pc)
              && h == GenerateHarmony(NoteNames[pc], 4, Major, "satb", hz);
    QuantizeCInDMajor(pc);
    NoteIndexOfName(11);
    for k := 0 to 4
      invariant forall j :: 0 <= j < k ==> h[j].midi == 71 + VoicingOffsets("satb")[j]
    {
      HarmonyFollowsTable(NoteNames[11], 4, Major, "satb", hz, k);
    }
  }
}
