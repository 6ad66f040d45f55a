/**
  The debugging synthesiser hook: one sine per voice at the constant volume
  0.5 scaled by 0.3, wired both to the output gain and straight to the
  destination, plus a half-second 440 Hz test tone.
 */
module DebugSynthesizerHook {
  import opened Common
  import opened AudioNodes
  import opened Harmony

  /** The volumes, which nothing can change. */
  const DebugVolumes := Volumes(0.5, 0.5, 0.5, 0.5)

  /** A tone with a scheduled start and stop time. */
  datatype ScheduledTone = ScheduledTone(tone: Tone, startAt: real, stopAt: real)

  /** One voice's oscillator: a sine at the voice's frequency, gain volume * 0.3, connected
      to the output gain and the destination. */
  function BuildTone(voice: Voice): Tone
  {
    StartedTone(Sine, voice.frequency, VolumeOf(DebugVolumes, voice.name) * 0.3, true)
  }

  /** `oscillator.stop(); oscillator.disconnect(); gain.disconnect()`. */
  function Teardown(t: Tone): Tone
  {
    Halted(t, true)
  }

  /** The test tone started at `now`: 440 Hz at gain 0.3, routed to both outputs, with its
      stop scheduled half a second later. */
  function TestToneAt(now: real): ScheduledTone
  {
    ScheduledTone(StartedTone(Sine, 440.0, 0.3, true), now, now + 0.5)
  }

  function Pairs(harmony: seq<Voice>): (r: seq<(Role, Tone)>)
    ensures |r| == |harmony|
    ensures forall i :: 0 <= i < |harmony| ==> r[i] == (harmony[i].name, BuildTone(harmony[i]))
  {
    seq(|harmony|, i requires 0 <= i < |harmony| => (harmony[i].name, BuildTone(harmony[i])))
  }

  function Teardowns(m: Entries<Role, Tone>): (r: seq<Tone>)
    ensures |r| == |m|
    ensures forall i :: 0 <= i < |m| ==> r[i] == Teardown(m[i].1)
  {
    seq(|m|, i requires 0 <= i < |m| => Teardown(m[i].1))
  }

  // ---------------------------------------------------------------- properties

  /** Every voice sounds a sine at its frequency at gain 0.15, on both outputs; its teardown
      stops it and cuts both edges. */
  lemma ToneForVoice(voice: Voice)
    ensures var t := BuildTone(voice);
      && t.waveform == Sine && t.frequency == voice.frequency && t.gain == 0.15
      && t.started && !t.stopped && t.connected && t.direct
    ensures var d := Teardown(BuildTone(voice)); d.stopped && !d.connected && !d.direct
  {
  }

  /** The test tone lasts exactly half a second at 440 Hz. */
  lemma TestToneLasts(now: real)
    ensures TestToneAt(now).stopAt - TestToneAt(now).startAt == 0.5
    ensures TestToneAt(now).tone.frequency == 440.0 && TestToneAt(now).tone.gain == 0.3
  {
  }

  /** With a generated harmony the map holds one tone per role, bass first. */
  lemma HarmonyTones(rootNote: string, octave: int, scale: Scale, voicing: string, hz: int -> real)
    ensures var h := GenerateHarmony(rootNote, octave, scale, voicing, hz);
      var m := PutAll([], Pairs(h));
      && |m| == 4 && Keys(m) == {Soprano, Alto, Tenor, Bass}
      && forall k :: 0 <= k < 4 ==> m[k] == (RoleOrder[k], BuildTone(h[k]))
  {
    var h := GenerateHarmony(rootNote, octave, scale, voicing, hz);
    HarmonyKeys(Pairs(h));
  }

  // ---------------------------------------------------------------- the hook

  class DebugSynthesizer {
    const hasContext: bool
    const hasOutputGain: bool
    var voiceNodes: Entries<Role, Tone>
    var retired: seq<Tone>
    /** Every test tone played, with its schedule. */
    var testTones: seq<ScheduledTone>

    ghost predicate Valid()
      reads this
    {
      DistinctKeys(voiceNodes)
    }

    constructor(context: bool, outputGain: bool)
      ensures Valid() && voiceNodes == [] && retired == [] && testTones == []
      ensures hasContext == context && hasOutputGain == outputGain
    {
      hasContext, hasOutputGain := context, outputGain;
      voiceNodes, retired, testTones := [], [], [];
    }

    /** Plays the test tone at `now`, the context's current time; without a context and an
        output gain nothing is played. */
    method TestTone(now: real)
      modifies this
      ensures testTones == if hasContext && hasOutputGain then old(testTones) + [TestToneAt(now)] else old(testTones)
      ensures voiceNodes == old(voiceNodes) && retired == old(retired)
    {
      if !hasContext || !hasOutputGain {
        return;
      }
      testTones := testTones + [TestToneAt(now)];
    }

    method SynthesizeVoices(harmony: seq<Voice>)
      requires Valid()
      modifies this
      ensures Valid() && testTones == old(testTones)
      ensures !(hasContext && hasOutputGain) ==> voiceNodes == old(voiceNodes) && retired == old(retired)
      ensures hasContext && hasOutputGain ==>
        && retired == old(retired) + Teardowns(old(voiceNodes))
        && voiceNodes == PutAll([], Pairs(harmony))
    {
      if !hasContext || !hasOutputGain {
        return;
      }
      TearDown();
      var pairs := Pairs(harmony);
      for i := 0 to |harmony|
        invariant Valid() && testTones == old(testTones)
        invariant PutAll(voiceNodes, pairs[i..]) == PutAll([], pairs)
        invariant retired == old(retired) + Teardowns(old(voiceNodes))
      {
        var voice := harmony[i];
        assert pairs[i..][1..] == pairs[i + 1..];
        voiceNodes := Put(voiceNodes, voice.name, BuildTone(voice));
      }
    }

    /** Tears down every stored voice (errors are swallowed, and none arises here) and
        always clears the map. */
    method TearDown()
      modifies this
      ensures voiceNodes == [] && retired == old(retired) + Teardowns(old(voiceNodes))
      ensures testTones == old(testTones)
    {
      var nodes := voiceNodes;
      for i := 0 to |nodes|
        invariant retired == old(retired) + Teardowns(nodes)[..i]
        invariant voiceNodes == nodes && testTones == old(testTones)
      {
        retired := retired + [Teardown(nodes[i].1)];
      }
      voiceNodes := [];
    }

    method StopAllVoices()
      modifies this
      ensures Valid()
      ensures voiceNodes == [] && retired == old(retired) + Teardowns(old(voiceNodes))
      ensures testTones == old(testTones)
    {
      TearDown();
    }
  }
}
