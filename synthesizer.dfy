/**
  The synthesiser hook the application uses: one sine oscillator per harmony
  voice at gain 0.1, kept in a Map keyed by voice name. The context and output
  gain are the hook's arguments.
 */
module SynthesizerHook {
  import opened Common
  import opened AudioNodes
  import opened Harmony

  /** One voice's oscillator: a sine at the voice's frequency through a 0.1 gain. */
  function BuildTone(voice: Voice): Tone
  {
    StartedTone(Sine, voice.frequency, 0.1, false)
  }

  /** `osc.stop(); osc.disconnect()`; the gain node is left connected to the output. */
  function Teardown(t: Tone): Tone
  {
    Halted(t, false)
  }

  function Pairs(harmony: seq<Voice>): (r: seq<(Role, Tone)>)
    ensures |r| == |harmony|
    ensures forall i :: 0 <= i < |harmony| ==> r[i] == (harmony[i].name, BuildTone(harmony[i]))
  {
    seq(|harmony|, i requires 0 <= i < |harmony| => (harmony[i].name, BuildTone(harmony[i])))
  }

  /** Every oscillator a rebuild starts, in harmony order. */
  function Tones(harmony: seq<Voice>): (r: seq<Tone>)
    ensures |r| == |harmony|
    ensures forall i :: 0 <= i < |harmony| ==> r[i] == BuildTone(harmony[i])
  {
    seq(|harmony|, i requires 0 <= i < |harmony| => BuildTone(harmony[i]))
  }

  function Teardowns(m: Entries<Role, Tone>): (r: seq<Tone>)
    ensures |r| == |m|
    ensures forall i :: 0 <= i < |m| ==> r[i] == Teardown(m[i].1)
  {
    seq(|m|, i requires 0 <= i < |m| => Teardown(m[i].1))
  }

  // ---------------------------------------------------------------- properties

  /** Each voice's oscillator is a started sine at the voice's frequency with gain 0.1, and
      its teardown stops and disconnects it. */
  lemma ToneForVoice(voice: Voice)
    ensures var t := BuildTone(voice);
      && t.waveform == Sine && t.frequency == voice.frequency && t.gain == 0.1
      && t.started && !t.stopped && t.connected
    ensures Teardown(BuildTone(voice)).stopped && !Teardown(BuildTone(voice)).connected
  {
  }

  /** The map is keyed by voice name: the oscillator stored under a name is the one started
      for the last voice with that name. */
  lemma {:induction false} LastVoiceWins(harmony: seq<Voice>, i: nat)
    requires i < |harmony| && forall j :: i < j < |harmony| ==> harmony[j].name != harmony[i].name
    ensures Get(PutAll([], Pairs(harmony)), harmony[i].name) == Some(BuildTone(harmony[i]))
  {
    LastWithIsLast(Pairs(harmony), i);
    GetPutAll([], Pairs(harmony), harmony[i].name);
  }

  /** Two voices with one name leave an oscillator that was started but is not in the map,
      so no later teardown reaches it. */
  lemma DuplicateNameOrphans(harmony: seq<Voice>, i: nat, j: nat)
    requires i < j < |harmony| && harmony[i].name == harmony[j].name
    ensures |PutAll([], Pairs(harmony))| < |Tones(harmony)|
  {
    OverwrittenEntry(Pairs(harmony), i, j);
  }

  /** With a generated harmony every started oscillator is in the map, one per role. */
  lemma HarmonyTones(rootNote: string, octave: int, scale: Scale, voicing: string, hz: int -> real)
    ensures var h := GenerateHarmony(rootNote, octave, scale, voicing, hz);
      var m := PutAll([], Pairs(h));
      && |m| == |Tones(h)| == 4 && Keys(m) == {Soprano, Alto, Tenor, Bass}
      && forall k :: 0 <= k < 4 ==> m[k] == (RoleOrder[k], Tones(h)[k])
  {
    var h := GenerateHarmony(rootNote, octave, scale, voicing, hz);
    HarmonyKeys(Pairs(h));
  }

  // ---------------------------------------------------------------- the hook

  class Synthesizer {
    const hasContext: bool
    const hasOutputGain: bool
    var oscillators: Entries<Role, Tone>
    /** Every oscillator stopped so far, in teardown order. */
    var retired: seq<Tone>
    /** Every oscillator started so far, in start order. */
    var started: seq<Tone>

    ghost predicate Valid()
      reads this
    {
      DistinctKeys(oscillators)
    }

    constructor(context: bool, outputGain: bool)
      ensures Valid() && oscillators == [] && retired == [] && started == []
      ensures hasContext == context && hasOutputGain == outputGain
    {
      hasContext, hasOutputGain := context, outputGain;
      oscillators, retired, started := [], [], [];
    }

    /** Without a context and an output gain nothing happens; otherwise every stored
        oscillator is stopped and disconnected, the map cleared, and one oscillator started
        and set per voice. */
    method SynthesizeVoices(harmony: seq<Voice>)
      requires Valid()
      modifies this
      ensures Valid()
      ensures !(hasContext && hasOutputGain) ==>
        oscillators == old(oscillators) && retired == old(retired) && started == old(started)
      ensures hasContext && hasOutputGain ==>
        && retired == old(retired) + Teardowns(old(oscillators))
        && oscillators == PutAll([], Pairs(harmony))
        && started == old(started) + Tones(harmony)
    {
      if !hasContext || !hasOutputGain {
        return;
      }
      TearDown();
      var pairs := Pairs(harmony);
      for i := 0 to |harmony|
        invariant Valid()
        invariant PutAll(oscillators, pairs[i..]) == PutAll([], pairs)
        invariant started == old(started) + Tones(harmony)[..i]
        invariant retired == old(retired) + Teardowns(old(oscillators))
      {
        var voice := harmony[i];
        var osc := BuildTone(voice);
        started := started + [osc];
        assert pairs[i..][1..] == pairs[i + 1..];
        oscillators := Put(oscillators, voice.name, osc);
      }
    }

    method TearDown()
      modifies this
      ensures oscillators == [] && retired == old(retired) + Teardowns(old(oscillators))
      ensures started == old(started)
    {
      var nodes := oscillators;
      for i := 0 to |nodes|
        invariant retired == old(retired) + Teardowns(nodes)[..i]
        invariant oscillators == nodes && started == old(started)
      {
        retired := retired + [Teardown(nodes[i].1)];
      }
      oscillators := [];
    }

    method StopAllVoices()
      modifies this
      ensures Valid()
      ensures oscillators == [] && retired == old(retired) + Teardowns(old(oscillators))
      ensures started == old(started)
    {
      TearDown();
    }
  }
}
