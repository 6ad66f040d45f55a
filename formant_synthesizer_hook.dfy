/**
  The formant synthesiser hook: one formant synthesiser per harmony voice, kept
  in a Map keyed by voice name together with its voice type. The context and
  output gain are the hook's arguments.
 */
module FormantSynthesizerHook {
  import opened Common
  import opened AudioNodes
  import opened Harmony
  import FS = FormantSynthesis

  const DefaultVolumes := Volumes(0.25, 0.25, 0.25, 0.25)

  /** A map entry: `{ synthesizer, voiceType }`. */
  datatype SynthNode = SynthNode(synthesizer: FS.Graph, voiceType: Role)

  /** A synthesiser connected to the output gain, sounding the current vowel for the voice's
      role and volume. The `useFormants` setting plays no part. */
  function BuildNode(voice: Voice, volumes: Volumes, settings: Settings): SynthNode
  {
    SynthNode(FS.Voiced(FS.Connected(FS.Initial), voice.frequency, settings.vowel, voice.name,
                        VolumeOf(volumes, voice.name)), voice.name)
  }

  /** `synthesizer.stop(); synthesizer.disconnect()`. */
  function Teardown(n: SynthNode): SynthNode
  {
    n.(synthesizer := FS.Disconnected(FS.Stopped(n.synthesizer)))
  }

  /** The re-synthesis `setVoiceVolume` performs on a live node: always at 440 Hz. */
  function Resynthesized(n: SynthNode, vowel: string, voiceName: Role, volume: real): SynthNode
  {
    n.(synthesizer := FS.Voiced(n.synthesizer, 440.0, vowel, voiceName, volume))
  }

  function Pairs(harmony: seq<Voice>, volumes: Volumes, settings: Settings): (r: seq<(Role, SynthNode)>)
    ensures |r| == |harmony|
    ensures forall i :: 0 <= i < |harmony| ==> r[i] == (harmony[i].name, BuildNode(harmony[i], volumes, settings))
  {
    seq(|harmony|, i requires 0 <= i < |harmony| => (harmony[i].name, BuildNode(harmony[i], volumes, settings)))
  }

  function Teardowns(m: Entries<Role, SynthNode>): (r: seq<SynthNode>)
    ensures |r| == |m|
    ensures forall i :: 0 <= i < |m| ==> r[i] == Teardown(m[i].1)
  {
    seq(|m|, i requires 0 <= i < |m| => Teardown(m[i].1))
  }

  // ---------------------------------------------------------------- properties

  /** Each synthesiser gets the voice's frequency, the current vowel, its role and the role's
      volume, and is connected; its type is the voice's role. */
  lemma NodeForVoice(voice: Voice, volumes: Volumes, settings: Settings)
    ensures var n := BuildNode(voice, volumes, settings);
      && n.voiceType == voice.name && n.synthesizer.outputConnected
      && FS.LiveNodes(n.synthesizer) == 10
      && n.synthesizer.oscillators == FS.Partials(voice.frequency)
      && n.synthesizer.formantFilters == FS.Filters(settings.vowel, voice.name)
      && n.synthesizer.outputGain == VolumeOf(volumes, voice.name) * 0.3
  {
    FS.VoicedShape(FS.Connected(FS.Initial), voice.frequency, settings.vowel, voice.name, VolumeOf(volumes, voice.name));
  }

  /** The `useFormants` flag is never consulted: formant synthesis is used either way. */
  lemma FormantsAlways(voice: Voice, volumes: Volumes, settings: Settings)
    ensures BuildNode(voice, volumes, settings) == BuildNode(voice, volumes, settings.(useFormants := !settings.useFormants))
  {
  }

  /** A teardown leaves no live node and the output disconnected. */
  lemma TeardownSilences(n: SynthNode)
    ensures FS.LiveNodes(Teardown(n).synthesizer) == 0 && !Teardown(n).synthesizer.outputConnected
  {
  }

  /** After a rebuild from a generated harmony there is exactly one synthesiser per role,
      bass first. */
  lemma OnePerRole(rootNote: string, octave: int, scale: Scale, voicing: string, hz: int -> real,
                   volumes: Volumes, settings: Settings)
    ensures var h := GenerateHarmony(rootNote, octave, scale, voicing, hz);
      var m := PutAll([], Pairs(h, volumes, settings));
      && |m| == 4 && Keys(m) == {Soprano, Alto, Tenor, Bass}
      && forall k :: 0 <= k < 4 ==> m[k] == (RoleOrder[k], BuildNode(h[k], volumes, settings))
  {
    var h := GenerateHarmony(rootNote, octave, scale, voicing, hz);
    HarmonyKeys(Pairs(h, volumes, settings));
  }

  /** A volume change re-synthesises the live node at 440 Hz, whatever frequency its voice
      had: the fundamental of the rebuilt oscillators is 440 Hz. */
  lemma VolumeChangeRetunes(n: SynthNode, vowel: string, voiceName: Role, volume: real)
    ensures var r := Resynthesized(n, vowel, voiceName, volume);
      && r.synthesizer.oscillators == FS.Partials(440.0)
      && r.synthesizer.oscillators[0].frequency == 440.0
      && r.synthesizer.outputGain == volume * 0.3
      && r.synthesizer.retired == n.synthesizer.retired + FS.Retirement(n.synthesizer)
  {
    FS.VoicedShape(n.synthesizer, 440.0, vowel, voiceName, volume);
  }

  // ---------------------------------------------------------------- the hook

  class FormantSynthesizer {
    const hasContext: bool
    const hasOutputGain: bool
    var voiceNodes: Entries<Role, SynthNode>
    var voiceVolumes: Volumes
    var synthSettings: Settings
    /** Every synthesiser torn down so far, in teardown order. */
    var retired: seq<SynthNode>

    ghost predicate Valid()
      reads this
    {
      DistinctKeys(voiceNodes)
    }

    /** Volumes default to 0.25 each, formant mode to on and an absent or empty vowel to 'ah'. */
    constructor(context: bool, outputGain: bool, initialVolumes: Option<Volumes>,
                initialUseFormants: Option<bool>, initialVowel: Option<string>)
      ensures Valid() && voiceNodes == [] && retired == []
      ensures hasContext == context && hasOutputGain == outputGain
      ensures voiceVolumes == if initialVolumes.Some? then initialVolumes.value else DefaultVolumes
      ensures synthSettings.useFormants == (initialUseFormants != Some(false))
      ensures synthSettings.vowel == if initialVowel.Some? && initialVowel.value != "" then initialVowel.value else "ah"
    {
      hasContext, hasOutputGain := context, outputGain;
      voiceNodes, retired := [], [];
      voiceVolumes := if initialVolumes.Some? then initialVolumes.value else DefaultVolumes;
      var useFormants := if initialUseFormants.Some? then initialUseFormants.value else true;
      var vowel := if initialVowel.Some? && initialVowel.value != "" then initialVowel.value else "ah";
      synthSettings := Settings(useFormants, vowel);
    }

    /** Without a context and an output gain nothing happens; otherwise every synthesiser is
        stopped and disconnected, the map cleared, and one synthesiser set per voice. */
    method SynthesizeVoices(harmony: seq<Voice>)
      requires Valid()
      modifies this
      ensures Valid()
      ensures voiceVolumes == old(voiceVolumes) && synthSettings == old(synthSettings)
      ensures !(hasContext && hasOutputGain) ==> voiceNodes == old(voiceNodes) && retired == old(retired)
      ensures hasContext && hasOutputGain ==>
        && retired == old(retired) + Teardowns(old(voiceNodes))
        && voiceNodes == PutAll([], Pairs(harmony, voiceVolumes, synthSettings))
    {
      if !hasContext || !hasOutputGain {
        return;
      }
      TearDown();
      var pairs := Pairs(harmony, voiceVolumes, synthSettings);
      for i := 0 to |harmony|
        invariant Valid()
        invariant PutAll(voiceNodes, pairs[i..]) == PutAll([], pairs)
        invariant voiceVolumes == old(voiceVolumes) && synthSettings == old(synthSettings)
        invariant retired == old(retired) + Teardowns(old(voiceNodes))
      {
        var voice := harmony[i];
        var node := BuildNode(voice, voiceVolumes, synthSettings);
        assert pairs[i..][1..] == pairs[i + 1..];
        voiceNodes := Put(voiceNodes, voice.name, node);
      }
    }

    method TearDown()
      modifies this
      ensures voiceNodes == [] && retired == old(retired) + Teardowns(old(voiceNodes))
      ensures voiceVolumes == old(voiceVolumes) && synthSettings == old(synthSettings)
    {
      var nodes := voiceNodes;
      for i := 0 to |nodes|
        invariant retired == old(retired) + Teardowns(nodes)[..i]
        invariant voiceNodes == nodes
        invariant voiceVolumes == old(voiceVolumes) && synthSettings == old(synthSettings)
      {
        retired := retired + [Teardown(nodes[i].1)];
      }
      voiceNodes := [];
    }

    /** Sets one role's volume; with a context, a live node of that role is re-synthesised
        in place at 440 Hz with the current vowel and the new volume. */
    method SetVoiceVolume(voiceName: Role, volume: real)
      requires Valid()
      modifies this
      ensures Valid()
      ensures voiceVolumes == WithVolume(old(voiceVolumes), voiceName, volume)
      ensures var node := Get(old(voiceNodes), voiceName);
        voiceNodes == if node.Some? && hasContext
                      then Put(old(voiceNodes), voiceName, Resynthesized(node.value, synthSettings.vowel, voiceName, volume))
                      else old(voiceNodes)
      ensures synthSettings == old(synthSettings) && retired == old(retired)
    {
      voiceVolumes := WithVolume(voiceVolumes, voiceName, volume);
      var node := Get(voiceNodes, voiceName);
      if node.Some? && hasContext {
        voiceNodes := Put(voiceNodes, voiceName, Resynthesized(node.value, synthSettings.vowel, voiceName, volume));
      }
    }

    method StopAllVoices()
      modifies this
      ensures Valid()
      ensures voiceNodes == [] && retired == old(retired) + Teardowns(old(voiceNodes))
      ensures voiceVolumes == old(voiceVolumes) && synthSettings == old(synthSettings)
    {
      TearDown();
    }

    method SetVowel(vowel: string)
      modifies this
      ensures synthSettings == old(synthSettings).(vowel := vowel)
      ensures voiceNodes == old(voiceNodes) && voiceVolumes == old(voiceVolumes) && retired == old(retired)
    {
      synthSettings := synthSettings.(vowel := vowel);
    }

    method ToggleFormants()
      modifies this
      ensures synthSettings == old(synthSettings).(useFormants := !old(synthSettings).useFormants)
      ensures voiceNodes == old(voiceNodes) && voiceVolumes == old(voiceVolumes) && retired == old(retired)
    {
      synthSettings := synthSettings.(useFormants := !synthSettings.useFormants);
    }
  }
}
