/**
  The simple synthesiser hook: one node per harmony voice, either a formant
  synthesiser (formant mode) or an oscillator with its gain (simple mode),
  kept in a Map keyed by voice name. Every rebuild first tears down and
  forgets what was there.
 */
module SimpleSynthesizerHook {
  import opened Common
  import opened AudioNodes
  import opened Harmony
  import FS = FormantSynthesis

  const DefaultVolumes := Volumes(0.5, 0.5, 0.5, 0.5)

  /** A map entry: `{ synthesizer }` in formant mode, `{ oscillator, gain }` otherwise. */
  datatype VoiceNode = FormantVoice(synthesizer: FS.Graph) | ToneVoice(tone: Tone)

  /** Bass is a triangle, tenor a sawtooth, the upper voices sines. */
  function WaveformFor(r: Role): Waveform
  {
    match r
    case Bass => Triangle
    case Tenor => Sawtooth
    case _ => Sine
  }

  /** The node built for one voice under the current volumes and settings. */
  function BuildNode(voice: Voice, volumes: Volumes, settings: Settings): VoiceNode
  {
    var volume := VolumeOf(volumes, voice.name);
    if settings.useFormants then
      FormantVoice(FS.Voiced(FS.Connected(FS.Initial), voice.frequency, settings.vowel, voice.name, volume))
    else
      ToneVoice(StartedTone(WaveformFor(voice.name), voice.frequency, volume * 0.2, false))
  }

  /** The teardown of one entry: `stop` then `disconnect` on a synthesiser; `stop`,
      `disconnect` on the oscillator and `disconnect` on the gain otherwise. */
  function Teardown(n: VoiceNode): VoiceNode
  {
    match n
    case FormantVoice(g) => FormantVoice(FS.Disconnected(FS.Stopped(g)))
    case ToneVoice(t) => ToneVoice(Halted(t, true))
  }

  /** Whether a node still produces sound. */
  predicate Sounding(n: VoiceNode)
  {
    match n
    case FormantVoice(g) => FS.LiveNodes(g) > 0 && g.outputConnected
    case ToneVoice(t) => t.started && !t.stopped && t.connected
  }

  /** The `map.set(voice.name, node)` calls of one rebuild, in harmony order. */
  function Pairs(harmony: seq<Voice>, volumes: Volumes, settings: Settings): (r: seq<(Role, VoiceNode)>)
    ensures |r| == |harmony|
    ensures forall i :: 0 <= i < |harmony| ==> r[i] == (harmony[i].name, BuildNode(harmony[i], volumes, settings))
  {
    seq(|harmony|, i requires 0 <= i < |harmony| => (harmony[i].name, BuildNode(harmony[i], volumes, settings)))
  }

  /** The torn-down forms of the entries, in map order. */
  function Teardowns(m: Entries<Role, VoiceNode>): (r: seq<VoiceNode>)
    ensures |r| == |m|
    ensures forall i :: 0 <= i < |m| ==> r[i] == Teardown(m[i].1)
  {
    seq(|m|, i requires 0 <= i < |m| => Teardown(m[i].1))
  }

  // ---------------------------------------------------------------- properties

  /** Every node a rebuild makes sounds, and its teardown silences it. */
  lemma TeardownSilences(voice: Voice, volumes: Volumes, settings: Settings)
    ensures Sounding(BuildNode(voice, volumes, settings))
    ensures !Sounding(Teardown(BuildNode(voice, volumes, settings)))
  {
    FS.VoicedShape(FS.Connected(FS.Initial), voice.frequency, settings.vowel, voice.name, VolumeOf(volumes, voice.name));
  }

  /** Whatever node is torn down, nothing of it sounds any more. */
  lemma TeardownIsSilent(n: VoiceNode)
    ensures !Sounding(Teardown(n))
  {
  }

  /** After a rebuild the map holds one node per distinct voice name, and the node under a
      name is the one built for the LAST voice with that name. */
  lemma {:induction false} OneNodePerName(harmony: seq<Voice>, volumes: Volumes, settings: Settings)
    ensures var m := PutAll([], Pairs(harmony, volumes, settings));
      && DistinctKeys(m)
      && Keys(m) == Keys(Pairs(harmony, volumes, settings))
      && (forall i :: 0 <= i < |harmony| && (forall j :: i < j < |harmony| ==> harmony[j].name != harmony[i].name) ==>
            Get(m, harmony[i].name) == Some(BuildNode(harmony[i], volumes, settings)))
  {
    var ps := Pairs(harmony, volumes, settings);
    forall i | 0 <= i < |harmony| && (forall j :: i < j < |harmony| ==> harmony[j].name != harmony[i].name)
      ensures Get(PutAll([], ps), harmony[i].name) == Some(BuildNode(harmony[i], volumes, settings))
    {
      LastWithIsLast(ps, i);
      GetPutAll([], ps, harmony[i].name);
    }
  }

  /** For a generated harmony the map holds exactly its four voices, bass first. */
  lemma HarmonyNodes(rootNote: string, octave: int, scale: Scale, voicing: string, hz: int -> real,
                     volumes: Volumes, settings: Settings)
    ensures var h := GenerateHarmony(rootNote, octave, scale, voicing, hz);
      var m := PutAll([], Pairs(h, volumes, settings));
      && |m| == 4 && Keys(m) == {Soprano, Alto, Tenor, Bass}
      && forall k :: 0 <= k < 4 ==> m[k] == (RoleOrder[k], BuildNode(h[k], volumes, settings))
  {
    var h := GenerateHarmony(rootNote, octave, scale, voicing, hz);
    HarmonyKeys(Pairs(h, volumes, settings));
  }

  /** Simple mode: the waveform follows the role, the oscillator runs at the voice's
      frequency and the gain is the role's volume times 0.2. */
  lemma SimpleModeTone(voice: Voice, volumes: Volumes, settings: Settings)
    requires !settings.useFormants
    ensures BuildNode(voice, volumes, settings).ToneVoice?
    ensures var t := BuildNode(voice, volumes, settings).tone;
      && (t.waveform == Triangle <==> voice.name == Bass)
      && (t.waveform == Sawtooth <==> voice.name == Tenor)
      && t.frequency == voice.frequency && t.gain == VolumeOf(volumes, voice.name) * 0.2
      && t.started && !t.stopped && t.connected && !t.direct
  {
  }

  /** Formant mode: a synthesiser connected to the output gain, sounding the current vowel
      for the voice's role at its volume: ten live nodes and output gain volume * 0.3. */
  lemma FormantModeVoice(voice: Voice, volumes: Volumes, settings: Settings)
    requires settings.useFormants
    ensures BuildNode(voice, volumes, settings).FormantVoice?
    ensures var g := BuildNode(voice, volumes, settings).synthesizer;
      && g.outputConnected && FS.LiveNodes(g) == 10
      && g.formantFilters == FS.Filters(settings.vowel, voice.name)
      && g.oscillators == FS.Partials(voice.frequency)
      && g.outputGain == VolumeOf(volumes, voice.name) * 0.3
  {
    FS.VoicedShape(FS.Connected(FS.Initial), voice.frequency, settings.vowel, voice.name, VolumeOf(volumes, voice.name));
  }

  // ---------------------------------------------------------------- the hook

  class SimpleSynthesizer {
    var hasContext: bool
    var hasOutputGain: bool
    var voiceNodes: Entries<Role, VoiceNode>
    var voiceVolumes: Volumes
    var synthSettings: Settings
    /** Every node torn down so far, in teardown order. */
    var retired: seq<VoiceNode>

    ghost predicate Valid()
      reads this
    {
      DistinctKeys(voiceNodes)
    }

    /** Volumes default to 0.5 each, formant mode to on, and an absent or empty vowel
        to 'ah'; no context or output gain is known yet. */
    constructor(initialVolumes: Option<Volumes>, initialUseFormants: Option<bool>, initialVowel: Option<string>)
      ensures Valid() && voiceNodes == [] && retired == [] && !hasContext && !hasOutputGain
      ensures voiceVolumes == if initialVolumes.Some? then initialVolumes.value else DefaultVolumes
      ensures synthSettings.useFormants == (initialUseFormants != Some(false))
      ensures synthSettings.vowel == if initialVowel.Some? && initialVowel.value != "" then initialVowel.value else "ah"
    {
      hasContext, hasOutputGain := false, false;
      voiceNodes, retired := [], [];
      voiceVolumes := if initialVolumes.Some? then initialVolumes.value else DefaultVolumes;
      var useFormants := if initialUseFormants.Some? then initialUseFormants.value else true;
      var vowel := if initialVowel.Some? && initialVowel.value != "" then initialVowel.value else "ah";
      synthSettings := Settings(useFormants, vowel);
    }

    method SetAudioNodes(context: bool, gain: bool)
      modifies this
      ensures hasContext == context && hasOutputGain == gain
      ensures voiceNodes == old(voiceNodes) && voiceVolumes == old(voiceVolumes)
      ensures synthSettings == old(synthSettings) && retired == old(retired)
    {
      hasContext, hasOutputGain := context, gain;
    }

    /** Without a context and an output gain nothing happens; otherwise every stored node
        is torn down, the map cleared, and one node set per voice in harmony order. */
    method SynthesizeVoices(harmony: seq<Voice>)
      requires Valid()
      modifies this
      ensures Valid()
      ensures hasContext == old(hasContext) && hasOutputGain == old(hasOutputGain)
      ensures voiceVolumes == old(voiceVolumes) && synthSettings == old(synthSettings)
      ensures !(hasContext && hasOutputGain) ==> voiceNodes == old(voiceNodes) && retired == old(retired)
      ensures hasContext && hasOutputGain ==>
        && retired == old(retired) + Teardowns(old(voiceNodes))
        && voiceNodes == PutAll([], Pairs(harmony, voiceVolumes, synthSettings))
    {
      if !hasContext || !hasOutputGain {
        return;
      }
      TearDown();
      var pairs := Pairs(harmony, voiceVolumes, synthSettings);
      for i := 0 to |harmony|
        invariant Valid()
        invariant PutAll(voiceNodes, pairs[i..]) == PutAll([], pairs)
        invariant hasContext && hasOutputGain
        invariant voiceVolumes == old(voiceVolumes) && synthSettings == old(synthSettings)
        invariant retired == old(retired) + Teardowns(old(voiceNodes))
      {
        var voice := harmony[i];
        var node := BuildNode(voice, voiceVolumes, synthSettings);
        assert pairs[i..][1..] == pairs[i + 1..];
        voiceNodes := Put(voiceNodes, voice.name, node);
      }
    }

    /** Tears down every stored node, in map order, and clears the map. */
    method TearDown()
      modifies this
      ensures voiceNodes == [] && retired == old(retired) + Teardowns(old(voiceNodes))
      ensures hasContext == old(hasContext) && hasOutputGain == old(hasOutputGain)
      ensures voiceVolumes == old(voiceVolumes) && synthSettings == old(synthSettings)
    {
      var nodes := voiceNodes;
      for i := 0 to |nodes|
        invariant retired == old(retired) + Teardowns(nodes)[..i]
        invariant voiceNodes == nodes
        invariant hasContext == old(hasContext) && hasOutputGain == old(hasOutputGain)
        invariant voiceVolumes == old(voiceVolumes) && synthSettings == old(synthSettings)
      {
        retired := retired + [Teardown(nodes[i].1)];
      }
      voiceNodes := [];
    }

    /** Sets one role's volume; a live simple-mode node of that role has its gain set to
        volume * 0.2 on the spot, and nothing is rebuilt. */
    method SetVoiceVolume(voiceName: Role, volume: real)
      requires Valid()
      modifies this
      ensures Valid()
      ensures voiceVolumes == WithVolume(old(voiceVolumes), voiceName, volume)
      ensures var node := Get(old(voiceNodes), voiceName);
        voiceNodes == if node.Some? && node.value.ToneVoice? && hasContext
                      then Put(old(voiceNodes), voiceName, ToneVoice(node.value.tone.(gain := volume * 0.2)))
                      else old(voiceNodes)
      ensures hasContext == old(hasContext) && hasOutputGain == old(hasOutputGain)
      ensures synthSettings == old(synthSettings) && retired == old(retired)
    {
      voiceVolumes := WithVolume(voiceVolumes, voiceName, volume);
      var node := Get(voiceNodes, voiceName);
      if node.Some? && node.value.ToneVoice? && hasContext {
        voiceNodes := Put(voiceNodes, voiceName, ToneVoice(node.value.tone.(gain := volume * 0.2)));
      }
    }

    method StopAllVoices()
      modifies this
      ensures Valid()
      ensures voiceNodes == [] && retired == old(retired) + Teardowns(old(voiceNodes))
      ensures hasContext == old(hasContext) && hasOutputGain == old(hasOutputGain)
      ensures voiceVolumes == old(voiceVolumes) && synthSettings == old(synthSettings)
    {
      TearDown();
    }

    method SetVowel(vowel: string)
      modifies this
      ensures synthSettings == old(synthSettings).(vowel := vowel)
      ensures voiceNodes == old(voiceNodes) && voiceVolumes == old(voiceVolumes) && retired == old(retired)
      ensures hasContext == old(hasContext) && hasOutputGain == old(hasOutputGain)
    {
      synthSettings := synthSettings.(vowel := vowel);
    }

    method ToggleFormants()
      modifies this
      ensures synthSettings == old(synthSettings).(useFormants := !old(synthSettings).useFormants)
      ensures voiceNodes == old(voiceNodes) && voiceVolumes == old(voiceVolumes) && retired == old(retired)
      ensures hasContext == old(hasContext) && hasOutputGain == old(hasOutputGain)
    {
      synthSettings := synthSettings.(useFormants := !synthSettings.useFormants);
    }
  }

  /** A volume change touches only the entry of that role: every other role keeps its node. */
  lemma VolumeChangeIsLocal(m: Entries<Role, VoiceNode>, voiceName: Role, node: VoiceNode, other: Role)
    requires DistinctKeys(m) && other != voiceName
    ensures Get(Put(m, voiceName, node), other) == Get(m, other)
  {
    GetPut(m, voiceName, node, other);
  }
}
