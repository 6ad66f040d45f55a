/**
  The formant synthesiser: six harmonic oscillators summed into a master gain,
  three band-pass filters at the vowel's formants (scaled for the voice type),
  a looping highpass noise source for breathiness, and an output gain.
  Audio nodes are values recording the calls made on them; a node that `stop`
  tears down moves to the `retired` log, so that what is still live can be told
  from what was stopped.
 */
module FormantSynthesis {
  import opened Common

  // ---------------------------------------------------------------- tables

  /** The first three formant frequencies of a vowel and their bandwidths. */
  datatype Formants = Formants(f1: real, f2: real, f3: real, bandwidth: seq<real>)

  /** The vowel table; a vowel missing from it has no entry. */
  function VowelFormants(vowel: string): (r: Option<Formants>)
    ensures r.Some? <==> vowel in {"a", "e", "i", "o", "u", "ah"}
    ensures r.Some? ==> |r.value.bandwidth| == 3
  {
    if vowel == "a" then Some(Formants(730.0, 1090.0, 2440.0, [90.0, 110.0, 120.0]))
    else if vowel == "e" then Some(Formants(530.0, 1840.0, 2480.0, [90.0, 100.0, 120.0]))
    else if vowel == "i" then Some(Formants(270.0, 2290.0, 3010.0, [60.0, 90.0, 100.0]))
    else if vowel == "o" then Some(Formants(570.0, 840.0, 2410.0, [90.0, 100.0, 120.0]))
    else if vowel == "u" then Some(Formants(300.0, 870.0, 2240.0, [80.0, 100.0, 120.0]))
    else if vowel == "ah" then Some(Formants(640.0, 1190.0, 2390.0, [80.0, 90.0, 100.0]))
    else None
  }

  /** `VOWEL_FORMANTS[vowel] || VOWEL_FORMANTS['ah']`. */
  function FormantsFor(vowel: string): (r: Formants)
    ensures |r.bandwidth| == 3
    ensures forall k :: 0 <= k < 3 ==> r.bandwidth[k] > 0.0
    ensures r.f1 > 0.0 && r.f2 > 0.0 && r.f3 > 0.0
  {
    match VowelFormants(vowel)
    case Some(f) => f
    case None => Formants(640.0, 1190.0, 2390.0, [80.0, 90.0, 100.0])
  }

  /** How a voice type scales the three formants (the `pitch` entry is never read). */
  datatype Modifier = Modifier(f1: real, f2: real, f3: real, pitch: real)

  function VoiceModifier(voiceType: Role): (r: Modifier)
    ensures r.f1 > 0.0 && r.f2 > 0.0 && r.f3 > 0.0
  {
    match voiceType
    case Soprano => Modifier(1.15, 1.1, 1.05, 1.2)
    case Alto => Modifier(1.05, 1.05, 1.0, 1.0)
    case Tenor => Modifier(0.95, 0.95, 0.95, 0.8)
    case Bass => Modifier(0.85, 0.9, 0.9, 0.6)
  }

  // ---------------------------------------------------------------- nodes

  /** A harmonic oscillator with its own gain node, feeding the master gain. */
  datatype Partial = Partial(harmonic: nat, frequency: real, gain: real,
                             started: bool, stopped: bool, connected: bool)

  /** A band-pass formant filter from the master gain to the output. */
  datatype Filter = Filter(frequency: real, q: real, connected: bool)

  /** The breath noise source and the highpass filter it runs through. */
  datatype NoiseSource = NoiseSource(loop: bool, highpassFrequency: real,
                                     started: bool, stopped: bool, connected: bool)

  datatype GainNode = GainNode(value: real, connected: bool)

  /** A node `stop` took down, as it was left. */
  datatype Retired = RetiredPartial(p: Partial) | RetiredFilter(f: Filter)
                   | RetiredNoise(n: NoiseSource) | RetiredGain(g: GainNode)

  /** The whole state of one synthesiser. `masterTaps` counts the edges from the master
      gain into formant filters, which nothing ever removes. */
  datatype Graph = Graph(oscillators: seq<Partial>, formantFilters: seq<Filter>,
                         noiseSource: Option<NoiseSource>, noiseGain: GainNode,
                         outputGain: real, outputConnected: bool, masterTaps: nat,
                         retired: seq<Retired>)

  /** A gain node as `createGain` returns it: unity gain, no edges. */
  const FreshGain := GainNode(1.0, false)

  /** The constructor's graph: master gain into output, output gain 0.3. */
  const Initial := Graph([], [], None, FreshGain, 0.3, false, 0, [])

  /** The noise source `addBreathiness` starts. */
  const Breath := NoiseSource(true, 1000.0, true, false, true)

  /** The amplitude of harmonic h: 1 / (h * 0.8) scaled by 0.2. */
  function HarmonicGain(h: nat): real
    requires h >= 1
  {
    (1.0 / (h as real * 0.8)) * 0.2
  }

  function MakePartial(frequency: real, h: nat): Partial
    requires h >= 1
  {
    Partial(h, frequency * h as real, HarmonicGain(h), true, false, true)
  }

  /** The six oscillators of one vowel. */
  function Partials(frequency: real): seq<Partial>
  {
    seq(6, i requires 0 <= i < 6 => MakePartial(frequency, i + 1))
  }

  /** The three formant centre frequencies for a vowel's formants and a voice type's
      modifier. */
  function FormantFrequencies(f: Formants, m: Modifier): seq<real>
  {
    [f.f1 * m.f1, f.f2 * m.f2, f.f3 * m.f3]
  }

  function MakeFilter(centre: real, bandwidth: real): Filter
    requires bandwidth != 0.0
  {
    Filter(centre, centre / bandwidth, true)
  }

  /** The three formant filters, each with Q = centre / bandwidth. */
  function FiltersOf(f: Formants, m: Modifier): seq<Filter>
    requires |f.bandwidth| == 3 && forall k :: 0 <= k < 3 ==> f.bandwidth[k] > 0.0
  {
    var c := FormantFrequencies(f, m);
    seq(3, i requires 0 <= i < 3 => MakeFilter(c[i], f.bandwidth[i]))
  }

  /** The filters for a vowel name and a voice type. */
  function Filters(vowel: string, voiceType: Role): seq<Filter>
  {
    FiltersOf(FormantsFor(vowel), VoiceModifier(voiceType))
  }

  function HaltPartial(p: Partial): Partial { p.(stopped := true, connected := false) }
  function Unplug(f: Filter): Filter { f.(connected := false) }
  function HaltNoise(n: NoiseSource): NoiseSource { n.(stopped := true, connected := false) }

  /** What `stop` retires, in order: the oscillators, the filters, the noise source if any,
      and the noise gain. */
  function Retirement(g: Graph): seq<Retired>
  {
    seq(|g.oscillators|, i requires 0 <= i < |g.oscillators| => RetiredPartial(HaltPartial(g.oscillators[i])))
    + seq(|g.formantFilters|, i requires 0 <= i < |g.formantFilters| => RetiredFilter(Unplug(g.formantFilters[i])))
    + (if g.noiseSource.Some? then [RetiredNoise(HaltNoise(g.noiseSource.value))] else [])
    + [RetiredGain(g.noiseGain.(connected := false))]
  }

  /** `stop()`. */
  function Stopped(g: Graph): Graph
  {
    g.(oscillators := [], formantFilters := [], noiseSource := None, noiseGain := FreshGain,
       retired := g.retired + Retirement(g))
  }

  /** `synthesizeVowel(frequency, vowel, voiceType, volume)`. */
  function Voiced(g: Graph, frequency: real, vowel: string, voiceType: Role, volume: real): Graph
  {
    var s := Stopped(g);
    s.(oscillators := Partials(frequency), formantFilters := Filters(vowel, voiceType),
       masterTaps := s.masterTaps + 3, noiseSource := Some(Breath),
       noiseGain := s.noiseGain.(value := 0.02, connected := true), outputGain := volume * 0.3)
  }

  /** `connect(destination)`. */
  function Connected(g: Graph): Graph { g.(outputConnected := true) }

  /** `disconnect()`: the output first, then `stop()`. */
  function Disconnected(g: Graph): Graph { Stopped(g.(outputConnected := false)) }

  /** How many sound-producing or sound-shaping nodes are live. */
  function LiveNodes(g: Graph): nat
  {
    |g.oscillators| + |g.formantFilters| + if g.noiseSource.Some? then 1 else 0
  }

  // ---------------------------------------------------------------- properties

  /** `synthesizeVowel` first stops everything, then leaves exactly six started oscillators,
      three connected band-pass filters and one started looping noise source, whatever was
      playing before; the output gain is volume * 0.3 and the noise gain 0.02. */
  lemma VoicedShape(g: Graph, frequency: real, vowel: string, voiceType: Role, volume: real)
    ensures var v := Voiced(g, frequency, vowel, voiceType, volume);
      && LiveNodes(v) == 10
      && |v.oscillators| == 6 && |v.formantFilters| == 3
      && (forall k :: 0 <= k < 6 ==> v.oscillators[k].started && !v.oscillators[k].stopped && v.oscillators[k].connected)
      && (forall k :: 0 <= k < 3 ==> v.formantFilters[k].connected)
      && v.noiseSource == Some(NoiseSource(true, 1000.0, true, false, true))
      && v.noiseGain == GainNode(0.02, true)
      && v.outputGain == volume * 0.3
      && v.retired == g.retired + Retirement(g)
      && v.masterTaps == g.masterTaps + 3
  {
  }

  /** Everything that was live before `stop` is in the retired log, stopped and
      disconnected, and nothing is live afterwards. */
  lemma {:induction false} StopRetiresAll(g: Graph)
    ensures LiveNodes(Stopped(g)) == 0
    ensures forall p :: p in g.oscillators ==> RetiredPartial(p.(stopped := true, connected := false)) in Stopped(g).retired
    ensures forall f :: f in g.formantFilters ==> RetiredFilter(f.(connected := false)) in Stopped(g).retired
    ensures g.noiseSource.Some? ==> RetiredNoise(g.noiseSource.value.(stopped := true, connected := false)) in Stopped(g).retired
  {
    var s, r := Stopped(g), Retirement(g);
    var n, m := |g.oscillators|, |g.formantFilters|;
    var base := |g.retired|;
    forall p | p in g.oscillators
      ensures RetiredPartial(p.(stopped := true, connected := false)) in s.retired
    {
      var i :| 0 <= i < n && g.oscillators[i] == p;
      assert s.retired[base + i] == r[i];
    }
    forall f | f in g.formantFilters
      ensures RetiredFilter(f.(connected := false)) in s.retired
    {
      var i :| 0 <= i < m && g.formantFilters[i] == f;
      assert s.retired[base + n + i] == r[n + i];
    }
    if g.noiseSource.Some? {
      assert s.retired[base + n + m] == r[n + m];
    }
  }

  /** A second `stop` stops nothing more: the only thing it retires is the fresh,
      unconnected noise gain the first one made. */
  lemma StopTwice(g: Graph)
    ensures Stopped(Stopped(g)) == Stopped(g).(retired := Stopped(g).retired + [RetiredGain(GainNode(1.0, false))])
  {
    var s := Stopped(g);
    assert Retirement(s) == [RetiredGain(GainNode(1.0, false))];
  }

  /** After `disconnect` the output is off and nothing is live. */
  lemma DisconnectSilences(g: Graph)
    ensures !Disconnected(g).outputConnected && LiveNodes(Disconnected(g)) == 0
    ensures Disconnected(g).retired == g.retired + Retirement(g)
  {
  }

  /** Harmonic h sounds at h times the fundamental with amplitude 0.25 / h, so the
      amplitudes fall strictly with the harmonic number. */
  lemma {:induction false} PartialSeries(frequency: real)
    ensures |Partials(frequency)| == 6
    ensures forall k :: 0 <= k < 6 ==>
      Partials(frequency)[k].harmonic == k + 1
      && Partials(frequency)[k].frequency == frequency * (k + 1) as real
      && Partials(frequency)[k].gain * (k + 1) as real == 0.25
    ensures forall k :: 0 <= k < 5 ==> Partials(frequency)[k + 1].gain < Partials(frequency)[k].gain
  {
    var ps := Partials(frequency);
    forall k | 0 <= k < 6
      ensures ps[k].gain * (k + 1) as real == 0.25
    {
      var h := (k + 1) as real;
      assert ps[k].gain == (1.0 / (h * 0.8)) * 0.2;
      assert (1.0 / (h * 0.8)) * (h * 0.8) == 1.0;
    }
    forall k | 0 <= k < 5
      ensures ps[k + 1].gain < ps[k].gain
    {
      var h := (k + 1) as real;
      assert ps[k].gain * h == 0.25 && ps[k + 1].gain * (h + 1.0) == 0.25;
      assert ps[k + 1].gain * h < 0.25;
    }
  }

  /** Each formant filter sits at the vowel's formant scaled by the voice type, with
      Q times bandwidth equal to the centre frequency. */
  lemma FilterSettings(f: Formants, m: Modifier)
    requires |f.bandwidth| == 3 && forall k :: 0 <= k < 3 ==> f.bandwidth[k] > 0.0
    requires f.f1 > 0.0 && f.f2 > 0.0 && f.f3 > 0.0 && m.f1 > 0.0 && m.f2 > 0.0 && m.f3 > 0.0
    ensures var fs := FiltersOf(f, m);
      && |fs| == 3
      && fs[0].frequency == f.f1 * m.f1 && fs[1].frequency == f.f2 * m.f2 && fs[2].frequency == f.f3 * m.f3
      && (forall k :: 0 <= k < 3 ==> fs[k].q * f.bandwidth[k] == fs[k].frequency && fs[k].q > 0.0)
  {
    var fs, c := FiltersOf(f, m), FormantFrequencies(f, m);
    forall k | 0 <= k < 3
      ensures fs[k].q * f.bandwidth[k] == fs[k].frequency && fs[k].q > 0.0
    {
      assert c[k] > 0.0;
      assert fs[k] == MakeFilter(c[k], f.bandwidth[k]);
    }
  }

  /** A vowel missing from the table sounds as 'ah'. */
  lemma UnknownVowelIsAh(vowel: string, voiceType: Role)
    requires vowel !in {"a", "e", "i", "o", "u", "ah"}
    ensures Filters(vowel, voiceType) == Filters("ah", voiceType)
  {
    assert FormantsFor(vowel) == FormantsFor("ah");
  }

  /** The 'ah' vowel for a bass voice: formants at 544, 1071 and 2151 Hz. */
  lemma BassAh()
    ensures FormantFrequencies(FormantsFor("ah"), VoiceModifier(Bass)) == [544.0, 1071.0, 2151.0]
  {
  }

  /** The master gain's edges into formant filters only grow: n vowels leave 3n of them. */
  lemma VoicedLeaksTaps(g: Graph, frequency: real, vowel: string, voiceType: Role, volume: real)
    ensures Voiced(g, frequency, vowel, voiceType, volume).masterTaps == g.masterTaps + 3
    ensures Stopped(g).masterTaps == g.masterTaps
  {
  }

  // ---------------------------------------------------------------- the object

  class FormantSynthesizer {
    var oscillators: seq<Partial>
    var formantFilters: seq<Filter>
    var noiseSource: Option<NoiseSource>
    var noiseGain: GainNode
    var outputGain: real
    var outputConnected: bool
    var masterTaps: nat
    var retired: seq<Retired>

    /** The fields as one graph value. */
    function State(): Graph
      reads this
    {
      Graph(oscillators, formantFilters, noiseSource, noiseGain, outputGain, outputConnected, masterTaps, retired)
    }

    constructor()
      ensures State() == Initial
    {
      oscillators, formantFilters, noiseSource := [], [], None;
      noiseGain, outputGain, outputConnected := FreshGain, 0.3, false;
      masterTaps, retired := 0, [];
    }

    method Connect()
      modifies this
      ensures State() == Connected(old(State()))
    {
      outputConnected := true;
    }

    method Disconnect()
      modifies this
      ensures State() == Disconnected(old(State()))
    {
      outputConnected := false;
      Stop();
    }

    method SynthesizeVowel(frequency: real, vowel: string, voiceType: Role, volume: real)
      modifies this
      ensures State() == Voiced(old(State()), frequency, vowel, voiceType, volume)
    {
      Stop();
      var formants, modifier := FormantsFor(vowel), VoiceModifier(voiceType);
      AddHarmonics(frequency);
      AddFormantFilters(formants, modifier);
      AddBreathiness();
      outputGain := volume * 0.3;
    }

    /** The six harmonic oscillators, each started and routed into the master gain. */
    method AddHarmonics(frequency: real)
      modifies this
      requires oscillators == []
      ensures State() == old(State()).(oscillators := Partials(frequency))
    {
      for i := 0 to 6
        invariant oscillators == Partials(frequency)[..i]
        invariant State() == old(State()).(oscillators := oscillators)
      {
        var harmonic := i + 1;
        oscillators := oscillators + [MakePartial(frequency, harmonic)];
      }
    }

    /** The three formant filters, each fed by the master gain and feeding the output. */
    method AddFormantFilters(formants: Formants, modifier: Modifier)
      modifies this
      requires formantFilters == []
      requires |formants.bandwidth| == 3 && forall k :: 0 <= k < 3 ==> formants.bandwidth[k] > 0.0
      ensures State() == old(State()).(formantFilters := FiltersOf(formants, modifier),
                                       masterTaps := old(masterTaps) + 3)
    {
      var formantFrequencies := [formants.f1 * modifier.f1, formants.f2 * modifier.f2, formants.f3 * modifier.f3];
      for index := 0 to 3
        invariant formantFilters == FiltersOf(formants, modifier)[..index]
        invariant State() == old(State()).(formantFilters := formantFilters, masterTaps := old(masterTaps) + index)
      {
        assert FiltersOf(formants, modifier)[index] == MakeFilter(formantFrequencies[index], formants.bandwidth[index]);
        formantFilters := formantFilters + [MakeFilter(formantFrequencies[index], formants.bandwidth[index])];
        assert FiltersOf(formants, modifier)[..index + 1] == FiltersOf(formants, modifier)[..index] + [FiltersOf(formants, modifier)[index]];
        masterTaps := masterTaps + 1;
      }
    }

    /** Starts the looping noise source through the highpass into the noise gain. */
    method AddBreathiness()
      modifies this
      ensures State() == old(State()).(noiseSource := Some(Breath),
                                       noiseGain := old(noiseGain).(value := 0.02, connected := true))
    {
      noiseSource := Some(Breath);
      noiseGain := noiseGain.(value := 0.02, connected := true);
    }

    method Stop()
      modifies this
      ensures State() == Stopped(old(State()))
    {
      ghost var r := Retirement(State());
      var stopped := retired;
      for i := 0 to |oscillators|
        invariant stopped == retired + r[..i]
      {
        stopped := stopped + [RetiredPartial(HaltPartial(oscillators[i]))];
      }
      for i := 0 to |formantFilters|
        invariant stopped == retired + r[..|oscillators| + i]
      {
        stopped := stopped + [RetiredFilter(Unplug(formantFilters[i]))];
      }
      if noiseSource.Some? {
        stopped := stopped + [RetiredNoise(HaltNoise(noiseSource.value))];
      }
      stopped := stopped + [RetiredGain(noiseGain.(connected := false))];
      assert stopped == retired + r;
      oscillators, formantFilters, noiseSource, noiseGain, retired := [], [], None, FreshGain, stopped;
    }
  }
}
