/**
  The harmony engine: note names and MIDI numbers, scale pitch-class sets,
  scale quantisation and the four fixed voicings (src/utils/harmony.ts).
  Pitches are MIDI note numbers; `midiToFrequency` (440 * 2^((m - 69) / 12))
  is not expressible over `real`, so it is the parameter `hz` of the members
  that need a frequency.
 */
module Harmony {
  import opened Common

  const NoteNames: seq<string> := ["C", "C#", "D", "D#", "E", "F", "F#", "G", "G#", "A", "A#", "B"]

  datatype Scale = Major | Minor

  function ScaleIntervals(scale: Scale): seq<int>
  {
    match scale
    case Major => [0, 2, 4, 5, 7, 9, 11]
    case Minor => [0, 2, 3, 5, 7, 8, 10]
  }

  /** `noteNames.indexOf(note)`: the position of a note name, -1 for anything else. */
  function NoteIndex(note: string): (i: int)
    ensures -1 <= i < 12
    ensures i >= 0 ==> NoteNames[i] == note
    ensures i == -1 <==> note !in NoteNames
  {
    match note
    case "C" => 0
    case "C#" => 1
    case "D" => 2
    case "D#" => 3
    case "E" => 4
    case "F" => 5
    case "F#" => 6
    case "G" => 7
    case "G#" => 8
    case "A" => 9
    case "A#" => 10
    case "B" => 11
    case _ => -1
  }

  /** The twelve names are pairwise different, so each is found at its own position. */
  lemma NoteIndexOfName(k: int)
    requires 0 <= k < 12
    ensures NoteIndex(NoteNames[k]) == k
  {
    if k == 0 {} else if k == 1 {} else if k == 2 {} else if k == 3 {} else if k == 4 {} else if k == 5 {}
    else if k == 6 {} else if k == 7 {} else if k == 8 {} else if k == 9 {} else if k == 10 {} else {}
  }

  /** `noteToMidi`: (octave + 1) * 12 plus the note's index (which is -1 for an unknown name). */
  function NoteToMidi(note: string, octave: int): (midi: int)
    ensures note in NoteNames ==> midi % 12 == NoteIndex(note) && midi / 12 == octave + 1
    ensures note !in NoteNames ==> midi == (octave + 1) * 12 - 1
  {
    (octave + 1) * 12 + NoteIndex(note)
  }

  /** The note-name part of `midiToNote`: `noteNames[midi % 12]` with JavaScript's `%`;
      a negative index prints as "undefined". */
  function PitchName(midi: int): string
  {
    var i := JsRem(midi, 12);
    if i >= 0 then NoteNames[i] else "undefined"
  }

  /** The octave part of `midiToNote`: `Math.floor(midi / 12) - 1`. */
  function MidiOctave(midi: int): int
  {
    midi / 12 - 1
  }

  /** `midiToNote`: the name followed by the printed octave, e.g. 60 gives "C4". */
  function MidiToNote(midi: int): string
  {
    PitchName(midi) + IntToString(MidiOctave(midi))
  }

  /** Round trip from a named note: printing its MIDI number gives the name and octave back. */
  lemma NoteRoundTrip(note: string, octave: int)
    requires note in NoteNames && octave >= -1
    ensures MidiToNote(NoteToMidi(note, octave)) == note + IntToString(octave)
  {
    var midi := NoteToMidi(note, octave);
    assert midi >= 0;
    NoteIndexOfName(NoteIndex(note));
  }

  /** Round trip from a MIDI number: the printed name and octave map back to the same number. */
  lemma MidiRoundTrip(midi: int)
    requires midi >= 0
    ensures PitchName(midi) in NoteNames
    ensures NoteToMidi(PitchName(midi), MidiOctave(midi)) == midi
  {
    NoteIndexOfName(midi % 12);
  }

  /** A printed note's name is two characters long exactly when its second character is '#'. */
  lemma NameLength(name: string, rest: string)
    requires name in NoteNames && |rest| >= 1 && rest[0] != '#'
    ensures |name| == (if (name + rest)[1] == '#' then 2 else 1)
  {
    assert forall k :: 0 <= k < 12 ==> 1 <= |NoteNames[k]| <= 2 && NoteNames[k][0] != '#';
    assert forall k :: 0 <= k < 12 && |NoteNames[k]| == 2 ==> NoteNames[k][1] == '#';
    if |name| == 1 {
      assert (name + rest)[1] == rest[0];
    } else {
      assert (name + rest)[1] == name[1];
    }
  }

  /** For non-negative MIDI numbers the printed note determines the number. */
  lemma MidiToNoteInjective(a: int, b: int)
    requires a >= 0 && b >= 0
    requires MidiToNote(a) == MidiToNote(b)
    ensures a == b
  {
    var na, nb := PitchName(a), PitchName(b);
    var oa, ob := IntToString(MidiOctave(a)), IntToString(MidiOctave(b));
    assert oa[0] != '#' && ob[0] != '#';
    var s := MidiToNote(a);
    assert s == na + oa == nb + ob;
    // The name is one character long unless the second character is '#'.
    NameLength(na, oa);
    NameLength(nb, ob);
    assert na == s[..|na|] == nb;
    assert oa == s[|na|..] == ob;
    IntToStringInjective(MidiOctave(a), MidiOctave(b));
    MidiRoundTrip(a);
    MidiRoundTrip(b);
  }

  /** Reduction modulo 12 of a number below 24. */
  lemma Mod12(x: int)
    requires -12 <= x < 24
    ensures x % 12 == if x < 0 then x + 12 else if x < 12 then x else x - 12
  {
  }

  /** `getScaleNotes`: the pitch classes (rootIndex + interval) % 12 of the scale, in interval order. */
  function ScaleNotes(root: string, scale: Scale): (notes: seq<int>)
    ensures |notes| == 7
    ensures root in NoteNames ==> forall k :: 0 <= k < 7 ==> 0 <= notes[k] < 12
  {
    var rootIndex := NoteIndex(root);
    var intervals := ScaleIntervals(scale);
    seq(7, k requires 0 <= k < 7 => JsRem(rootIndex + intervals[k], 12))
  }

  /** A pitch class belongs to the scale exactly when its distance above the key is a scale interval. */
  lemma ScaleMembership(root: string, scale: Scale, pc: int)
    requires root in NoteNames && 0 <= pc < 12
    ensures pc in ScaleNotes(root, scale) <==> (pc - NoteIndex(root)) % 12 in ScaleIntervals(scale)
  {
    var r, notes, iv := NoteIndex(root), ScaleNotes(root, scale), ScaleIntervals(scale);
    Mod12(pc - r);
    if pc in notes {
      var k :| 0 <= k < 7 && notes[k] == pc;
      Mod12(r + iv[k]);
      assert (pc - r) % 12 == iv[k];
    }
    if (pc - r) % 12 in iv {
      var k :| 0 <= k < 7 && iv[k] == (pc - r) % 12;
      Mod12(r + iv[k]);
      assert notes[k] == pc;
    }
  }

  /** The seven pitch classes of a scale on a named key are pairwise different. */
  lemma ScaleNotesDistinct(root: string, scale: Scale)
    requires root in NoteNames
    ensures forall i, j :: 0 <= i < j < 7 ==> ScaleNotes(root, scale)[i] != ScaleNotes(root, scale)[j]
  {
    var r, iv := NoteIndex(root), ScaleIntervals(scale);
    forall i, j | 0 <= i < j < 7
      ensures ScaleNotes(root, scale)[i] != ScaleNotes(root, scale)[j]
    {
      assert 0 <= iv[i] < iv[j] < 12;
      Mod12(r + iv[i]);
      Mod12(r + iv[j]);
    }
  }

  // ---------------------------------------------------------------- voicings

  /** A harmony voice. The source's voice also carries `note: midiToNote(midi)`; it is always
      that function of `midi`, so here it is derived by VoiceNote rather than stored. */
  datatype Voice = Voice(name: Role, midi: int, frequency: real)

  /** The printed note of a voice. */
  function VoiceNote(v: Voice): string
  {
    MidiToNote(v.midi)
  }

  /** One harmony voice: its MIDI number and frequency. */
  function MakeVoice(name: Role, midi: int, hz: int -> real): Voice
  {
    Voice(name, midi, hz(midi))
  }

  const RoleOrder: seq<Role> := [Bass, Tenor, Alto, Soprano]

  /** Four voices in bass, tenor, alto, soprano order whose MIDI numbers strictly rise. */
  predicate Ensemble(voices: seq<Voice>)
  {
    && |voices| == 4
    && voices[0].name == Bass && voices[1].name == Tenor && voices[2].name == Alto && voices[3].name == Soprano
    && voices[0].midi < voices[1].midi < voices[2].midi < voices[3].midi
  }

  lemma EnsembleOrdered(voices: seq<Voice>)
    requires Ensemble(voices)
    ensures forall k :: 0 <= k < 4 ==> voices[k].name == RoleOrder[k]
    ensures forall j, k :: 0 <= j < k < 4 ==> voices[j].midi < voices[k].midi
  {
  }

  /** A voice sounding `midi` at its frequency. */
  predicate Sounds(v: Voice, midi: int, hz: int -> real)
  {
    v.midi == midi && v.frequency == hz(midi)
  }

  /** Each voice sits at its offset above the root. */
  predicate AtOffsets(voices: seq<Voice>, rootMidi: int, offsets: seq<int>, hz: int -> real)
  {
    && |voices| == 4 && |offsets| == 4
    && Sounds(voices[0], rootMidi + offsets[0], hz) && Sounds(voices[1], rootMidi + offsets[1], hz)
    && Sounds(voices[2], rootMidi + offsets[2], hz) && Sounds(voices[3], rootMidi + offsets[3], hz)
  }

  // The voicing helpers take the scale notes, as in the source, and ignore them.

  function GenerateTriad(rootMidi: int, scaleNotes: seq<int>, hz: int -> real): (voices: seq<Voice>)
    ensures Ensemble(voices) && AtOffsets(voices, rootMidi, [0, 4, 7, 12], hz)
  {
    var third := rootMidi + ScaleIntervals(Major)[2];
    var fifth := rootMidi + ScaleIntervals(Major)[4];
    [MakeVoice(Bass, rootMidi, hz), MakeVoice(Tenor, third, hz),
     MakeVoice(Alto, fifth, hz), MakeVoice(Soprano, rootMidi + 12, hz)]
  }

  function GenerateSatb(rootMidi: int, scaleNotes: seq<int>, hz: int -> real): (voices: seq<Voice>)
    ensures Ensemble(voices) && AtOffsets(voices, rootMidi, [-12, 0, 4, 19], hz)
  {
    var bass := rootMidi - 12;
    var tenor := rootMidi;
    var alto := rootMidi + ScaleIntervals(Major)[2];
    var soprano := rootMidi + ScaleIntervals(Major)[4] + 12;
    [MakeVoice(Bass, bass, hz), MakeVoice(Tenor, tenor, hz),
     MakeVoice(Alto, alto, hz), MakeVoice(Soprano, soprano, hz)]
  }

  function GenerateCloseHarmony(rootMidi: int, scaleNotes: seq<int>, hz: int -> real): (voices: seq<Voice>)
    ensures Ensemble(voices) && AtOffsets(voices, rootMidi, [0, 3, 5, 7], hz)
  {
    [MakeVoice(Bass, rootMidi, hz), MakeVoice(Tenor, rootMidi + 3, hz),
     MakeVoice(Alto, rootMidi + 5, hz), MakeVoice(Soprano, rootMidi + 7, hz)]
  }

  function GenerateOpenHarmony(rootMidi: int, scaleNotes: seq<int>, hz: int -> real): (voices: seq<Voice>)
    ensures Ensemble(voices) && AtOffsets(voices, rootMidi, [-12, 4, 7, 16], hz)
  {
    [MakeVoice(Bass, rootMidi - 12, hz), MakeVoice(Tenor, rootMidi + 4, hz),
     MakeVoice(Alto, rootMidi + 7, hz), MakeVoice(Soprano, rootMidi + 16, hz)]
  }

  /** `generateHarmony`: the voicing named by `voicing`, any other string giving the triad. */
  function GenerateHarmony(rootNote: string, octave: int, scale: Scale, voicing: string, hz: int -> real)
    : (voices: seq<Voice>)
    ensures |voices| == 4
    ensures forall k :: 0 <= k < 4 ==> voices[k].name == RoleOrder[k]
    ensures forall j, k :: 0 <= j < k < 4 ==> voices[j].midi < voices[k].midi
  {
    var rootMidi := NoteToMidi(rootNote, octave);
    var scaleNotes := ScaleNotes(rootNote, scale);
    var voices := match voicing
      case "triad" => GenerateTriad(rootMidi, scaleNotes, hz)
      case "satb" => GenerateSatb(rootMidi, scaleNotes, hz)
      case "close" => GenerateCloseHarmony(rootMidi, scaleNotes, hz)
      case "open" => GenerateOpenHarmony(rootMidi, scaleNotes, hz)
      case _ => GenerateTriad(rootMidi, scaleNotes, hz);
    EnsembleOrdered(voices);
    voices
  }

  /** The voicing table: semitone offsets from the root, in bass, tenor, alto, soprano order. */
  function VoicingOffsets(voicing: string): seq<int>
  {
    if voicing == "satb" then [-12, 0, 4, 19]
    else if voicing == "close" then [0, 3, 5, 7]
    else if voicing == "open" then [-12, 4, 7, 16]
    else [0, 4, 7, 12]
  }

  /** Every generated voice sits at its table offset above noteToMidi(root, octave), carries
      its role, and sounds its own MIDI number. */
  lemma HarmonyFollowsTable(rootNote: string, octave: int, scale: Scale, voicing: string, hz: int -> real, k: int)
    requires 0 <= k < 4
    ensures var v := GenerateHarmony(rootNote, octave, scale, voicing, hz)[k];
            v.name == RoleOrder[k] && v.midi == NoteToMidi(rootNote, octave) + VoicingOffsets(voicing)[k]
            && v.frequency == hz(v.midi)
  {
    var rootMidi, notes := NoteToMidi(rootNote, octave), ScaleNotes(rootNote, scale);
    var v := GenerateHarmony(rootNote, octave, scale, voicing, hz);
    if voicing == "satb" {
      assert v == GenerateSatb(rootMidi, notes, hz);
    } else if voicing == "close" {
      assert v == GenerateCloseHarmony(rootMidi, notes, hz);
    } else if voicing == "open" {
      assert v == GenerateOpenHarmony(rootMidi, notes, hz);
    } else {
      assert v == GenerateTriad(rootMidi, notes, hz);
    }
  }

  /** The scale never changes the voices: no voicing helper reads the scale notes. */
  lemma HarmonyIgnoresScale(rootNote: string, octave: int, voicing: string, hz: int -> real)
    ensures GenerateHarmony(rootNote, octave, Major, voicing, hz)
         == GenerateHarmony(rootNote, octave, Minor, voicing, hz)
  {
  }

  /** With an increasing frequency map, the voices' frequencies increase from bass to soprano. */
  lemma HarmonyFrequenciesIncrease(rootNote: string, octave: int, scale: Scale, voicing: string, hz: int -> real)
    requires forall m, n :: m < n ==> hz(m) < hz(n)
    ensures var v := GenerateHarmony(rootNote, octave, scale, voicing, hz);
            forall j, k :: 0 <= j < k < 4 ==> v[j].frequency < v[k].frequency
  {
    var v := GenerateHarmony(rootNote, octave, scale, voicing, hz);
    forall j, k | 0 <= j < k < 4
      ensures v[j].frequency < v[k].frequency
    {
      HarmonyFollowsTable(rootNote, octave, scale, voicing, hz, j);
      HarmonyFollowsTable(rootNote, octave, scale, voicing, hz, k);
    }
  }

  /** Scenario: G3 in C major with the triad gives midi 55, 59, 62, 67. */
  lemma TriadOnG3(scale: Scale, hz: int -> real)
    ensures var v := GenerateHarmony("G", 3, scale, "triad", hz);
            v[0].midi == 55 && v[1].midi == 59 && v[2].midi == 62 && v[3].midi == 67
  {
    assert NoteToMidi("G", 3) == 55;
    HarmonyFollowsTable("G", 3, scale, "triad", hz, 0);
    HarmonyFollowsTable("G", 3, scale, "triad", hz, 1);
    HarmonyFollowsTable("G", 3, scale, "triad", hz, 2);
    HarmonyFollowsTable("G", 3, scale, "triad", hz, 3);
  }

  // ---------------------------------------------------------------- quantisation

  /** The distance the quantiser minimises: `Math.abs((d - s + 12) % 12)`, how far the
      scale note s lies below d, cyclically. */
  function Distance(d: int, s: int): int
  {
    var r := JsRem(d - s + 12, 12);
    if r < 0 then -r else r
  }

  /** pc is a scale note at least as close (by Distance) as every other scale note. */
  predicate IsNearest(d: int, notes: seq<int>, pc: int)
  {
    pc in notes && forall s :: s in notes ==> Distance(d, pc) <= Distance(d, s)
  }

  datatype Quantized = Quantized(note: string, octave: int, midi: int)

  /** `quantizeToScale`: a min-scan over the scale notes for the smallest Distance, keeping the
      first on ties; the octave is passed through. */
  method QuantizeToScale(detectedNote: string, detectedOctave: int, key: string, scale: Scale)
    returns (q: Quantized)
    requires key in NoteNames
    ensures q.octave == detectedOctave
    ensures var pc := q.midi - (detectedOctave + 1) * 12;
            0 <= pc < 12 && q.note == NoteNames[pc] && IsNearest(NoteIndex(detectedNote), ScaleNotes(key, scale), pc)
  {
    var scaleNotes := ScaleNotes(key, scale);
    var detectedNoteIndex := NoteIndex(detectedNote);
    var closestScaleNote := scaleNotes[0];
    var minDistance := 12;
    for k := 0 to |scaleNotes|
      invariant closestScaleNote in scaleNotes
      invariant k > 0 ==> minDistance == Distance(detectedNoteIndex, closestScaleNote)
      invariant k == 0 ==> minDistance == 12 && closestScaleNote == scaleNotes[0]
      invariant forall j :: 0 <= j < k ==> minDistance <= Distance(detectedNoteIndex, scaleNotes[j])
    {
      var distance := Distance(detectedNoteIndex, scaleNotes[k]);
      if distance < minDistance {
        minDistance := distance;
        closestScaleNote := scaleNotes[k];
      }
    }
    forall s | s in scaleNotes
      ensures minDistance <= Distance(detectedNoteIndex, s)
    {
      var j :| 0 <= j < |scaleNotes| && scaleNotes[j] == s;
    }
    assert 0 <= closestScaleNote < 12 && IsNearest(detectedNoteIndex, scaleNotes, closestScaleNote);
    q := Quantized(NoteNames[closestScaleNote], detectedOctave, detectedOctave * 12 + closestScaleNote + 12);
  }

  /** On a named key the nearest scale note is unique. */
  lemma NearestUnique(d: int, key: string, scale: Scale, a: int, b: int)
    requires key in NoteNames && -1 <= d < 12
    requires IsNearest(d, ScaleNotes(key, scale), a) && IsNearest(d, ScaleNotes(key, scale), b)
    ensures a == b
  {
    var notes := ScaleNotes(key, scale);
    assert 0 <= a < 12 && 0 <= b < 12;
    assert Distance(d, a) == Distance(d, b);
    Mod12(d - a + 12);
    Mod12(d - b + 12);
  }

  /** Idempotence: a note already in the scale is its own (and only) nearest scale note. */
  lemma QuantizeInScale(d: int, key: string, scale: Scale)
    requires key in NoteNames && d in ScaleNotes(key, scale)
    ensures IsNearest(d, ScaleNotes(key, scale), d)
    ensures forall pc :: IsNearest(d, ScaleNotes(key, scale), pc) ==> pc == d
  {
    var notes := ScaleNotes(key, scale);
    assert Distance(d, d) == 0;
    forall pc | IsNearest(d, notes, pc) ensures pc == d {
      NearestUnique(d, key, scale, pc, d);
    }
  }

  /** Scenario: C# in C major quantises to C (the note below, not D above). */
  lemma QuantizeCSharpInCMajor(pc: int)
    requires IsNearest(NoteIndex("C#"), ScaleNotes("C", Major), pc)
    ensures pc == 0
  {
    var notes := ScaleNotes("C", Major);
    assert NoteIndex("C#") == 1 && NoteIndex("C") == 0;
    assert notes == [0, 2, 4, 5, 7, 9, 11];
    assert Distance(1, pc) <= Distance(1, 0) == 1;
    Mod12(13 - pc);
  }

  /** Scenario: C in C major stays C. */
  lemma QuantizeCInCMajor(pc: int)
    requires IsNearest(NoteIndex("C"), ScaleNotes("C", Major), pc)
    ensures pc == 0
  {
    var notes := ScaleNotes("C", Major);
    assert NoteIndex("C") == 0;
    assert notes == [0, 2, 4, 5, 7, 9, 11];
    assert Distance(0, pc) <= Distance(0, 0) == 0;
    Mod12(12 - pc);
  }

  /** Scenario: B in C minor quantises to A#. */
  lemma QuantizeBInCMinor(pc: int)
    requires IsNearest(NoteIndex("B"), ScaleNotes("C", Minor), pc)
    ensures pc == 10
  {
    var notes := ScaleNotes("C", Minor);
    assert NoteIndex("B") == 11 && NoteIndex("C") == 0;
    assert notes == [0, 2, 3, 5, 7, 8, 10];
    assert Distance(11, pc) <= Distance(11, 10) == 1;
    Mod12(23 - pc);
  }

  /** Scenario: C in D major wraps to B, so with the octave unchanged C4 becomes B4 (midi 71). */
  lemma QuantizeCInDMajor(pc: int)
    requires IsNearest(NoteIndex("C"), ScaleNotes("D", Major), pc)
    ensures pc == 11 && (4 + 1) * 12 + pc == 71
  {
    var notes := ScaleNotes("D", Major);
    assert NoteIndex("C") == 0 && NoteIndex("D") == 2;
    assert notes == [2, 4, 6, 7, 9, 11, 1];
    assert Distance(0, pc) <= Distance(0, 11) == 1;
    Mod12(12 - pc);
  }
}
