// Musical note naming (src/util/audio/musical.rs): MIDI numbers in twelve-
// tone equal temperament, with A4 = MIDI 69 = 440 Hz and MIDI 0 = C-1.
module Musical {
  import opened Base

  const A440_MIDI: int := 69
  const SEMITONES_PER_OCTAVE: int := 12
  const MIDI_OCTAVE_OFFSET: int := 1

  const NOTE_NAMES: seq<string> := ["C", "C#", "D", "D#", "E", "F", "F#", "G", "G#", "A", "A#", "B"]

  /** MusicalNote: a MIDI number with its note name and octave. */
  datatype MusicalNote = MusicalNote(midiNumber: int, name: string, octave: int)

  /** Rust's `/` on i32: the quotient truncated toward zero. */
  function TruncDiv(a: int, b: int): int
    requires b > 0
  {
    if a >= 0 then a / b else -((-a) / b)
  }

  /** Rust's `%` on i32: the remainder takes the sign of the dividend. */
  function TruncRem(a: int, b: int): (r: int)
    requires b > 0
    ensures -b < r < b && a == TruncDiv(a, b) * b + r
  {
    a - TruncDiv(a, b) * b
  }

  /**
   * The note index `((m % 12 + 12) % 12)`: in 0..11 for every MIDI
   * number, negative ones included, and congruent to it modulo 12.
   */
  function NoteIndex(midi: int): (r: nat)
    ensures r < 12 && r == midi % 12
  {
    (TruncRem(midi, SEMITONES_PER_OCTAVE) + SEMITONES_PER_OCTAVE) % SEMITONES_PER_OCTAVE
  }

  /**
   * from_midi as written: the octave is the truncated quotient minus one,
   * which is one too high for negative MIDI numbers that are not
   * multiples of twelve.
   */
  function FromMidiAsWritten(midi: int): (r: Option<MusicalNote>)
    ensures r.Some? && r.value.midiNumber == midi && r.value.name == NOTE_NAMES[NoteIndex(midi)]
    ensures r.value.octave == TruncDiv(midi, SEMITONES_PER_OCTAVE) - MIDI_OCTAVE_OFFSET
  {
    Some(MusicalNote(midi, NOTE_NAMES[NoteIndex(midi)], TruncDiv(midi, SEMITONES_PER_OCTAVE) - MIDI_OCTAVE_OFFSET))
  }

  /** from_midi with the octave taken by floor division, so that each octave starts at C. */
  function FromMidi(midi: int): (r: Option<MusicalNote>)
    ensures r.Some? && r.value.midiNumber == midi && r.value.name == NOTE_NAMES[NoteIndex(midi)]
    ensures SEMITONES_PER_OCTAVE * (r.value.octave + MIDI_OCTAVE_OFFSET) + NoteIndex(midi) == midi
  {
    Some(MusicalNote(midi, NOTE_NAMES[NoteIndex(midi)], midi / SEMITONES_PER_OCTAVE - MIDI_OCTAVE_OFFSET))
  }

  /** The index of a note name, when it is one. */
  function NameIndex(name: string): (r: Option<nat>)
    ensures r.Some? ==> r.value < 12 && NOTE_NAMES[r.value] == name
  {
    if name == "C" then Some(0) else if name == "C#" then Some(1) else if name == "D" then Some(2)
    else if name == "D#" then Some(3) else if name == "E" then Some(4) else if name == "F" then Some(5)
    else if name == "F#" then Some(6) else if name == "G" then Some(7) else if name == "G#" then Some(8)
    else if name == "A" then Some(9) else if name == "A#" then Some(10) else if name == "B" then Some(11)
    else None
  }

  lemma NameIndexOfNoteName(k: nat)
    requires k < 12
    ensures NameIndex(NOTE_NAMES[k]) == Some(k)
  {
  }

  /** The MIDI number a name and octave denote. */
  function MidiOf(n: MusicalNote): (r: Option<int>)
  {
    var k := NameIndex(n.name);
    if k.None? then None else Some(SEMITONES_PER_OCTAVE * (n.octave + MIDI_OCTAVE_OFFSET) + k.value)
  }

  /** The name and octave of the corrected note denote its MIDI number again. */
  lemma FromMidiRoundTrip(midi: int)
    ensures MidiOf(FromMidi(midi).value) == Some(midi)
  {
    NameIndexOfNoteName(NoteIndex(midi));
  }

  /** The two agree on every MIDI number from 0 up. */
  lemma FromMidiAgreesFromZero(midi: int)
    requires midi >= 0
    ensures FromMidiAsWritten(midi) == FromMidi(midi)
  {
  }

  /** As written, MIDI -1 and MIDI 11 are both named B-1 (the name and octave of 11). */
  lemma AsWrittenOctaveClash()
    ensures FromMidiAsWritten(-1).value.name == FromMidiAsWritten(11).value.name == "B"
    ensures FromMidiAsWritten(-1).value.octave == FromMidiAsWritten(11).value.octave == -1
    ensures MidiOf(FromMidiAsWritten(-1).value) == Some(11)
    ensures FromMidi(-1).value.octave == -2
  {
    assert NoteIndex(-1) == 11;
    assert TruncDiv(-1, 12) == 0;
  }

  /**
   * from_frequency: nothing for a non-positive frequency; otherwise the
   * note of the rounded MIDI number 69 + 12 log2(f / 440). The logarithm
   * is a parameter.
   */
  function FromFrequency(freqHz: real, log2: real -> real): (r: Option<MusicalNote>)
    ensures freqHz <= 0.0 <==> r.None?
    ensures r.Some? ==> r == FromMidi(Round(A440_MIDI as real + SEMITONES_PER_OCTAVE as real * log2(freqHz / 440.0)))
  {
    if freqHz <= 0.0 then None
    else FromMidi(Round(A440_MIDI as real + SEMITONES_PER_OCTAVE as real * log2(freqHz / 440.0)))
  }

  /** The note of 440 Hz is A4, when the logarithm gives log2(1) = 0. */
  lemma A440IsA4(log2: real -> real)
    requires log2(1.0) == 0.0
    ensures FromFrequency(440.0, log2) == Some(MusicalNote(69, "A", 4))
  {
    assert 440.0 / 440.0 == 1.0;
    assert Round(69.0) == 69;
  }

  /** is_black: the sharps C#, D#, F#, G#, A#. */
  predicate IsBlack(n: MusicalNote)
  {
    n.name == "C#" || n.name == "D#" || n.name == "F#" || n.name == "G#" || n.name == "A#"
  }

  /** A note from a MIDI number is black exactly at note indices 1, 3, 6, 8 and 10. */
  lemma BlackKeys(midi: int)
    ensures IsBlack(FromMidi(midi).value) <==> NoteIndex(midi) in {1, 3, 6, 8, 10}
  {
    var k := NoteIndex(midi);
    assert k == 0 || k == 1 || k == 2 || k == 3 || k == 4 || k == 5 || k == 6 || k == 7 || k == 8 || k == 9 || k == 10 || k == 11;
  }

  /** format: the name followed by the octave. */
  function Format(n: MusicalNote): (r: string)
    ensures |r| > |n.name| && r[..|n.name|] == n.name
    ensures r[|n.name|..] == IntToString(n.octave)
  {
    n.name + IntToString(n.octave)
  }
}
