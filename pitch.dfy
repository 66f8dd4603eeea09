/**
 * Pitch arithmetic of the piano: the table of semitone offsets of the twelve
 * pitch classes (counted from C) and the signed semitone distance from A4.
 *
 * The source turns that distance d into 440 * 2^(d/12) Hz (twelve-tone equal
 * temperament anchored at A4 = 440 Hz).  That number is irrational in general,
 * so the model keeps the integer d exactly and states frequency facts as facts
 * about d: "the frequency doubles" is "d grows by 12", "440 Hz" is "d == 0".
 */
module Pitch {

  /** Semitone offset of each pitch class from C, keyed by the note names the source uses. */
  const NoteOffsets: map<string, int> := map[
    "C" := 0, "C#" := 1, "D" := 2, "D#" := 3, "E" := 4, "F" := 5,
    "F#" := 6, "G" := 7, "G#" := 8, "A" := 9, "A#" := 10, "B" := 11
  ]

  /** The twelve note names in ascending pitch order within one octave. */
  const NoteNames: seq<string> := ["C", "C#", "D", "D#", "E", "F", "F#", "G", "G#", "A", "A#", "B"]

  /** The octave of the reference pitch A4. */
  const ReferenceOctave: int := 4

  /** The anchor pitch class: its distance is zero in the reference octave. */
  const ReferenceNote: string := "A"

  /** Offset of a note name, looked up in the table. */
  function Offset(note: string): (r: int)
    requires note in NoteOffsets
    ensures 0 <= r < 12
    ensures NoteNames[r] == note
  {
    NoteOffsets[note]
  }

  /**
   * Signed number of semitones from A4 to `note` in `octave`, shifted by the
   * global transposition.  The frequency the source plays is 440 * 2^(d/12).
   */
  function SemitoneDistance(note: string, octave: int, transpose: int): (d: int)
    requires note in NoteOffsets
    // Every note of an octave lies between that octave's C (9 semitones below
    // its A) and its B (2 above); A of the reference octave sits at `transpose`.
    ensures (octave - ReferenceOctave) * 12 - 9 + transpose <= d <= (octave - ReferenceOctave) * 12 + 2 + transpose
    ensures note == ReferenceNote && octave == ReferenceOctave ==> d == transpose
  {
    var _ := Offset(note);
    (octave - ReferenceOctave) * 12 + (NoteOffsets[note] - NoteOffsets[ReferenceNote]) + transpose
  }

  /**
   * Counted from C of the reference octave and without transposition, the
   * distance splits into the octave (the quotient by 12) and the pitch class
   * (the remainder): both can be read back from it.
   */
  lemma DistanceDecodes(note: string, octave: int, transpose: int)
    requires note in NoteOffsets
    ensures (SemitoneDistance(note, octave, transpose) - transpose + NoteOffsets[ReferenceNote]) % 12 == NoteOffsets[note]
    ensures (SemitoneDistance(note, octave, transpose) - transpose + NoteOffsets[ReferenceNote]) / 12 == octave - ReferenceOctave
  {
    var r := Offset(note);
    var fromC := (octave - ReferenceOctave) * 12 + r;
    assert SemitoneDistance(note, octave, transpose) - transpose + NoteOffsets[ReferenceNote] == fromC;
    assert fromC / 12 == octave - ReferenceOctave && fromC % 12 == r;
  }

  /** The table holds exactly the twelve names, C..B get 0..11 in order, and A is 9. */
  lemma OffsetTable()
    ensures |NoteNames| == 12
    ensures NoteOffsets.Keys == set n | n in NoteNames
    ensures forall i :: 0 <= i < 12 ==> NoteOffsets[NoteNames[i]] == i
    ensures NoteOffsets[ReferenceNote] == 9
  {
  }

  /** Offsets strictly increase from C to B, so different names have different offsets. */
  lemma OffsetsAscending(i: int, j: int)
    requires 0 <= i < j < 12
    ensures NoteNames[i] in NoteOffsets && NoteNames[j] in NoteOffsets
    ensures NoteOffsets[NoteNames[i]] < NoteOffsets[NoteNames[j]]
  {
    OffsetTable();
  }

  /** Two note names with the same offset are the same name. */
  lemma OffsetInjective(n1: string, n2: string)
    requires n1 in NoteOffsets && n2 in NoteOffsets
    ensures NoteOffsets[n1] == NoteOffsets[n2] <==> n1 == n2
  {
    var _ := Offset(n1);
    var _ := Offset(n2);
  }

  /** A4 without transposition is exactly the 440 Hz anchor; middle C (C4) is 9 semitones below. */
  lemma ReferencePitches()
    ensures SemitoneDistance("A", 4, 0) == 0
    ensures SemitoneDistance("C", 4, 0) == -9
    ensures SemitoneDistance("C", 5, 0) == 3
  {
  }

  /** Distance 0 (440 Hz) without transposition is reached by A4 and by no other note and octave. */
  lemma AnchorIsUnique(note: string, octave: int)
    requires note in NoteOffsets
    ensures SemitoneDistance(note, octave, 0) == 0 <==> note == ReferenceNote && octave == ReferenceOctave
  {
    var r := Offset(note);
    if SemitoneDistance(note, octave, 0) == 0 {
      assert (octave - 4) * 12 == 9 - r;
      OffsetInjective(note, ReferenceNote);
    }
  }

  /** Raising the octave by one adds 12 semitones, i.e. doubles the frequency, for every note. */
  lemma OctaveAddsTwelve(note: string, octave: int, transpose: int)
    requires note in NoteOffsets
    ensures SemitoneDistance(note, octave + 1, transpose) == SemitoneDistance(note, octave, transpose) + 12
  {
  }

  /** Raising the transposition by 12 is the same as raising the octave by one. */
  lemma TransposeTwelveIsOctave(note: string, octave: int, transpose: int)
    requires note in NoteOffsets
    ensures SemitoneDistance(note, octave, transpose + 12) == SemitoneDistance(note, octave + 1, transpose)
    ensures SemitoneDistance(note, octave, transpose + 12) == SemitoneDistance(note, octave, transpose) + 12
  {
  }

  /** Transposition shifts the distance by exactly its own value, whatever the note and octave. */
  lemma TransposeShifts(note: string, octave: int, transpose: int)
    requires note in NoteOffsets
    ensures SemitoneDistance(note, octave, transpose) == SemitoneDistance(note, octave, 0) + transpose
  {
  }

  /**
   * Distinct (note, octave) pairs sound at distinct pitches under the same
   * transposition: the distance determines both the note and the octave.
   */
  lemma DistanceDeterminesPitch(n1: string, o1: int, n2: string, o2: int, transpose: int)
    requires n1 in NoteOffsets && n2 in NoteOffsets
    ensures SemitoneDistance(n1, o1, transpose) == SemitoneDistance(n2, o2, transpose) <==> n1 == n2 && o1 == o2
  {
    var r1, r2 := Offset(n1), Offset(n2);
    if SemitoneDistance(n1, o1, transpose) == SemitoneDistance(n2, o2, transpose) {
      assert (o1 - o2) * 12 == r2 - r1;
      OffsetInjective(n1, n2);
    }
  }

  /** Within one octave, a higher pitch class is a larger distance (a higher frequency). */
  lemma DistanceAscendsWithinOctave(i: int, j: int, octave: int, transpose: int)
    requires 0 <= i < j < 12
    ensures NoteNames[i] in NoteOffsets && NoteNames[j] in NoteOffsets
    ensures SemitoneDistance(NoteNames[j], octave, transpose) - SemitoneDistance(NoteNames[i], octave, transpose) == j - i
  {
    OffsetTable();
  }
}
