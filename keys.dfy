/**
 * The key table of the piano and the lookup the keyboard and click handlers
 * perform: a key identifier maps to a note name and an octave offset relative
 * to the current base octave.
 */
module Keys {
  import opened Wrappers
  import Pitch

  /** What a key plays: a note name of the offset table and an octave offset. */
  datatype Binding = Binding(note: string, octaveOffset: int)

  /** The thirteen keys: one chromatic octave on the home row, plus "k" for the C above. */
  const KeyMap: map<string, Binding> := map[
    "a" := Binding("C", 0),
    "w" := Binding("C#", 0),
    "s" := Binding("D", 0),
    "e" := Binding("D#", 0),
    "d" := Binding("E", 0),
    "f" := Binding("F", 0),
    "t" := Binding("F#", 0),
    "g" := Binding("G", 0),
    "y" := Binding("G#", 0),
    "h" := Binding("A", 0),
    "u" := Binding("A#", 0),
    "j" := Binding("B", 0),
    "k" := Binding("C", 1)
  ]

  /** The twelve keys of the base octave, in the pitch order they play. */
  const OctaveKeys: seq<string> := ["a", "w", "s", "e", "d", "f", "t", "g", "y", "h", "u", "j"]

  /** The key for the C one octave above the base octave. */
  const HighKey: string := "k"

  /** Lower-casing of one character (ASCII letters only). */
  function LowerChar(c: char): (r: char)
    ensures !('A' <= r <= 'Z')
    ensures 'A' <= c <= 'Z' ==> r as int == c as int + 32
    ensures !('A' <= c <= 'Z') ==> r == c
  {
    if 'A' <= c <= 'Z' then (c as int + 32) as char else c
  }

  /** Lower-casing of a key name, character by character. */
  function LowerCase(s: string): (r: string)
    ensures |r| == |s|
    ensures forall i :: 0 <= i < |s| ==> r[i] == LowerChar(s[i])
  {
    if s == [] then [] else [LowerChar(s[0])] + LowerCase(s[1..])
  }

  /** The table lookup shared by both handlers; a miss is `None`. */
  function Lookup(key: string): (r: Option<Binding>)
    ensures r.Some? <==> key in KeyMap
    ensures r.Some? ==> r.value.note in Pitch.NoteOffsets && 0 <= r.value.octaveOffset <= 1
  {
    if key in KeyMap then Some(KeyMap[key]) else None
  }

  /** What a keydown with the given key would play: the key is lower-cased first. */
  function KeyDownBinding(key: string): (r: Option<Binding>)
    ensures r.Some? <==> LowerCase(key) in KeyMap
    ensures r.Some? ==> r.value == KeyMap[LowerCase(key)] && r.value.note in Pitch.NoteOffsets
  {
    Lookup(LowerCase(key))
  }

  /**
   * Semitone distance a binding plays at, given the current base octave and
   * transposition: the note sounds in octave `baseOctave + octaveOffset`.
   */
  function BindingDistance(b: Binding, baseOctave: int, transpose: int): int
    requires b.note in Pitch.NoteOffsets
  {
    Pitch.SemitoneDistance(b.note, baseOctave + b.octaveOffset, transpose)
  }

  /** Semitone distance that a key identifier plays at, or `None` for an unmapped key. */
  function KeyDistance(key: string, baseOctave: int, transpose: int): (r: Option<int>)
    ensures r.Some? <==> key in KeyMap
  {
    match Lookup(key)
    case None => None
    case Some(b) => Some(BindingDistance(b, baseOctave, transpose))
  }

  /** Lower-casing twice is lower-casing once. */
  lemma {:induction false} LowerCaseIdempotent(s: string)
    ensures LowerCase(LowerCase(s)) == LowerCase(s)
  {
    if s != [] {
      LowerCaseIdempotent(s[1..]);
    }
  }

  /** The keydown handler is case-insensitive: a key and its lower-case form play the same. */
  lemma KeyDownCaseInsensitive(key: string)
    ensures KeyDownBinding(key) == KeyDownBinding(LowerCase(key))
    ensures KeyDownBinding(key) == Lookup(LowerCase(key))
  {
    LowerCaseIdempotent(key);
  }

  /** The table has exactly thirteen keys: the twelve octave keys and the high key. */
  lemma KeyMapSize()
    ensures KeyMap.Keys == (set k | k in OctaveKeys) + {HighKey}
    ensures |KeyMap| == 13
  {
    var all := OctaveKeys + [HighKey];
    assert KeyMap.Keys == set k | k in all;
    var initials := "awsedftgyhujk";
    assert forall i :: 0 <= i < 13 ==> |all[i]| == 1 && all[i][0] == initials[i];
    assert forall i, j :: 0 <= i < j < 13 ==> initials[i] != initials[j];
    DistinctCount(all);
  }

  /** A sequence without repetitions has as many distinct elements as it is long. */
  lemma {:induction false} DistinctCount<T>(s: seq<T>)
    requires forall i, j :: 0 <= i < j < |s| ==> s[i] != s[j]
    ensures |set x | x in s| == |s|
  {
    if s != [] {
      DistinctCount(s[1..]);
      assert (set x | x in s) == {s[0]} + (set x | x in s[1..]);
      assert s[0] !in (set x | x in s[1..]);
    }
  }

  /** The i-th octave key plays the i-th note name (offset i) in the base octave. */
  lemma OctaveKeysInOrder(i: int)
    requires 0 <= i < 12
    ensures OctaveKeys[i] in KeyMap
    ensures KeyMap[OctaveKeys[i]] == Binding(Pitch.NoteNames[i], 0)
    ensures Pitch.NoteOffsets[KeyMap[OctaveKeys[i]].note] == i
  {
    Pitch.OffsetTable();
  }

  /** "k" plays C one octave above "a": twelve semitones higher, twice the frequency. */
  lemma HighKeyIsOctaveAbove(baseOctave: int, transpose: int)
    ensures KeyDistance(HighKey, baseOctave, transpose).Some?
    ensures KeyDistance("a", baseOctave, transpose).Some?
    ensures KeyDistance(HighKey, baseOctave, transpose).value == KeyDistance("a", baseOctave, transpose).value + 12
  {
  }

  /** With the default settings (base octave 4, no transposition) "a" plays C4 and "k" plays C5. */
  lemma DefaultSettingsPitches()
    ensures KeyDistance("a", 4, 0) == Some(-9)
    ensures KeyDistance("h", 4, 0) == Some(0)
    ensures KeyDistance("k", 4, 0) == Some(3)
    ensures KeyDistance("a", 5, 0) == Some(3)
  {
  }

  /** Upper-case keys reach the same binding on keydown; keys outside the table play nothing. */
  lemma KeyDownExamples()
    ensures KeyDownBinding("a") == Some(Binding("C", 0))
    ensures KeyDownBinding("k") == Some(Binding("C", 1))
    ensures KeyDownBinding("A") == Some(Binding("C", 0))
    ensures KeyDownBinding("K") == Some(Binding("C", 1))
    ensures KeyDownBinding("Shift") == None
    ensures KeyDownBinding("z") == None
  {
    assert LowerCase("a") == "a";
    assert LowerCase("k") == "k";
    assert LowerCase("A") == "a";
    assert LowerCase("K") == "k";
    assert LowerCase("Shift") == "shift";
    assert LowerCase("z") == "z";
  }

  /**
   * The pitches a keydown reaches through the player's own lookup: "a" and "A"
   * play C4 at base octave 4 and C5 at base octave 5, "k" plays C5 at base octave 4.
   */
  lemma KeyDownPitches()
    ensures KeyDownBinding("a").Some? && BindingDistance(KeyDownBinding("a").value, 4, 0) == -9
    ensures KeyDownBinding("k").Some? && BindingDistance(KeyDownBinding("k").value, 4, 0) == 3
    ensures KeyDownBinding("A").Some? && BindingDistance(KeyDownBinding("A").value, 5, 0) == 3
  {
    KeyDownExamples();
  }
}
