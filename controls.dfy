/**
 * The control panel: four buttons that move the base octave or the
 * transposition by one, without bounds.  `Press` is the meaning of one click;
 * the player's handlers are proved against it.
 */
module Controls {

  /** The two user-adjustable settings. */
  datatype Settings = Settings(baseOctave: int, transpose: int)

  /** The four control buttons. */
  datatype Button = OctaveUp | OctaveDown | TransposeUp | TransposeDown

  /** Settings at page load: base octave 4, no transposition. */
  const Initial: Settings := Settings(4, 0)

  /** Effect of one click. */
  function Press(s: Settings, b: Button): (r: Settings)
    // An octave button leaves the transposition alone, a transpose button the
    // base octave; up buttons add one and down buttons subtract one.
    ensures (b.OctaveUp? || b.OctaveDown?) <==> r.transpose == s.transpose
    ensures (b.TransposeUp? || b.TransposeDown?) <==> r.baseOctave == s.baseOctave
    ensures (r.baseOctave - s.baseOctave) + (r.transpose - s.transpose) == (if b.OctaveUp? || b.TransposeUp? then 1 else -1)
  {
    match b
    case OctaveUp => s.(baseOctave := s.baseOctave + 1)
    case OctaveDown => s.(baseOctave := s.baseOctave - 1)
    case TransposeUp => s.(transpose := s.transpose + 1)
    case TransposeDown => s.(transpose := s.transpose - 1)
  }

  /** The button that undoes `b`. */
  function Opposite(b: Button): (r: Button)
    ensures r != b
  {
    match b
    case OctaveUp => OctaveDown
    case OctaveDown => OctaveUp
    case TransposeUp => TransposeDown
    case TransposeDown => TransposeUp
  }

  /** Effect of clicking the buttons in order. */
  function PressAll(s: Settings, bs: seq<Button>): Settings
    decreases |bs|
  {
    if bs == [] then s else PressAll(Press(s, bs[0]), bs[1..])
  }

  /** How many times `b` occurs in `bs`. */
  function Count(bs: seq<Button>, b: Button): nat
  {
    if bs == [] then 0 else (if bs[0] == b then 1 else 0) + Count(bs[1..], b)
  }

  /** A click followed by its opposite restores the settings. */
  lemma PressThenOpposite(s: Settings, b: Button)
    ensures Press(Press(s, b), Opposite(b)) == s
    ensures PressAll(s, [b, Opposite(b)]) == s
  {
    var bs := [b, Opposite(b)];
    assert bs[1..] == [Opposite(b)];
    assert bs[1..][1..] == [];
    assert PressAll(s, bs) == PressAll(Press(s, b), [Opposite(b)]);
  }

  /**
   * Any sequence of clicks moves each setting by the number of its "up"
   * clicks minus the number of its "down" clicks.
   */
  lemma {:induction false} PressAllNet(s: Settings, bs: seq<Button>)
    ensures PressAll(s, bs) == Settings(
      s.baseOctave + Count(bs, OctaveUp) - Count(bs, OctaveDown),
      s.transpose + Count(bs, TransposeUp) - Count(bs, TransposeDown))
    decreases |bs|
  {
    if bs != [] {
      PressAllNet(Press(s, bs[0]), bs[1..]);
    }
  }

  /** The count of a button is its multiplicity in the multiset of clicks. */
  lemma {:induction false} CountIsMultiplicity(bs: seq<Button>, b: Button)
    ensures Count(bs, b) == multiset(bs)[b]
    decreases |bs|
  {
    if bs != [] {
      CountIsMultiplicity(bs[1..], b);
      assert bs == [bs[0]] + bs[1..];
      assert multiset(bs) == multiset([bs[0]]) + multiset(bs[1..]);
    }
  }

  /** The order of the clicks does not matter: the same clicks in any order give the same settings. */
  lemma PressAllOrderIrrelevant(s: Settings, bs1: seq<Button>, bs2: seq<Button>)
    requires multiset(bs1) == multiset(bs2)
    ensures PressAll(s, bs1) == PressAll(s, bs2)
  {
    PressAllNet(s, bs1);
    PressAllNet(s, bs2);
    CountIsMultiplicity(bs1, OctaveUp);
    CountIsMultiplicity(bs2, OctaveUp);
    CountIsMultiplicity(bs1, OctaveDown);
    CountIsMultiplicity(bs2, OctaveDown);
    CountIsMultiplicity(bs1, TransposeUp);
    CountIsMultiplicity(bs2, TransposeUp);
    CountIsMultiplicity(bs1, TransposeDown);
    CountIsMultiplicity(bs2, TransposeDown);
  }
}
