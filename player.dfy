/**
 * The player state of the piano: the base octave, the transposition and the
 * single oscillator slot, with the handlers that change them.  Starting a note
 * stops the tone in the slot, builds the new tone with its gain envelope and
 * puts it in the slot.  A ghost log records every start and stop, so that the
 * one-tone-at-a-time discipline can be stated and proved.
 */
module Player {
  import opened Wrappers
  import Pitch
  import Keys
  import Envelope
  import Controls

  /**
   * A started oscillator: its semitone distance from A4 (it sounds at
   * 440 * 2^(distance/12) Hz), its start time, its scheduled stop time and the
   * automation timeline of its gain.
   */
  datatype Tone = Tone(distance: int, start: real, stop: real, gain: seq<Envelope.Automation>)

  /** What happens to oscillators: one is started, or one is stopped at a time. */
  datatype Event = Started(tone: Tone) | Stopped(tone: Tone, at: real)

  /** The tone a note at `distance` gets when it starts at `now`. */
  function NewTone(distance: int, now: real): (t: Tone)
    ensures t.distance == distance && t.start == now && t.stop == now + Envelope.Duration
    ensures forall x :: now <= x ==> Envelope.ValueAt(Envelope.DefaultGain, t.gain, x) == Envelope.Envelope(now, x)
  {
    assert forall x :: now <= x ==> Envelope.ValueAt(Envelope.DefaultGain, Envelope.Schedule(now), x) == Envelope.Envelope(now, x) by {
      forall x | now <= x
        ensures Envelope.ValueAt(Envelope.DefaultGain, Envelope.Schedule(now), x) == Envelope.Envelope(now, x)
      {
        Envelope.ScheduleFollowsEnvelope(now, x);
      }
    }
    Tone(distance, now, now + Envelope.Duration, Envelope.Schedule(now))
  }

  /** Events logged when the slot holding `previous` is cleared at `now`. */
  ghost function StopEvents(previous: Option<Tone>, now: real): seq<Event>
  {
    match previous
    case None => []
    case Some(t) => [Stopped(t, now)]
  }

  /** The tone held after the logged events: the last one started, unless it was stopped since. */
  ghost function Holder(log: seq<Event>): Option<Tone>
  {
    if log == [] then None
    else match log[|log| - 1]
      case Started(t) => Some(t)
      case Stopped(_, _) => None
  }

  /** Every start happens while no tone is held, and every stop stops the tone held. */
  ghost predicate Exclusive(log: seq<Event>)
    decreases |log|
  {
    if log == [] then true
    else
      var prefix := log[..|log| - 1];
      && Exclusive(prefix)
      && match log[|log| - 1]
        case Started(_) => Holder(prefix) == None
        case Stopped(t, _) => Holder(prefix) == Some(t)
  }

  /** Every prefix of an exclusive log is exclusive. */
  lemma {:induction false} ExclusivePrefix(log: seq<Event>, n: nat)
    requires Exclusive(log) && n <= |log|
    ensures Exclusive(log[..n])
    decreases |log|
  {
    if n < |log| {
      ExclusivePrefix(log[..|log| - 1], n);
      assert log[..|log| - 1][..n] == log[..n];
    } else {
      assert log[..n] == log;
    }
  }

  /** In an exclusive log, the event right after a start is the stop of that same tone. */
  lemma StartIsFollowedByItsStop(log: seq<Event>, i: nat)
    requires Exclusive(log) && i + 1 < |log| && log[i].Started?
    ensures log[i + 1].Stopped? && log[i + 1].tone == log[i].tone
  {
    ExclusivePrefix(log, i + 2);
    var p := log[..i + 2];
    assert p[..|p| - 1] == log[..i + 1];
  }

  /** No two tones overlap: between any two starts the first tone has been stopped. */
  lemma NoTwoTonesAtOnce(log: seq<Event>, i: nat, j: nat)
    requires Exclusive(log) && i < j < |log| && log[i].Started? && log[j].Started?
    ensures exists k :: i < k < j && log[k].Stopped? && log[k].tone == log[i].tone
  {
    StartIsFollowedByItsStop(log, i);
    assert log[i + 1].Stopped? && log[i + 1].tone == log[i].tone;
  }

  /** The page's player: the two settings, the oscillator slot and the ghost history of oscillators. */
  class Piano {
    var baseOctave: int
    var transpose: int
    var active: Option<Tone>
    ghost var log: seq<Event>

    /** The slot holds exactly the tone the history says is held, and the history is one tone at a time. */
    ghost predicate Valid()
      reads this
    {
      Exclusive(log) && active == Holder(log)
    }

    /** The two settings as one value. */
    function Settings(): Controls.Settings
      reads this
    {
      Controls.Settings(baseOctave, transpose)
    }

    /** Page load: base octave 4, no transposition, no oscillator yet. */
    constructor ()
      ensures Valid()
      ensures Settings() == Controls.Initial
      ensures active == None && log == []
    {
      baseOctave := 4;
      transpose := 0;
      active := None;
      log := [];
    }

    /** The "octave up" button. */
    method OctaveUp()
      requires Valid()
      modifies this
      ensures Valid()
      ensures Settings() == Controls.Press(old(Settings()), Controls.OctaveUp)
      ensures active == old(active) && log == old(log)
    {
      baseOctave := baseOctave + 1;
    }

    /** The "octave down" button. */
    method OctaveDown()
      requires Valid()
      modifies this
      ensures Valid()
      ensures Settings() == Controls.Press(old(Settings()), Controls.OctaveDown)
      ensures active == old(active) && log == old(log)
    {
      baseOctave := baseOctave - 1;
    }

    /** The "transpose up" button. */
    method TransposeUp()
      requires Valid()
      modifies this
      ensures Valid()
      ensures Settings() == Controls.Press(old(Settings()), Controls.TransposeUp)
      ensures active == old(active) && log == old(log)
    {
      transpose := transpose + 1;
    }

    /** The "transpose down" button. */
    method TransposeDown()
      requires Valid()
      modifies this
      ensures Valid()
      ensures Settings() == Controls.Press(old(Settings()), Controls.TransposeDown)
      ensures active == old(active) && log == old(log)
    {
      transpose := transpose - 1;
    }

    /**
     * Play `note` in `octave` from time `now`: the tone in the slot (if any)
     * is stopped first, then a tone at the note's distance under the current
     * transposition starts at `now` with the four-point gain envelope, is
     * scheduled to stop at `now + 0.7`, and becomes the only tone held.
     */
    method PlayNote(note: string, octave: int, now: real)
      requires Valid()
      requires note in Pitch.NoteOffsets
      modifies this
      ensures Valid()
      ensures Settings() == old(Settings())
      ensures active == Some(NewTone(Pitch.SemitoneDistance(note, octave, transpose), now))
      ensures log == old(log) + StopEvents(old(active), now) + [Started(active.value)]
    {
      if active.Some? {
        log := log + [Stopped(active.value, now)];
        assert log[..|log| - 1] == old(log);
      }
      assert Holder(log) == None;
      var distance := Pitch.SemitoneDistance(note, octave, transpose);
      var gain := Envelope.CancelScheduled([], now);
      gain := gain + [Envelope.SetValueAt(0.0, now)];
      gain := gain + [Envelope.LinearRampTo(1.0, now + Envelope.AttackEnd)];
      gain := gain + [Envelope.SetValueAt(1.0, now + Envelope.HoldEnd)];
      gain := gain + [Envelope.LinearRampTo(0.0, now + Envelope.Duration)];
      assert gain == Envelope.Schedule(now);
      var tone := Tone(distance, now, now + Envelope.Duration, gain);
      ghost var before := log;
      active := Some(tone);
      log := log + [Started(tone)];
      assert log[..|log| - 1] == before;
    }

    /**
     * A keydown: the key is lower-cased and looked up; a mapped key plays its
     * note in octave `baseOctave + octaveOffset`, any other key changes nothing.
     */
    method KeyDown(key: string, now: real)
      requires Valid()
      modifies this
      ensures Valid()
      ensures Settings() == old(Settings())
      ensures Keys.KeyDownBinding(key).None? ==> active == old(active) && log == old(log)
      ensures Keys.KeyDownBinding(key).Some? ==>
        && active == Some(NewTone(Keys.BindingDistance(Keys.KeyDownBinding(key).value, baseOctave, transpose), now))
        && log == old(log) + StopEvents(old(active), now) + [Started(active.value)]
    {
      var k := Keys.LowerCase(key);
      match Keys.Lookup(k) {
        case None =>
        case Some(b) =>
          var effectiveOctave := baseOctave + b.octaveOffset;
          PlayNote(b.note, effectiveOctave, now);
      }
    }

    /**
     * A click on an on-screen key: its identifier is looked up as it is (no
     * lower-casing); a mapped key plays like a keydown, any other changes nothing.
     */
    method Click(key: string, now: real)
      requires Valid()
      modifies this
      ensures Valid()
      ensures Settings() == old(Settings())
      ensures Keys.Lookup(key).None? ==> active == old(active) && log == old(log)
      ensures Keys.Lookup(key).Some? ==>
        && active == Some(NewTone(Keys.BindingDistance(Keys.Lookup(key).value, baseOctave, transpose), now))
        && log == old(log) + StopEvents(old(active), now) + [Started(active.value)]
    {
      match Keys.Lookup(key) {
        case None =>
        case Some(b) =>
          var effectiveOctave := baseOctave + b.octaveOffset;
          PlayNote(b.note, effectiveOctave, now);
      }
    }
  }

  /**
   * A session: pressing "a", "k", then "octave up" and "A" plays C4, C5 and
   * C5 again, each stopping the previous tone at the moment the next starts.
   */
  method Session(t1: real, t2: real, t3: real) returns (piano: Piano)
    ensures piano.Valid()
    ensures piano.Settings() == Controls.Settings(5, 0)
    ensures piano.active == Some(NewTone(3, t3))
    ensures piano.log == [
      Started(NewTone(-9, t1)), Stopped(NewTone(-9, t1), t2),
      Started(NewTone(3, t2)), Stopped(NewTone(3, t2), t3),
      Started(NewTone(3, t3))]
  {
    piano := new Piano();
    Keys.KeyDownPitches();
    ghost var low, high, again := NewTone(-9, t1), NewTone(3, t2), NewTone(3, t3);
    piano.KeyDown("a", t1);
    assert piano.Settings() == Controls.Initial;
    assert piano.active == Some(low) && piano.log == [Started(low)];
    piano.KeyDown("k", t2);
    assert piano.Settings() == Controls.Initial;
    assert piano.active == Some(high) && piano.log == [Started(low), Stopped(low, t2), Started(high)];
    piano.OctaveUp();
    assert piano.Settings() == Controls.Settings(5, 0);
    piano.KeyDown("A", t3);
  }
}
