# Virtual piano: pitch arithmetic, player state and volume envelope

This project models the core of a browser virtual piano (`script.js`) in Dafny.

- **Frequency calculator.** A table gives the semitone offsets of the twelve note names C..B. The source computes the semitone distance of a note from A4 as `(octave - 4) * 12 + (offset[note] - offset["A"]) + transpose` and plays `440 * 2^(d/12)` Hz. The model keeps the integer distance `d` exactly. Frequency facts become facts about `d`: "the frequency doubles" is "`d` grows by 12", and "440 Hz" is "`d` = 0".
- **Key table and lookup.** Thirteen key identifiers map to a note name and an octave offset. A keydown lower-cases the key before the lookup; a click on an on-screen key looks up its `data-key` as it is. A mapped key plays its note in octave `baseOctave + octaveOffset`. Any other key changes nothing.
- **Player.** Class `Piano` holds `baseOctave` (initially 4), `transpose` (initially 0) and the one oscillator slot `active`. It keeps a ghost history of oscillator starts and stops. `PlayNote` stops the tone in the slot first. It then starts a tone at `now` with the gain envelope, schedules that tone to stop at `now + 0.7`, and puts it in the slot. The invariant `Valid` says the history runs one tone at a time and the slot holds the tone the history says is held. The four control buttons each move one setting by one and change nothing else.
- **Envelope.** The gain schedule is a list of Web Audio automation events: `setValueAtTime` is a step and `linearRampToValueAtTime` is a linear ramp from the previous event. `ValueAt` evaluates such a schedule over exact reals. The note's schedule is proved equal to the piecewise-linear envelope through (t0, 0), (t0+0.1, 1), (t0+0.5, 1) and (t0+0.7, 0), and to stay within [0, 1].

Files: `wrappers.dfy` (Option), `pitch.dfy`, `keys.dfy`, `envelope.dfy`, `controls.dfy`, `player.dfy`.

The comment at `script.js:76` speaks of a release from 0.45 s. The code at `script.js:75-77` holds the gain at 1 until 0.5 s and ramps it down from there. The model follows the code.

## Model

| member | source | states |
|---|---|---|
| `Pitch.Offset` | script.js:2-15 | every note name in the table has an offset in 0..11, and the name at that position of C..B is the note itself |
| `Pitch.OffsetTable` | script.js:2-15 | the table holds exactly the twelve names C..B, the i-th name has offset i, and A has offset 9 |
| `Pitch.OffsetsAscending` | script.js:2-15 | offsets strictly increase from C to B |
| `Pitch.OffsetInjective` | script.js:2-15 | two note names have the same offset if and only if they are the same name |
| `Pitch.SemitoneDistance` | script.js:47-49 | a note's distance lies between that octave's C (9 below its A) and its B (2 above), shifted by the transposition; A4 sits exactly at the transposition |
| `Pitch.DistanceDecodes` | script.js:47-49 | counted from C of octave 4 and without the transposition, the distance's quotient by 12 is the octave minus 4 and its remainder is the note's offset, so both can be read back from it |
| `Pitch.ReferencePitches` | script.js:47-50 | A4 with no transposition is distance 0 (440 Hz); C4 is -9; C5 is 3 |
| `Pitch.AnchorIsUnique` | script.js:47-50 | with no transposition, distance 0 (440 Hz) holds if and only if the note is A in octave 4 |
| `Pitch.OctaveAddsTwelve` | script.js:48-49 | one octave up adds exactly 12 semitones (doubles the frequency), for every note and transposition |
| `Pitch.TransposeTwelveIsOctave` | script.js:48-49 | transposing by 12 more equals one octave up, and adds 12 semitones |
| `Pitch.TransposeShifts` | script.js:48-49 | transposition shifts the distance by exactly its own value, whatever the note and octave |
| `Pitch.DistanceDeterminesPitch` | script.js:47-50 | under one transposition, two (note, octave) pairs have the same distance if and only if they are the same pair |
| `Pitch.DistanceAscendsWithinOctave` | script.js:47-49 | within an octave, the j-th note lies exactly j - i semitones above the i-th |
| `Keys.LowerChar` | script.js:105 | lower-casing leaves no upper-case ASCII letter, moves A-Z to a-z and keeps every other character |
| `Keys.LowerCase` | script.js:105 | a lower-cased key has the same length and is lower-cased character by character |
| `Keys.LowerCaseIdempotent` | script.js:105 | lower-casing a key twice is the same as lower-casing it once |
| `Keys.Lookup` | script.js:18-32 | a lookup hits exactly the keys of the table; every binding names a note of the offset table with octave offset 0 or 1 |
| `Keys.KeyDownBinding` | script.js:105-106 | a keydown finds a binding exactly when its lower-cased key is in the table, and then finds that key's binding, whose note is in the offset table |
| `Keys.KeyDistance` | script.js:106-108 | a key has a distance exactly when it is in the table |
| `Keys.KeyDownCaseInsensitive` | script.js:104-106 | keydown plays the same for a key and its lower-case form; the lookup is of the lower-cased key |
| `Keys.KeyMapSize` | script.js:18-32 | the table has exactly 13 keys: the twelve octave keys and "k" |
| `Keys.OctaveKeysInOrder` | script.js:19-30 | the i-th of a, w, s, e, d, f, t, g, y, h, u, j plays the i-th note name (offset i) at octave offset 0 |
| `Keys.HighKeyIsOctaveAbove` | script.js:31 | "k" plays 12 semitones above "a" (twice the frequency), for every base octave and transposition |
| `Keys.DefaultSettingsPitches` | script.js:19-31 | at base octave 4 with no transposition, "a" plays C4 (-9), "h" plays A4 (0) and "k" plays C5 (3); at base octave 5, "a" plays C5 |
| `Keys.KeyDownExamples` | script.js:104-106 | keydown "a" and "A" find the binding of C, "k" and "K" that of the C above; "Shift" and "z" play nothing |
| `Keys.KeyDownPitches` | script.js:104-108 | through the keydown lookup, "a" and "A" play C4 (-9) at base octave 4 and C5 (3) at base octave 5, and "k" plays C5 (3) at base octave 4 |
| `Envelope.CancelScheduled` | script.js:69 | cancelling from time t keeps exactly the events scheduled before t |
| `Envelope.CancelKeepsOrder` | script.js:69 | cancelling keeps a time-ordered timeline in time order |
| `Envelope.CancelKeepsCopies` | script.js:69 | cancelling from t keeps every copy of each event scheduled before t and no copy of any later one |
| `Envelope.Schedule` | script.js:69-77 | the four events scheduled for a note are in time order |
| `Envelope.Envelope` | script.js:69-77 | the reference envelope through the four breakpoints stays within [0, 1] |
| `Envelope.ScheduleFollowsEnvelope` | script.js:69-77 | under Web Audio step and linear-ramp semantics, the scheduled gain equals the reference envelope at every time from the start on |
| `Envelope.ScheduleBreakpoints` | script.js:71-77 | the gain is 0 at t0, 1 at t0+0.1, 1 at t0+0.5 and 0 at t0+0.7 |
| `Envelope.ScheduleBounded` | script.js:69-77 | from the start on, the gain never leaves [0, 1] |
| `Envelope.ScheduleMonotone` | script.js:73-77 | the gain rises during the attack and falls during the release |
| `Envelope.SilentAfterDuration` | script.js:77-80 | from the scheduled stop time on, the gain stays at 0 |
| `Controls.Opposite` | script.js:139-154 | every button's opposite is a different button |
| `Controls.Press` | script.js:139-154 | an octave button leaves the transposition alone and a transpose button leaves the base octave alone; up buttons add 1, down buttons subtract 1 |
| `Controls.PressThenOpposite` | script.js:139-154 | a click followed by its opposite click restores the settings |
| `Controls.PressAllNet` | script.js:139-154 | any sequence of clicks moves each setting by its up clicks minus its down clicks, with no bounds |
| `Controls.PressAllOrderIrrelevant` | script.js:139-154 | the same clicks in any order give the same settings |
| `Player.StartIsFollowedByItsStop` | script.js:57-60 | in the oscillator history, the event right after a start is the stop of that same tone |
| `Player.NoTwoTonesAtOnce` | script.js:57-60 | between any two starts in the history, the first tone has been stopped |
| `Player.NewTone` | script.js:60-80 | a new tone carries the given distance, starts at `now`, stops at `now + 0.7`, and its gain follows the reference envelope at every time from `now` on |
| `Player.Piano.constructor` | script.js:34-35 | the player starts at base octave 4 with no transposition, no tone and an empty history |
| `Player.Piano.OctaveUp` | script.js:139-142 | the base octave goes up by one; the transposition, the slot and the history stay unchanged; the invariant is kept |
| `Player.Piano.OctaveDown` | script.js:143-146 | the base octave goes down by one; nothing else changes and the invariant is kept |
| `Player.Piano.TransposeUp` | script.js:147-150 | the transposition goes up by one; nothing else changes and the invariant is kept |
| `Player.Piano.TransposeDown` | script.js:151-154 | the transposition goes down by one; nothing else changes and the invariant is kept |
| `Player.Piano.PlayNote` | script.js:57-81 | the held tone, if any, is stopped at `now` before the new tone starts; afterwards the slot holds only the new tone. That tone carries the note's distance under the current transposition, starts at `now`, stops at `now + 0.7` and has the four-event gain schedule. The settings are unchanged and the invariant is kept |
| `Player.Piano.KeyDown` | script.js:104-109 | a key for which the keydown lookup (`Keys.KeyDownBinding`) finds nothing changes nothing; otherwise the binding's note plays at its distance in octave `baseOctave + octaveOffset` (`Keys.BindingDistance`), replacing the held tone |
| `Player.Piano.Click` | script.js:123-128 | the key identifier is looked up without lower-casing (`Keys.Lookup`); an unmapped one changes nothing, a mapped one plays like `KeyDown` |
| `Player.Session` | script.js:104-142 | pressing "a", then "k", then "octave up", then "A" plays C4, C5 and C5 again. Each tone is stopped at the moment the next one starts |

## Left out

- The frequency in Hz, `440 * Math.pow(2, d / 12)` at `script.js:50`, is left out. It is an irrational floating-point number; only the integer distance `d` is modelled.
- Times are exact reals. The source adds 0.1, 0.5 and 0.7 to a floating-point `currentTime`, so its breakpoints differ from these values by rounding.
- The Web Audio plumbing is left out: creating the AudioContext, the oscillator and the gain node, connecting them, and setting `type = "sine"` and `frequency.value` (`script.js:54, 60-66`). The audio clock `currentTime` becomes the parameter `now`. An oscillator is a `Tone` value.
- Web Audio clamps a frequency outside plus or minus the Nyquist frequency. The model has no bound on octave or transposition and does not capture that clamping.
- Player.Piano.PlayNote: plays every distance. In the source, `oscillator.frequency.value` at `script.js:65` is a single-precision `float`. From distance 1431 up (440 * 2^(d/12) is then beyond the largest finite `float`, about 3.4e38), the assignment throws a TypeError. Line 58 has already stopped the old tone by then, and line 60 has put an oscillator that never started into the slot. Every later `playNote` then throws at line 58, because stopping an oscillator that was never started is an InvalidStateError. The piano stays silent until the page is reloaded, whatever the settings. The model does not capture this path: it would need the floating-point frequency, which is left out.
- `Envelope.ValueAt` treats a ramp that has no earlier event as a step. Web Audio would ramp from the time the call was made. The note's schedule always starts with a step, so this case never arises.
- Player.Piano.PlayNote: requires the note to be in the offset table. Every caller passes a note from the key table, and `Keys.Lookup` proves all of those are in it. For any other note the source computes a NaN frequency, and assigning it to the oscillator throws. The model does not include that path.
- Player.Piano.PlayNote: the `Stopped` event records the call to `oscillator.stop()` at `now`. If the tone had already reached its scheduled stop, that call has no audible effect. The model does not distinguish the two cases.
- Keys.LowerChar: lower-cases ASCII letters only. JavaScript's `toLowerCase` applies full Unicode case mapping. For example, KELVIN SIGN (U+212A) lower-cases to "k" and would play the high C. The model does not capture that.
- The lookups model the table's own 13 keys. JavaScript object lookup also finds properties inherited from `Object.prototype`. No keyboard key name or `data-key` value reaches those, so they are not modelled. A click on an element without a `data-key` attribute is not modelled either.
- The DOM work is left out: the status text (`updateDisplay`), the floating-note animation, toggling the `active` class, the 200 ms and 1000 ms timers, and registering the listeners (`script.js:37-44, 84-101, 110-117, 122, 129-133, 156`). It is display glue with timers and has no effect on pitch or player state.
- The two stray expression lines at `script.js:158-159` are left out. They name undeclared identifiers, so at load they throw a ReferenceError once all setup is done. They have no musical effect.
- The single-threaded event loop is modelled only as a sequence of method calls. Asynchronous callbacks are not modelled.
