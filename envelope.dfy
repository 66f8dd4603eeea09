/**
 * The volume envelope of a note.  The source schedules automation events on
 * the gain parameter of a fresh Web Audio GainNode; this module gives those
 * events the meaning Web Audio assigns them (setValueAtTime is a step,
 * linearRampToValueAtTime interpolates linearly from the previous event) over
 * exact real numbers, and proves that the schedule built for a note is the
 * four-point envelope: silent at the start, a 0.1 s attack to full volume, a
 * hold until 0.5 s and a 0.2 s release to silence at 0.7 s.
 */
module Envelope {

  /** One automation event of an audio parameter. */
  datatype Automation =
    | SetValueAt(value: real, time: real)
    | LinearRampTo(value: real, time: real)

  /** A gain parameter holds 1 until something is scheduled on it. */
  const DefaultGain: real := 1.0

  /** Offsets from the start of a note: end of attack, end of hold, end of release. */
  const AttackEnd: real := 0.1
  const HoldEnd: real := 0.5
  const Duration: real := 0.7

  /** Events whose times never decrease, which is how Web Audio keeps its timeline. */
  predicate Ordered(events: seq<Automation>) {
    forall i, j :: 0 <= i < j < |events| ==> events[i].time <= events[j].time
  }

  /**
   * `cancelScheduledValues(t)`: every event at or after `t` is removed and
   * the earlier ones are kept.
   */
  function CancelScheduled(events: seq<Automation>, t: real): (r: seq<Automation>)
    ensures forall i :: 0 <= i < |r| ==> r[i].time < t && r[i] in events
    ensures forall e :: e in events && e.time < t ==> e in r
  {
    if events == [] then []
    else if events[0].time < t then [events[0]] + CancelScheduled(events[1..], t)
    else CancelScheduled(events[1..], t)
  }

  /** Cancelling never brings in an event earlier than every event it started from. */
  lemma {:induction false} CancelKeepsLowerBound(events: seq<Automation>, t: real, low: real)
    requires forall i :: 0 <= i < |events| ==> low <= events[i].time
    ensures forall i :: 0 <= i < |CancelScheduled(events, t)| ==> low <= CancelScheduled(events, t)[i].time
    decreases |events|
  {
    if events != [] {
      CancelKeepsLowerBound(events[1..], t, low);
    }
  }

  /** Cancelling keeps a time-ordered timeline in time order. */
  lemma {:induction false} CancelKeepsOrder(events: seq<Automation>, t: real)
    requires Ordered(events)
    ensures Ordered(CancelScheduled(events, t))
    decreases |events|
  {
    if events != [] {
      var tail := events[1..];
      assert Ordered(tail);
      CancelKeepsOrder(tail, t);
      var rest := CancelScheduled(tail, t);
      if events[0].time < t {
        CancelKeepsLowerBound(tail, t, events[0].time);
        var r := [events[0]] + rest;
        assert forall j :: 0 < j < |r| ==> r[j] == rest[j - 1];
      }
    }
  }

  /** Cancelling keeps every copy of an event scheduled before `t` and no copy of any other. */
  lemma {:induction false} CancelKeepsCopies(events: seq<Automation>, t: real, e: Automation)
    ensures multiset(CancelScheduled(events, t))[e] == if e.time < t then multiset(events)[e] else 0
    decreases |events|
  {
    if events != [] {
      CancelKeepsCopies(events[1..], t, e);
      assert events == [events[0]] + events[1..];
      assert multiset(events) == multiset([events[0]]) + multiset(events[1..]);
      if events[0].time < t {
        var rest := CancelScheduled(events[1..], t);
        assert multiset([events[0]] + rest) == multiset([events[0]]) + multiset(rest);
      }
    }
  }

  /**
   * Value at time `t` of a parameter whose latest event at or before `t` left
   * it at `value` at time `from`, with `events` still ahead.
   */
  function ValueAfter(from: real, value: real, events: seq<Automation>, t: real): real
    requires from <= t
    decreases |events|
  {
    if events == [] then value
    else if t < events[0].time then
      match events[0]
      case SetValueAt(_, _) => value
      case LinearRampTo(target, end) => value + (target - value) * (t - from) / (end - from)
    else ValueAfter(events[0].time, events[0].value, events[1..], t)
  }

  /** Value at time `t` of a parameter with intrinsic value `intrinsic` and the given timeline. */
  function ValueAt(intrinsic: real, events: seq<Automation>, t: real): real
  {
    if events == [] || t < events[0].time then intrinsic
    else ValueAfter(events[0].time, events[0].value, events[1..], t)
  }

  /** The four events scheduled on a note's gain when it starts at `t0`. */
  function Schedule(t0: real): (r: seq<Automation>)
    ensures Ordered(r)
  {
    [ SetValueAt(0.0, t0),
      LinearRampTo(1.0, t0 + AttackEnd),
      SetValueAt(1.0, t0 + HoldEnd),
      LinearRampTo(0.0, t0 + Duration) ]
  }

  /**
   * Reference shape of the envelope from the start `t0` on: a straight line
   * through each pair of consecutive breakpoints (t0, 0), (t0+0.1, 1),
   * (t0+0.5, 1), (t0+0.7, 0), and silence after the last.
   */
  function Envelope(t0: real, t: real): (g: real)
    requires t0 <= t
    ensures 0.0 <= g <= 1.0
  {
    if t <= t0 + AttackEnd then (t - t0) / AttackEnd
    else if t <= t0 + HoldEnd then 1.0
    else if t <= t0 + Duration then (t0 + Duration - t) / (Duration - HoldEnd)
    else 0.0
  }

  /** The gain the source's schedule produces is the reference envelope at every time from the start on. */
  lemma ScheduleFollowsEnvelope(t0: real, t: real)
    requires t0 <= t
    ensures ValueAt(DefaultGain, Schedule(t0), t) == Envelope(t0, t)
  {
    var s := Schedule(t0);
    if t < t0 + AttackEnd {
      assert ValueAt(DefaultGain, s, t) == 0.0 + (1.0 - 0.0) * (t - t0) / (t0 + AttackEnd - t0);
    } else {
      assert ValueAt(DefaultGain, s, t) == ValueAfter(t0 + AttackEnd, 1.0, s[2..], t);
      if t < t0 + HoldEnd {
        assert ValueAfter(t0 + AttackEnd, 1.0, s[2..], t) == 1.0;
      } else {
        assert ValueAfter(t0 + AttackEnd, 1.0, s[2..], t) == ValueAfter(t0 + HoldEnd, 1.0, s[3..], t);
        if t < t0 + Duration {
          assert ValueAfter(t0 + HoldEnd, 1.0, s[3..], t)
              == 1.0 + (0.0 - 1.0) * (t - (t0 + HoldEnd)) / (t0 + Duration - (t0 + HoldEnd));
        } else {
          assert ValueAfter(t0 + HoldEnd, 1.0, s[3..], t) == ValueAfter(t0 + Duration, 0.0, [], t) == 0.0;
        }
      }
    }
  }

  /** At the four breakpoints the gain is 0, 1, 1 and 0. */
  lemma ScheduleBreakpoints(t0: real)
    ensures ValueAt(DefaultGain, Schedule(t0), t0) == 0.0
    ensures ValueAt(DefaultGain, Schedule(t0), t0 + AttackEnd) == 1.0
    ensures ValueAt(DefaultGain, Schedule(t0), t0 + HoldEnd) == 1.0
    ensures ValueAt(DefaultGain, Schedule(t0), t0 + Duration) == 0.0
  {
    ScheduleFollowsEnvelope(t0, t0);
    ScheduleFollowsEnvelope(t0, t0 + AttackEnd);
    ScheduleFollowsEnvelope(t0, t0 + HoldEnd);
    ScheduleFollowsEnvelope(t0, t0 + Duration);
  }

  /** From the start on the gain never leaves [0, 1]. */
  lemma ScheduleBounded(t0: real, t: real)
    requires t0 <= t
    ensures 0.0 <= ValueAt(DefaultGain, Schedule(t0), t) <= 1.0
  {
    ScheduleFollowsEnvelope(t0, t);
  }

  /** The gain rises during the attack and falls during the release. */
  lemma ScheduleMonotone(t0: real, t1: real, t2: real)
    requires t0 <= t1 <= t2
    ensures t2 <= t0 + AttackEnd ==> ValueAt(DefaultGain, Schedule(t0), t1) <= ValueAt(DefaultGain, Schedule(t0), t2)
    ensures t0 + HoldEnd <= t1 ==> ValueAt(DefaultGain, Schedule(t0), t1) >= ValueAt(DefaultGain, Schedule(t0), t2)
  {
    ScheduleFollowsEnvelope(t0, t1);
    ScheduleFollowsEnvelope(t0, t2);
  }

  /** Once the note's scheduled stop time is reached the gain stays at silence. */
  lemma SilentAfterDuration(t0: real, t: real)
    requires t0 + Duration <= t
    ensures ValueAt(DefaultGain, Schedule(t0), t) == 0.0
  {
    ScheduleFollowsEnvelope(t0, t);
  }
}
