/**
 * What `startEvents` in `src/agent/agent.js` keeps besides wiring: the
 * `time` handler that names the four marks of the day, the `health` handler
 * that records the last hit taken, and the fixed-delay update loop. The
 * clock readings `Date.now()` are inputs.
 */
module Events {
  import opened Text

  // ---------------------------------------------------------------- time of day

  datatype DayEvent = Sunrise | Noon | Sunset | Midnight

  /** The tick of the day each event is named after. */
  function EventTime(e: DayEvent): int {
    match e
    case Sunrise => 0
    case Noon => 6000
    case Sunset => 12000
    case Midnight => 18000
  }

  /** The `time` handler: the event it emits for `timeOfDay`, if any. */
  function TimeEvent(timeOfDay: int): Option<DayEvent> {
    if timeOfDay == 0 then Some(Sunrise)
    else if timeOfDay == 6000 then Some(Noon)
    else if timeOfDay == 12000 then Some(Sunset)
    else if timeOfDay == 18000 then Some(Midnight)
    else None
  }

  /** An event is emitted exactly at its own tick, and no tick emits anything else. */
  lemma TimeEventExact(timeOfDay: int, e: DayEvent)
    ensures TimeEvent(timeOfDay) == Some(e) <==> timeOfDay == EventTime(e)
  {
  }

  /** Every other time of day passes silently. */
  lemma TimeEventSilent(timeOfDay: int)
    ensures TimeEvent(timeOfDay).None? <==> forall e: DayEvent :: timeOfDay != EventTime(e)
  {
    if TimeEvent(timeOfDay).Some? {
      TimeEventExact(timeOfDay, TimeEvent(timeOfDay).value);
    }
  }

  // ---------------------------------------------------------------- damage

  /** The `health` handler's memory: the health seen last, and the time and size of the last drop. */
  class DamageTracker {
    var prevHealth: real
    var lastDamageTime: int
    var lastDamageTaken: real

    /** The size of the last drop is never negative: only a drop is recorded. */
    ghost predicate Valid()
      reads this
    {
      lastDamageTaken >= 0.0
    }

    /** Set up by `startEvents` with the bot's health at that time. */
    constructor (health: real)
      ensures prevHealth == health && lastDamageTime == 0 && lastDamageTaken == 0.0
      ensures Valid()
    {
      prevHealth := health;
      lastDamageTime := 0;
      lastDamageTaken := 0.0;
    }

    /** One `health` event: a drop is recorded with its time and size; the health is remembered either way. */
    method OnHealth(health: real, now: int)
      requires Valid()
      modifies this
      ensures Valid()
      ensures prevHealth == health
      ensures health < old(prevHealth) ==>
        lastDamageTime == now && lastDamageTaken == old(prevHealth) - health && lastDamageTaken > 0.0
      ensures health >= old(prevHealth) ==>
        lastDamageTime == old(lastDamageTime) && lastDamageTaken == old(lastDamageTaken)
    {
      if health < prevHealth {
        lastDamageTime := now;
        lastDamageTaken := prevHealth - health;
      }
      prevHealth := health;
    }
  }

  // ---------------------------------------------------------------- update loop

  /** The update period in milliseconds. */
  const INTERVAL := 300

  /** `remaining`: what is left of the period once an update that began at `start` is done at `now`. */
  function Remaining(start: int, now: int): int {
    INTERVAL - (now - start)
  }

  /**
   * The time from the start of one update to the start of the next, when
   * the update takes `duration` and the wait, if there is one, overruns by
   * `lateness`.
   */
  function Gap(duration: nat, lateness: nat): int {
    var now := duration;
    var remaining := Remaining(0, now);
    if remaining > 0 then now + remaining + lateness else now
  }

  /** Updates never start closer than the period, and never overlap; with an exact timer the gap is the longer of the two. */
  lemma GapBounds(duration: nat, lateness: nat)
    ensures Gap(duration, lateness) >= INTERVAL && Gap(duration, lateness) >= duration
    ensures lateness == 0 ==> Gap(duration, lateness) == if duration > INTERVAL then duration else INTERVAL
  {
  }

  /**
   * The first `|durations|` rounds of the update loop, started by a timeout
   * set at `t0`. Update `k` takes `durations[k]` milliseconds; the timeout
   * before the first round and the wait after round `k` fire `lateness[0]`
   * and `lateness[k + 1]` milliseconds late. `starts[k]` is when round `k`
   * began and `deltas[k]` the argument its `update` received.
   */
  method UpdateLoop(t0: int, durations: seq<nat>, lateness: seq<nat>) returns (starts: seq<int>, deltas: seq<int>)
    requires |lateness| == |durations| + 1
    ensures |starts| == |deltas| == |durations|
    ensures |durations| > 0 ==> starts[0] == t0 + INTERVAL + lateness[0] && deltas[0] == starts[0] - t0
    ensures forall k :: 0 < k < |deltas| ==> deltas[k] == starts[k] - starts[k - 1] == Gap(durations[k - 1], lateness[k])
  {
    var last := t0;
    var clock := t0 + INTERVAL + lateness[0];
    starts, deltas := [], [];
    for k := 0 to |durations|
      invariant |starts| == |deltas| == k
      invariant k == 0 ==> last == t0 && clock == t0 + INTERVAL + lateness[0]
      invariant k > 0 ==> last == starts[k - 1] && clock == last + Gap(durations[k - 1], lateness[k])
      invariant k > 0 ==> starts[0] == t0 + INTERVAL + lateness[0] && deltas[0] == starts[0] - t0
      invariant forall j :: 0 < j < k ==> deltas[j] == starts[j] - starts[j - 1] == Gap(durations[j - 1], lateness[j])
    {
      var start := clock;
      starts, deltas := starts + [start], deltas + [start - last];
      var now := start + durations[k];
      var remaining := Remaining(start, now);
      clock := now;
      if remaining > 0 {
        clock := clock + remaining + lateness[k + 1];
      }
      assert clock == start + Gap(durations[k], lateness[k + 1]);
      last := start;
    }
  }
}
