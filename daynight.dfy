/**
 * The day/night cycle's clock (`src/daynight.js`): cycle time and progress,
 * the phase they fall in, the event listeners and the events the clock
 * emits, and the 24-hour time string.
 *
 * Listeners are identified by opaque ids; calling one is recorded as a
 * delivery. A listener that throws is caught and the rest still run, so
 * every registered listener receives the event. Lighting, sky, stars and
 * fireflies are left out.
 */
module DayNight {
  import opened Wrappers
  import opened Text

  const DefaultCycleDuration: real := 300.0
  const DefaultTimeSpeed: real := 1.0

  datatype Phase = Day | Sunset | Night | Sunrise

  /** `updatePhase`'s classification of a progress value. */
  function PhaseOf(progress: real): (p: Phase)
    ensures p == Day <==> 0.0 <= progress < 0.35
    ensures p == Sunset <==> 0.35 <= progress < 0.45
    ensures p == Night <==> 0.45 <= progress < 0.85
    ensures p == Sunrise <==> progress < 0.0 || 0.85 <= progress
  {
    if 0.0 <= progress < 0.35 then Day
    else if 0.35 <= progress < 0.45 then Sunset
    else if 0.45 <= progress < 0.85 then Night
    else Sunrise
  }

  function PhaseRank(p: Phase): nat {
    match p
    case Day => 0
    case Sunset => 1
    case Night => 2
    case Sunrise => 3
  }

  /** Through one cycle the phases come in order: day, sunset, night, sunrise. */
  lemma PhasesInOrder(p: real, q: real)
    requires 0.0 <= p <= q
    ensures PhaseRank(PhaseOf(p)) <= PhaseRank(PhaseOf(q))
  {
  }

  /** The cycle time after advancing by `increment`: it wraps at most once. */
  function Advance(cycleTime: real, increment: real, duration: real): real {
    var t := cycleTime + increment;
    if t >= duration then t - duration else t
  }

  /** A step no longer than one cycle keeps the time inside the cycle, and the progress in [0, 1). */
  lemma AdvanceStaysInCycle(cycleTime: real, increment: real, duration: real)
    requires duration > 0.0 && 0.0 <= cycleTime < duration && 0.0 <= increment <= duration
    ensures var t := Advance(cycleTime, increment, duration);
            0.0 <= t < duration && 0.0 <= t / duration < 1.0
  {
    var t := Advance(cycleTime, increment, duration);
    DivBounds(t, duration);
  }

  lemma DivBounds(t: real, d: real)
    requires d > 0.0 && 0.0 <= t < d
    ensures 0.0 <= t / d < 1.0
  {
    var q := t / d;
    assert q * d == t;
    if q >= 1.0 {
      MulNonneg(q - 1.0, d);
      assert false;
    }
    if q < 0.0 {
      MulNonneg(0.0 - q, d);
      assert false;
    }
  }

  lemma MulNonneg(a: real, b: real)
    requires a >= 0.0 && b >= 0.0
    ensures a * b >= 0.0
  {
  }

  /** An opaque callback. */
  type ListenerId = nat

  const TimeChange := "timeChange"
  const PhaseChange := "phaseChange"
  const CycleComplete := "cycleComplete"

  /** The payload of each event. */
  datatype EventData =
    | CycleCompleted(cycleTime: real)
    | TimeChanged(cycleTime: real, cycleProgress: real, phase: Phase)
    | PhaseChanged(phase: Phase, cycleProgress: real, cycleTime: real)

  datatype Delivery = Delivery(listener: ListenerId, data: EventData)

  /** One delivery per listener, in registration order. */
  function Deliveries(listeners: seq<ListenerId>, data: EventData): (r: seq<Delivery>)
    ensures |r| == |listeners|
    ensures forall i :: 0 <= i < |r| ==> r[i] == Delivery(listeners[i], data)
  {
    seq(|listeners|, i requires 0 <= i < |listeners| => Delivery(listeners[i], data))
  }

  /** `indexOf`: the first position of `x`, if any. */
  function IndexOf(s: seq<ListenerId>, x: ListenerId): (r: Option<nat>)
    ensures r.Some? ==> r.value < |s| && s[r.value] == x && x !in s[..r.value]
    ensures r.None? <==> x !in s
  {
    if s == [] then None
    else if s[0] == x then Some(0)
    else match IndexOf(s[1..], x)
      case None => None
      case Some(i) =>
        assert s[1..][..i] == s[1..i + 1];
        Some(i + 1)
  }

  /** `off`'s removal: the first occurrence of `x` goes, everything else stays in order. */
  function RemoveFirst(s: seq<ListenerId>, x: ListenerId): (r: seq<ListenerId>)
    ensures x !in s ==> r == s
    ensures x in s ==> |r| == |s| - 1 && multiset(r) == multiset(s) - multiset{x}
    ensures x in s ==> exists k :: 0 <= k < |s| && s[k] == x && x !in s[..k] && r == s[..k] + s[k + 1..]
  {
    match IndexOf(s, x)
    case None => s
    case Some(i) =>
      assert s == s[..i] + [x] + s[i + 1..];
      s[..i] + s[i + 1..]
  }

  /** `String(n).padStart(2, '0')`. */
  function Pad2(n: int): (r: string)
    ensures |r| >= 2
  {
    PadStart2(IntToString(n))
  }

  datatype ClockTime = ClockTime(hours: int, minutes: int, formatted: string)

  /** `getTimeIn24HourFormat`: whole hours of the day, whole minutes of the hour, as `HH:MM`. */
  function TimeIn24Hour(progress: real): (r: ClockTime)
    ensures 0 <= r.minutes < 60
    ensures 0.0 <= progress < 1.0 ==> 0 <= r.hours < 24
    ensures r.hours as real <= progress * 24.0 < r.hours as real + 1.0
    ensures r.minutes as real <= (progress * 24.0 - r.hours as real) * 60.0 < r.minutes as real + 1.0
    ensures r.formatted == Pad2(r.hours) + ":" + Pad2(r.minutes)
  {
    var hours := progress * 24.0;
    var h := hours.Floor;
    var m := ((hours - h as real) * 60.0).Floor;
    ClockTime(h, m, Pad2(h) + ":" + Pad2(m))
  }

  /** Half way through the cycle it is noon. */
  lemma HalfCycleIsNoon()
    ensures TimeIn24Hour(0.5).formatted == "12:00"
  {
    assert (0.5 * 24.0).Floor == 12;
    assert NatToString(1) == "1";
    assert NatToString(12) == "12";
    assert NatToString(0) == "0";
  }

  class DayNightCycle {
    var cycleDuration: real
    var timeSpeed: real
    var cycleTime: real
    var cycleProgress: real
    var currentPhase: Phase
    var listeners: map<string, seq<ListenerId>>
    /** Every listener call so far, in order. */
    var delivered: seq<Delivery>

    /** The duration is never zero, and exactly the three events have listener lists. */
    ghost predicate Valid()
      reads this
    {
      cycleDuration != 0.0 && listeners.Keys == {TimeChange, PhaseChange, CycleComplete}
    }

    /**
     * A cycle at time 0 in the day phase. A missing or zero duration or
     * speed falls back to the default (`options.x || default`).
     */
    constructor(duration: Option<real>, speed: Option<real>)
      ensures Valid()
      ensures cycleDuration == if duration.Some? && duration.value != 0.0 then duration.value else DefaultCycleDuration
      ensures timeSpeed == if speed.Some? && speed.value != 0.0 then speed.value else DefaultTimeSpeed
      ensures cycleTime == 0.0 && cycleProgress == 0.0 && currentPhase == Day
      ensures forall name :: name in listeners ==> listeners[name] == []
      ensures delivered == []
    {
      cycleDuration := if duration.Some? && duration.value != 0.0 then duration.value else DefaultCycleDuration;
      timeSpeed := if speed.Some? && speed.value != 0.0 then speed.value else DefaultTimeSpeed;
      listeners := map[TimeChange := [], PhaseChange := [], CycleComplete := []];
      cycleTime := 0.0;
      currentPhase := Day;
      cycleProgress := 0.0;
      delivered := [];
    }

    /** The listeners an event name reaches: none for an unknown name. */
    function ListenersOf(name: string): (r: seq<ListenerId>)
      reads this
      ensures name !in listeners ==> r == []
    {
      if name in listeners then listeners[name] else []
    }

    /** `emit`: every listener of the event receives the data, in registration order. */
    method Emit(name: string, data: EventData)
      modifies this`delivered
      ensures delivered == old(delivered) + Deliveries(ListenersOf(name), data)
    {
      if name in listeners {
        var targets := listeners[name];
        for i := 0 to |targets|
          invariant delivered == old(delivered) + Deliveries(targets[..i], data)
        {
          delivered := delivered + [Delivery(targets[i], data)];
        }
        assert targets[..|targets|] == targets;
      }
    }

    /** `on`: registers the listener at the end of a known event's list; unknown names are ignored. */
    method On(name: string, listener: ListenerId)
      requires Valid()
      modifies this`listeners
      ensures Valid()
      ensures listeners == if name in old(listeners) then old(listeners)[name := old(listeners)[name] + [listener]]
                           else old(listeners)
    {
      if name in listeners {
        listeners := listeners[name := listeners[name] + [listener]];
      }
    }

    /** `off`: removes the first registration of the listener, if the event is known and it is there. */
    method Off(name: string, listener: ListenerId)
      requires Valid()
      modifies this`listeners
      ensures Valid()
      ensures listeners == if name in old(listeners) then old(listeners)[name := RemoveFirst(old(listeners)[name], listener)]
                           else old(listeners)
    {
      if name in listeners {
        var index := IndexOf(listeners[name], listener);
        if index.Some? {
          var list := listeners[name];
          listeners := listeners[name := list[..index.value] + list[index.value + 1..]];
        }
      }
    }

    /**
     * `update`, the clock part: advance by `deltaTime` milliseconds at the
     * current speed, wrapping once (and emitting `cycleComplete`), recompute
     * the progress, emit `timeChange`, then update the phase.
     */
    method Update(deltaTime: real)
      requires Valid()
      modifies this`cycleTime, this`cycleProgress, this`currentPhase, this`delivered
      ensures Valid()
      ensures var raw := old(cycleTime) + deltaTime / 1000.0 * timeSpeed;
              cycleTime == Advance(old(cycleTime), deltaTime / 1000.0 * timeSpeed, cycleDuration)
              && (raw >= cycleDuration <==> cycleTime == raw - cycleDuration)
      ensures cycleProgress == cycleTime / cycleDuration
      ensures currentPhase == PhaseOf(cycleProgress)
      ensures var wrapped := old(cycleTime) + deltaTime / 1000.0 * timeSpeed >= cycleDuration;
              delivered == old(delivered)
                           + (if wrapped then Deliveries(listeners[CycleComplete], CycleCompleted(cycleTime)) else [])
                           + Deliveries(listeners[TimeChange], TimeChanged(cycleTime, cycleProgress, old(currentPhase)))
                           + (if currentPhase != old(currentPhase)
                              then Deliveries(listeners[PhaseChange], PhaseChanged(currentPhase, cycleProgress, cycleTime))
                              else [])
    {
      AdvanceTime(deltaTime);
      cycleProgress := cycleTime / cycleDuration;
      Emit(TimeChange, TimeChanged(cycleTime, cycleProgress, currentPhase));
      UpdatePhase();
    }

    /** The first step of `update`: the time advances and wraps at most once. */
    method AdvanceTime(deltaTime: real)
      requires Valid()
      modifies this`cycleTime, this`delivered
      ensures var raw := old(cycleTime) + deltaTime / 1000.0 * timeSpeed;
              && cycleTime == Advance(old(cycleTime), deltaTime / 1000.0 * timeSpeed, cycleDuration)
              && (raw >= cycleDuration <==> cycleTime == raw - cycleDuration)
              && delivered == old(delivered)
                              + (if raw >= cycleDuration then Deliveries(listeners[CycleComplete], CycleCompleted(cycleTime))
                                 else [])
    {
      var timeIncrement := deltaTime / 1000.0 * timeSpeed;
      cycleTime := cycleTime + timeIncrement;
      if cycleTime >= cycleDuration {
        cycleTime := cycleTime - cycleDuration;
        Emit(CycleComplete, CycleCompleted(cycleTime));
      }
    }

    /** `updatePhase`: the phase of the current progress, with `phaseChange` emitted only when it differs. */
    method UpdatePhase()
      requires Valid()
      modifies this`currentPhase, this`delivered
      ensures currentPhase == PhaseOf(cycleProgress)
      ensures delivered == old(delivered)
                           + (if currentPhase != old(currentPhase)
                              then Deliveries(listeners[PhaseChange], PhaseChanged(currentPhase, cycleProgress, cycleTime))
                              else [])
    {
      var newPhase := PhaseOf(cycleProgress);
      if newPhase != currentPhase {
        currentPhase := newPhase;
        Emit(PhaseChange, PhaseChanged(newPhase, cycleProgress, cycleTime));
      }
    }

    /** `setCycleDuration`: a positive duration is taken and the progress recomputed; others are ignored. */
    method SetCycleDuration(duration: real)
      requires Valid()
      modifies this`cycleDuration, this`cycleProgress
      ensures Valid()
      ensures duration > 0.0 ==> cycleDuration == duration && cycleProgress == cycleTime / duration
      ensures duration <= 0.0 ==> cycleDuration == old(cycleDuration) && cycleProgress == old(cycleProgress)
    {
      if duration > 0.0 {
        cycleDuration := duration;
        cycleProgress := cycleTime / cycleDuration;
      }
    }

    /** `setTimeSpeed`: a non-negative speed is taken (0 pauses the clock); negative ones are ignored. */
    method SetTimeSpeed(speed: real)
      modifies this`timeSpeed
      ensures timeSpeed == if speed >= 0.0 then speed else old(timeSpeed)
    {
      if speed >= 0.0 {
        timeSpeed := speed;
      }
    }

    /** `setTime`: moves the time to the given fraction of the cycle; progress follows on the next update. */
    method SetTime(progress: real)
      requires Valid()
      modifies this`cycleTime
      ensures cycleTime / cycleDuration == progress
    {
      cycleTime := progress * cycleDuration;
    }

    /** `isNight`: the current phase is night. */
    function IsNight(): (r: bool)
      reads this
      ensures r <==> currentPhase == Night
    {
      currentPhase == Night
    }
  }

  /** At zero speed an update leaves the clock where it was (short of a full cycle). */
  lemma PausedClockStands(cycleTime: real, deltaTime: real, duration: real)
    requires 0.0 <= cycleTime < duration
    ensures Advance(cycleTime, deltaTime / 1000.0 * 0.0, duration) == cycleTime
  {
  }
}
