/**
 * The pollable countdown that every cooldown of the game uses
 * (utils/timer.py). A timer is polled once per frame with the current tick
 * count; when its duration has elapsed since it was started it reports that
 * its callback is due and deactivates, or restarts when it repeats. The
 * callback itself belongs to the timer's owner: Update returns whether it ran.
 */
module Timers {
  import opened Wrappers

  /** The observable state of a timer: its configuration and its clock. */
  datatype TimerState = TimerState(
    duration: int,
    hasCallback: bool,
    repeat: bool,
    startTime: int,
    active: bool)

  /** A freshly constructed timer: inactive, started at tick 0. */
  function Initial(duration: int, hasCallback: bool, repeat: bool): TimerState {
    TimerState(duration, hasCallback, repeat, 0, false)
  }

  /**
   * The duration fixed at construction. A random timer needs a lower bound
   * (TypeError otherwise) and draws once from [lowerBound, duration] with
   * randint, which raises ValueError on an empty range; `draw` is that
   * draw, within the range randint guarantees.
   */
  predicate DrawInRange(duration: int, random: bool, lowerBound: Option<int>, draw: int) {
    random && lowerBound.Some? && lowerBound.value <= duration ==>
      lowerBound.value <= draw <= duration
  }

  function InitialDuration(duration: int, random: bool, lowerBound: Option<int>, draw: int): (r: Result<int>)
    requires DrawInRange(duration, random, lowerBound, draw)
    ensures r == Err(TypeError) <==> random && lowerBound.None?
    ensures r == Err(ValueError) <==> random && lowerBound.Some? && lowerBound.value > duration
    ensures !random ==> r == Ok(duration)
    ensures random && r.Ok? ==> lowerBound.Some? && lowerBound.value <= r.value <= duration
  {
    if random && lowerBound.None? then Err(TypeError)
    else if random && lowerBound.value > duration then Err(ValueError)
    else if random then Ok(draw)
    else Ok(duration)
  }

  function Activated(t: TimerState, now: int): TimerState {
    t.(active := true, startTime := now)
  }

  function Deactivated(t: TimerState, now: int): TimerState {
    var stopped := t.(active := false, startTime := 0);
    if t.repeat then Activated(stopped, now) else stopped
  }

  /**
   * One poll at tick `now`: the new state, and whether the callback ran.
   * The active flag is not consulted: only the elapsed time is.
   */
  function Polled(t: TimerState, now: int): (TimerState, bool) {
    if now - t.startTime >= t.duration then
      (Deactivated(t, now), t.hasCallback && t.startTime != 0)
    else
      (t, false)
  }

  /** Activation starts the clock at the current tick and keeps the configuration. */
  lemma ActivateStarts(t: TimerState, now: int)
    ensures Activated(t, now).active && Activated(t, now).startTime == now
    ensures Activated(t, now).duration == t.duration
    ensures Activated(t, now).repeat == t.repeat && Activated(t, now).hasCallback == t.hasCallback
  {
  }

  /** Deactivation stops and rewinds a one-shot timer; a repeating one restarts at `now`. */
  lemma DeactivateStopsOrRestarts(t: TimerState, now: int)
    ensures !t.repeat ==> !Deactivated(t, now).active && Deactivated(t, now).startTime == 0
    ensures t.repeat ==> Deactivated(t, now) == Activated(t, now)
    ensures Deactivated(t, now).duration == t.duration
  {
  }

  /** Before the duration has elapsed a poll changes nothing and runs nothing. */
  lemma PollBeforeExpiry(t: TimerState, now: int)
    requires now - t.startTime < t.duration
    ensures Polled(t, now) == (t, false)
  {
  }

  /**
   * On expiry the callback runs exactly when there is one and the timer was
   * not started at tick 0; then the timer is deactivated.
   */
  lemma PollOnExpiry(t: TimerState, now: int)
    requires now - t.startTime >= t.duration
    ensures Polled(t, now).1 <==> t.hasCallback && t.startTime != 0
    ensures Polled(t, now).0 == Deactivated(t, now)
  {
  }

  /** A repeating timer that expires is active again, restarted at the polling tick. */
  lemma RepeatRestarts(t: TimerState, now: int)
    requires t.repeat && now - t.startTime >= t.duration
    ensures Polled(t, now).0.active && Polled(t, now).0.startTime == now
  {
  }

  /** The operations that the rest of the game applies to a timer. */
  datatype TimerOp = Activate(at: int) | Deactivate(at: int) | Poll(at: int)

  function Apply(t: TimerState, op: TimerOp): TimerState {
    match op
    case Activate(now) => Activated(t, now)
    case Deactivate(now) => Deactivated(t, now)
    case Poll(now) => Polled(t, now).0
  }

  function Run(t: TimerState, ops: seq<TimerOp>): TimerState
    decreases |ops|
  {
    if ops == [] then t else Run(Apply(t, ops[0]), ops[1..])
  }

  /**
   * The duration, random or not, is fixed at construction: no sequence of
   * activations, deactivations and polls draws it again.
   */
  lemma {:induction false} DurationFixed(t: TimerState, ops: seq<TimerOp>)
    ensures Run(t, ops).duration == t.duration
    ensures Run(t, ops).repeat == t.repeat && Run(t, ops).hasCallback == t.hasCallback
    decreases |ops|
  {
    if ops != [] {
      DurationFixed(Apply(t, ops[0]), ops[1..]);
    }
  }

  /** An inactive timer has been rewound to tick 0. */
  predicate Consistent(t: TimerState) {
    !t.active ==> t.startTime == 0
  }

  /** Construction establishes Consistent and every operation sequence keeps it. */
  lemma {:induction false} ConsistentPreserved(t: TimerState, ops: seq<TimerOp>)
    requires Consistent(t)
    ensures Consistent(Run(t, ops))
    decreases |ops|
  {
    if ops != [] {
      ConsistentPreserved(Apply(t, ops[0]), ops[1..]);
    }
  }

  /** Once a repeating timer is active, nothing of the timer's own API stops it. */
  lemma {:induction false} RepeatStaysActive(t: TimerState, ops: seq<TimerOp>)
    requires t.repeat && t.active
    ensures Run(t, ops).active
    decreases |ops|
  {
    if ops != [] {
      RepeatStaysActive(Apply(t, ops[0]), ops[1..]);
    }
  }

  /** A run of polls: the final state and how many times the callback ran. */
  function PollAll(t: TimerState, times: seq<int>): (TimerState, nat)
    decreases |times|
  {
    if times == [] then (t, 0)
    else
      var (t1, fired) := Polled(t, times[0]);
      var (t2, n) := PollAll(t1, times[1..]);
      (t2, n + if fired then 1 else 0)
  }

  /** A one-shot timer rewound to tick 0 never runs its callback again by polling. */
  lemma {:induction false} RewoundNeverFires(t: TimerState, times: seq<int>)
    requires !t.repeat && t.startTime == 0
    ensures PollAll(t, times).1 == 0
    decreases |times|
  {
    if times != [] {
      RewoundNeverFires(Polled(t, times[0]).0, times[1..]);
    }
  }

  /**
   * Between two activations a one-shot timer runs its callback at most once,
   * because expiry rewinds its start tick to 0.
   */
  lemma {:induction false} FiresAtMostOnce(t: TimerState, times: seq<int>)
    requires !t.repeat
    ensures PollAll(t, times).1 <= 1
    decreases |times|
  {
    if times != [] {
      var (t1, fired) := Polled(t, times[0]);
      if fired {
        RewoundNeverFires(t1, times[1..]);
      } else {
        FiresAtMostOnce(t1, times[1..]);
      }
    }
  }

  /**
   * A timer with a callback activated at a non-zero tick t0 runs it on the
   * first poll at or after t0 + duration.
   */
  lemma FiresOnExpiry(t: TimerState, t0: int, now: int)
    requires t.hasCallback && t0 != 0 && now - t0 >= t.duration
    ensures Polled(Activated(t, t0), now).1
  {
  }

  /** The in-place timer object. */
  class Timer {
    var duration: int
    var hasCallback: bool
    var repeat: bool
    var startTime: int
    var active: bool

    function State(): TimerState
      reads this
    {
      TimerState(duration, hasCallback, repeat, startTime, active)
    }

    /** Timer(duration, func, repeat) with a fixed duration. */
    constructor (duration: int, hasCallback: bool, repeat: bool)
      ensures State() == Initial(duration, hasCallback, repeat)
    {
      this.duration := duration;
      this.hasCallback := hasCallback;
      this.repeat := repeat;
      this.startTime := 0;
      this.active := false;
    }

    /** Timer(duration, func, repeat, random, lower_bound), raising as the source does. */
    static method Create(duration: int, hasCallback: bool, repeat: bool,
                         random: bool, lowerBound: Option<int>, draw: int)
      returns (r: Result<Timer>)
      requires DrawInRange(duration, random, lowerBound, draw)
      ensures r.Err? <==> InitialDuration(duration, random, lowerBound, draw).Err?
      ensures r.Err? ==> InitialDuration(duration, random, lowerBound, draw) == Err(r.error)
      ensures r.Ok? ==> fresh(r.value)
      ensures r.Ok? ==>
        r.value.State() == Initial(InitialDuration(duration, random, lowerBound, draw).value, hasCallback, repeat)
    {
      var d := InitialDuration(duration, random, lowerBound, draw);
      if d.Err? {
        return Err(d.error);
      }
      var t := new Timer(d.value, hasCallback, repeat);
      return Ok(t);
    }

    method Activate(now: int)
      modifies this
      ensures State() == Activated(old(State()), now)
    {
      active := true;
      startTime := now;
    }

    method Deactivate(now: int)
      modifies this
      ensures State() == Deactivated(old(State()), now)
    {
      active := false;
      startTime := 0;
      if repeat {
        Activate(now);
      }
    }

    /** update(): returns whether the callback ran. */
    method Update(now: int) returns (fired: bool)
      modifies this
      ensures (State(), fired) == Polled(old(State()), now)
    {
      fired := false;
      if now - startTime >= duration {
        if hasCallback && startTime != 0 {
          fired := true;
        }
        Deactivate(now);
      }
    }
  }
}
