/** Reference time: for every sequence of commands and ticks on a nondecreasing clock, the time the
    trajectory sees is the clock minus the time spent paused. */
module DrivePause {
  import opened DriveControl

  /** What can happen to an axis, and when. */
  datatype Event =
    | Tick(now: nat, input: AxisInput)
    | Finite(now: nat, onCompletion: nat)
    | Forever(now: nat)
    | Stop(now: nat, onCompletion: nat)
    | Reset(now: nat)

  function Next(x: Axis, e: Event): Axis {
    match e
    case Tick(now, input) => AxisUpdate(x, now, input).0
    case Finite(now, onCompletion) => DriveFinite(x, now, onCompletion)
    case Forever(now) => DriveForever(x, now)
    case Stop(now, onCompletion) => StopAxis(x, now, onCompletion)
    case Reset(_) => ResetAxis(x)
  }

  /** Whether the event leaves the trajectory in flight, rather than arming or ending one. */
  predicate Continues(x: Axis, e: Event) {
    x.active && (e.Tick? || (e.Forever? && x.infinite))
  }

  function AxisAt(events: seq<Event>, n: nat): Axis
    requires n <= |events|
  {
    if n == 0 then INITIAL_AXIS else Next(AxisAt(events, n - 1), events[n - 1])
  }

  /** The time of event `n - 1`; the clock starts at 0. */
  function Time(events: seq<Event>, n: nat): nat
    requires n <= |events|
  {
    if n == 0 then 0 else events[n - 1].now
  }

  predicate Clocked(events: seq<Event>) {
    forall n | 0 <= n < |events| :: Time(events, n) <= events[n].now
  }

  /** Independent account: paused time since the trajectory was armed, interval by interval. An
      interval between two events counts when the axis was paused throughout it. */
  function PausedTime(events: seq<Event>, n: nat): int
    requires n <= |events|
  {
    if n == 0 then 0
    else
      var before := AxisAt(events, n - 1);
      if !Continues(before, events[n - 1]) then 0
      else PausedTime(events, n - 1) + if before.paused then events[n - 1].now - Time(events, n - 1) else 0
  }

  ghost predicate Account(x: Axis, time: nat, pausedTime: int) {
    && (!x.active ==> !x.paused)
    && 0 <= pausedTime
    && (if x.paused then x.pauseBegin <= time && x.pauseTotal + (time - x.pauseBegin) == pausedTime
      else x.pauseTotal == pausedTime)
    && (x.active ==> x.begin + pausedTime <= time)
    && (x.paused ==> x.begin + x.pauseTotal <= x.pauseBegin)
  }

  lemma AccountStep(x: Axis, time: nat, pausedTime: int, e: Event)
    requires Account(x, time, pausedTime) && time <= e.now
    ensures Account(Next(x, e), e.now,
              if !Continues(x, e) then 0 else pausedTime + if x.paused then e.now - time else 0)
  {
    hide PidUpdate, WantsPause;
  }

  lemma {:induction false} AccountHolds(events: seq<Event>, n: nat)
    requires Clocked(events) && n <= |events|
    ensures Account(AxisAt(events, n), Time(events, n), PausedTime(events, n))
    decreases n
  {
    if n > 0 {
      AccountHolds(events, n - 1);
      assert Time(events, n - 1) <= events[n - 1].now;
      hide Next, Account;
      AccountStep(AxisAt(events, n - 1), Time(events, n - 1), PausedTime(events, n - 1), events[n - 1]);
    } else {
      assert AxisAt(events, 0) == INITIAL_AXIS;
    }
  }

  /** Between event `n - 1` and the next, at any time `now`: trajectory time is clock time minus
      total paused time, never before the trajectory's own start, and an inactive axis is not paused. */
  lemma ReferenceTime(events: seq<Event>, n: nat, now: nat)
    requires Clocked(events) && n <= |events| && Time(events, n) <= now
    ensures var x := AxisAt(events, n);
      && RefTime(x, now) == now - (PausedTime(events, n) + if x.paused then now - Time(events, n) else 0)
      && (x.active ==> RefTime(x, now) >= x.begin)
      && (!x.active ==> !x.paused)
  {
    AccountHolds(events, n);
  }

  /** Frozen while paused, and running with the clock otherwise. */
  lemma FrozenOrRunning(x: Axis, early: nat, late: nat)
    requires early <= late
    ensures RefTime(x, late) - RefTime(x, early) == if x.paused then 0 else late - early
  {
  }

  /** Continuous: a tick, whether it pauses, resumes or does neither, leaves the trajectory's time
      at that instant where it was; so does retargeting an infinite move. */
  lemma ContinuousAtEvents(events: seq<Event>, n: nat)
    requires Clocked(events) && n < |events| && Continues(AxisAt(events, n), events[n])
    ensures RefTime(AxisAt(events, n + 1), events[n].now) == RefTime(AxisAt(events, n), events[n].now)
    ensures AxisAt(events, n + 1).begin == AxisAt(events, n).begin
  {
    AccountHolds(events, n);
    assert Time(events, n) <= events[n].now;
    var x := AxisAt(events, n);
    assert AxisAt(events, n + 1) == Next(x, events[n]);
    hide PidUpdate, WantsPause, AxisAt, PausedTime;
  }

  /** Never decreasing: over any stretch of a run in which one trajectory stays in flight. */
  lemma {:induction false} NeverDecreases(events: seq<Event>, m: nat, n: nat)
    requires Clocked(events) && m <= n <= |events|
    requires forall k | m <= k < n :: Continues(AxisAt(events, k), events[k])
    ensures Time(events, m) <= Time(events, n)
    ensures RefTime(AxisAt(events, m), Time(events, m)) <= RefTime(AxisAt(events, n), Time(events, n))
    decreases n
  {
    hide *;
    if m < n {
      NeverDecreases(events, m, n - 1);
      ClockNext(events, n - 1);
      ContinuousAtEvents(events, n - 1);
      FrozenOrRunning(AxisAt(events, n - 1), Time(events, n - 1), events[n - 1].now);
    }
  }

  lemma ClockNext(events: seq<Event>, n: nat)
    requires Clocked(events) && n < |events|
    ensures Time(events, n) <= events[n].now == Time(events, n + 1)
  {
  }
}
