/** One tick of the two-axis drivebase (apps/drivebase/drivebase_drivebase.c), with the wheels'
    recorded duty (drivebase_servo.c) and the reclaim bits (drivebase_motor.c). */
module DriveTick {
  import opened DriveAngle
  import opened DriveControl

  // ---- Wheels -----------------------------------------------------------------------------

  /** What was last applied to the wheel, and whether its port awaits reclaim. */
  datatype Wheel = Wheel(duty: int, actuation: nat, reclaim: bool)

  const FULL: int := 10000

  /** db_servo_apply over the motor calls; `ok` is whether the device accepted the request. */
  function ApplyWheel(w: Wheel, duty: int, actuation: nat, ok: bool): Wheel {
    var reclaim := w.reclaim || !ok;
    if actuation == COAST || actuation == COAST_SMART then Wheel(0, COAST, reclaim)
    else if actuation == BRAKE || actuation == BRAKE_SMART then Wheel(0, BRAKE, reclaim)
    else Wheel(if ok then Clamp(duty, -FULL, FULL) else 0, HOLD, reclaim)
  }

  // ---- Friction and breakaway ----------------------------------------------------------------

  datatype Friction = Friction(kS: int, enter: int, exit: int, breakaway: int)
  datatype FrictionState = FrictionState(sign: int, consumed: bool, breakawaySign: int)

  const BREAKAWAY_DEADBAND: int := 3000

  /** Lines 132-140. */
  function HeldSign(v: int, prev: int, f: Friction): int {
    if v >= f.enter then 1 else if v <= -f.enter then -1 else if Abs(v) < f.exit then 0 else prev
  }

  /** Lines 178-229. */
  function Breakaway(st: FrictionState, f: Friction, pre: int, error: int, done: bool): (FrictionState, int) {
    if f.breakaway == 0 || !done || st.consumed then (st, pre)
    else
      var s := if error > BREAKAWAY_DEADBAND then 1 else if error < -BREAKAWAY_DEADBAND then -1 else 0;
      if s == 0 then (if st.breakawaySign != 0 then st.(consumed := true) else st, pre)
      else if st.breakawaySign != 0 && s != st.breakawaySign then (st.(consumed := true), pre)
      else if (s > 0 && pre < 0) || (s < 0 && pre > 0) then (st, pre)
      else if s > 0 && pre < f.breakaway then (st.(breakawaySign := s), f.breakaway)
      else if s < 0 && pre > -f.breakaway then (st.(breakawaySign := s), -f.breakaway)
      else (st, pre)
  }

  /** The floor only ever raises a duty that already points toward the target, or is zero, to exactly
      the breakaway duty; it never stacks and never works against braking. */
  lemma BreakawayRaisesOnly(st: FrictionState, f: Friction, pre: int, error: int, done: bool)
    requires f.breakaway > 0
    ensures var out := Breakaway(st, f, pre, error, done).1;
      out != pre ==>
        && done && !st.consumed && Abs(error) > BREAKAWAY_DEADBAND
        && ((out == f.breakaway && error > 0 && 0 <= pre < out) || (out == -f.breakaway && error < 0 && out < pre <= 0))
  {
  }

  /** One tick of a finished move: the composed duty and the wheel's remaining error. */
  datatype Push = Push(pre: int, error: int)

  function Pushed(st: FrictionState, f: Friction, pushes: seq<Push>): FrictionState {
    if pushes == [] then st
    else
      var last := pushes[|pushes| - 1];
      Breakaway(Pushed(st, f, pushes[..|pushes| - 1]), f, last.pre, last.error, true).0
  }

  function PushedDuty(st: FrictionState, f: Friction, pushes: seq<Push>, k: nat): int
    requires k < |pushes|
  {
    Breakaway(Pushed(st, f, pushes[..k]), f, pushes[k].pre, pushes[k].error, true).1
  }

  /** Once the floor has pushed one way, the episode remembers it for the rest of the move. */
  lemma {:induction false} PushRemembered(st: FrictionState, f: Friction, pushes: seq<Push>, i: nat, n: nat)
    requires f.breakaway > 0 && i < n <= |pushes| && PushedDuty(st, f, pushes, i) != pushes[i].pre
    ensures Pushed(st, f, pushes[..n]).breakawaySign == if PushedDuty(st, f, pushes, i) > 0 then 1 else -1
    decreases n
  {
    assert pushes[..n][..n - 1] == pushes[..n - 1];
    if n > i + 1 { PushRemembered(st, f, pushes, i, n - 1); }
  }

  /** One shot per move: however the errors and duties run, a wheel is never pushed both ways. */
  lemma BreakawayOneWay(st: FrictionState, f: Friction, pushes: seq<Push>, i: nat, j: nat)
    requires f.breakaway > 0 && i < j < |pushes|
    requires PushedDuty(st, f, pushes, i) != pushes[i].pre && PushedDuty(st, f, pushes, j) != pushes[j].pre
    ensures PushedDuty(st, f, pushes, i) == PushedDuty(st, f, pushes, j)
  {
    PushRemembered(st, f, pushes, i, j);
    BreakawayRaisesOnly(Pushed(st, f, pushes[..i]), f, pushes[i].pre, pushes[i].error, true);
  }

  // ---- The tick ---------------------------------------------------------------------------

  datatype Base = Base(distance: Axis, heading: Axis, left: Wheel, right: Wheel, frictionLeft: FrictionState,
                       frictionRight: FrictionState)

  /** Everything a tick reads: `lost` says whether draining a side's encoder found its port gone,
      `accepts` answers the motor calls in order (two of them, then two more when a fault shows). */
  datatype TickInput = TickInput(
    now: nat, lostLeft: bool, lostRight: bool, distance: AxisInput, heading: AxisInput,
    friction: Friction, nominal: int, battery: int, batteryMin: nat,
    acceptLeft: bool, acceptRight: bool, acceptLeftAgain: bool, acceptRightAgain: bool)

  predicate Pending(b: Base) { b.left.reclaim || b.right.reclaim }

  function ApplyBoth(b: Base, left: int, right: int, actuation: nat, okLeft: bool, okRight: bool): Base {
    b.(left := ApplyWheel(b.left, left, actuation, okLeft), right := ApplyWheel(b.right, right, actuation, okRight))
  }

  /** Lines 1072-1082: the action handed to both wheels; 0 is meant to say "none". */
  function Propagate(d: nat, h: nat): nat {
    if d == COAST || h == COAST then COAST else if d == BRAKE || h == BRAKE then BRAKE else 0
  }

  function Corrected(pre: int, i: TickInput): int {
    var volts := if i.battery < i.batteryMin then i.batteryMin as int else i.battery;
    if volts > 0 then Clamp(Truncate(Clamp(pre, -FULL, FULL) * i.nominal, volts), -FULL, FULL) else 0
  }

  /** Lines 1137-1220: per-wheel duty from both axes. */
  function Compose(b: Base, d: AxisOutput, h: AxisOutput, i: TickInput): (Base, int, int) {
    var f := i.friction;
    var signL := HeldSign(d.refV - h.refV, b.frictionLeft.sign, f);
    var signR := HeldSign(d.refV + h.refV, b.frictionRight.sign, f);
    var done := d.trajectoryDone && h.trajectoryDone;
    var stL := if done then b.frictionLeft.(sign := signL) else FrictionState(signL, false, 0);
    var stR := if done then b.frictionRight.(sign := signR) else FrictionState(signR, false, 0);
    var half := Truncate(f.kS, 2);
    var (nextL, left) := Breakaway(stL, f, d.duty - h.duty + signL * half, d.error - h.error, done);
    var (nextR, right) := Breakaway(stR, f, d.duty + h.duty + signR * half, d.error + h.error, done);
    (b.(frictionLeft := nextL, frictionRight := nextR), Corrected(left, i), Corrected(right, i))
  }

  /** Lines 1084-1240: what is done with the two axes' requests. */
  function Act(b: Base, d: AxisOutput, h: AxisOutput, i: TickInput): Base {
    var propagate := Propagate(d.actuation, h.actuation);
    if Pending(b) then ApplyBoth(b, 0, 0, COAST, i.acceptLeft, i.acceptRight)
    else if propagate != 0 then
      ApplyBoth(b.(distance := StopAxis(b.distance, i.now, propagate),
                   heading := StopAxis(b.heading, i.now, propagate)),
                0, 0, propagate, i.acceptLeft, i.acceptRight)
    else
      var (c, left, right) := Compose(b, d, h, i);
      var applied := ApplyBoth(c, left, right, HOLD, i.acceptLeft, i.acceptRight);
      if Pending(applied) then ApplyBoth(applied, 0, 0, COAST, i.acceptLeftAgain, i.acceptRightAgain) else applied
  }

  function Drained(b: Base, i: TickInput): Base {
    b.(left := b.left.(reclaim := b.left.reclaim || i.lostLeft),
       right := b.right.(reclaim := b.right.reclaim || i.lostRight))
  }

  /** Lines 1024-1240: a completed update. */
  function Tick(b: Base, i: TickInput): Base {
    var c := Drained(b, i);
    var (distance, d) := AxisUpdate(c.distance, i.now, i.distance);
    var (heading, h) := AxisUpdate(c.heading, i.now, i.heading);
    Act(c.(distance := distance, heading := heading), d, h, i)
  }

  function Outputs(b: Base, i: TickInput): (AxisOutput, AxisOutput) {
    (AxisUpdate(b.distance, i.now, i.distance).1, AxisUpdate(b.heading, i.now, i.heading).1)
  }

  // ---- Commands ---------------------------------------------------------------------------

  /** What a command does to the axes and, for a passive stop, at once to the wheels. */
  datatype Command =
    | Move(now: nat, distance: nat, heading: nat)
    | Forever(now: nat)
    | Stop(now: nat, onCompletion: nat, acceptLeft: bool, acceptRight: bool)
    | GyroModeChanged

  function Obey(b: Base, c: Command): Base {
    match c
    case Move(now, distance, heading) =>
      b.(distance := DriveFinite(b.distance, now, distance), heading := DriveFinite(b.heading, now, heading))
    case Forever(now) => b.(distance := DriveForever(b.distance, now), heading := DriveForever(b.heading, now))
    case Stop(now, onCompletion, acceptLeft, acceptRight) =>
      var stopped := b.(distance := StopAxis(b.distance, now, onCompletion),
                        heading := StopAxis(b.heading, now, onCompletion));
      if onCompletion == HOLD || onCompletion == CONTINUE || onCompletion > BRAKE_SMART then stopped
      else ApplyBoth(stopped, 0, 0, onCompletion, acceptLeft, acceptRight)
    case GyroModeChanged => b.(heading := ResetAxis(b.heading))
  }

  /** Every command keeps latches passive; a passive stop leaves both wheels undriven. */
  lemma ObeyKeepsGood(b: Base, c: Command)
    requires GoodBase(b)
    ensures GoodBase(Obey(b, c))
    ensures c.Stop? && (c.onCompletion == BRAKE || c.onCompletion == BRAKE_SMART) ==> BothPassive(Obey(b, c), BRAKE)
    ensures c.Stop? && (c.onCompletion == COAST || c.onCompletion == COAST_SMART) ==> BothPassive(Obey(b, c), COAST)
  {
  }

  // ---- Faults -----------------------------------------------------------------------------

  /** At the end of every completed update a pending reclaim means no wheel is recorded as driven. */
  lemma PendingMeansNoDuty(b: Base, i: TickInput)
    ensures Pending(Tick(b, i)) ==> Tick(b, i).left.duty == 0 && Tick(b, i).right.duty == 0
  {
    hide AxisUpdate, Compose, StopAxis;
  }

  /** A fault found before the decision coasts both wheels, whatever the axes ask for. */
  lemma FaultCoastsBoth(b: Base, i: TickInput)
    requires Pending(Drained(b, i))
    ensures var c := Tick(b, i);
      c.left.duty == 0 && c.right.duty == 0 && c.left.actuation == COAST && c.right.actuation == COAST && Pending(c)
  {
    hide AxisUpdate, Compose, StopAxis;
  }

  /** Whatever is applied stays within full duty. */
  lemma DutyWithinRails(b: Base, i: TickInput)
    ensures -FULL <= Tick(b, i).left.duty <= FULL && -FULL <= Tick(b, i).right.duty <= FULL
  {
    hide AxisUpdate, Compose, StopAxis;
  }

  // ---- Passive completion -------------------------------------------------------------------

  predicate GoodBase(b: Base) { GoodAxis(b.distance) && GoodAxis(b.heading) }

  /** No port fault is pending at the decision or shows up in this tick. */
  predicate Healthy(b: Base, i: TickInput) { !Pending(Drained(b, i)) && i.acceptLeft && i.acceptRight }

  /** Both wheels were given the passive action, both axes are latched in it and off. */
  predicate BothPassive(b: Base, actuation: nat) {
    && b.left.duty == 0 && b.right.duty == 0 && b.left.actuation == actuation && b.right.actuation == actuation
    && b.distance.pid.latched && b.distance.pid.latchedActuation == actuation && !b.distance.active
    && b.heading.pid.latched && b.heading.pid.latchedActuation == actuation && !b.heading.active
  }

  /** Exactly when a tick without fault makes both wheels passive: some axis asks for BRAKE and none
      for COAST. COAST is coded 0, the value that means "nothing to propagate", so an axis that asks
      for COAST never stops the other one: the wheels are driven with the composed duty. */
  lemma PassiveExactly(b: Base, i: TickInput)
    requires GoodBase(b) && Healthy(b, i)
    ensures var (d, h) := Outputs(b, i);
      var c := Tick(b, i);
      && GoodBase(c)
      && ((c.left.actuation != HOLD || c.right.actuation != HOLD) <==>
            (d.actuation == BRAKE || h.actuation == BRAKE) && d.actuation != COAST && h.actuation != COAST)
      && (BothPassive(c, BRAKE) <==>
            (d.actuation == BRAKE || h.actuation == BRAKE) && d.actuation != COAST && h.actuation != COAST)
      && !BothPassive(c, COAST)
      && !Pending(c)
  {
    AxisReports(b.distance, i.now, i.distance);
    AxisReports(b.heading, i.now, i.heading);
    hide AxisUpdate, Compose;
  }

  predicate BrakeStopped(x: Axis) { !x.active && x.pid.latched && x.pid.latchedActuation == BRAKE }

  /** Once both axes are stopped with BRAKE, every further tick without fault brakes both wheels. */
  lemma BrakeRepeats(b: Base, i: TickInput)
    requires BrakeStopped(b.distance) && BrakeStopped(b.heading) && Healthy(b, i)
    ensures BothPassive(Tick(b, i), BRAKE) && BrakeStopped(Tick(b, i).distance) && BrakeStopped(Tick(b, i).heading)
  {
    LatchedInactive(b.distance, i.now, i.distance);
    LatchedInactive(b.heading, i.now, i.heading);
    hide AxisUpdate, Compose;
  }

  function After(b: Base, ticks: seq<TickInput>): Base {
    if ticks == [] then b else Tick(After(b, ticks[..|ticks| - 1]), ticks[|ticks| - 1])
  }

  /** For every number of later ticks: from a braking tick on, as long as no port faults and no
      command, reset or gyro change intervenes, both wheels are braked with zero duty. */
  lemma {:induction false} BrakeLasts(b: Base, ticks: seq<TickInput>)
    requires GoodBase(b) && ticks != []
    requires forall n | 0 <= n < |ticks| :: Healthy(After(b, ticks[..n]), ticks[n])
    requires var (d, h) := Outputs(b, ticks[0]);
      (d.actuation == BRAKE || h.actuation == BRAKE) && d.actuation != COAST && h.actuation != COAST
    ensures BothPassive(After(b, ticks), BRAKE)
    decreases |ticks|
  {
    hide Tick, Outputs;
    var n := |ticks| - 1;
    assert Healthy(After(b, ticks[..n]), ticks[n]);
    if n == 0 {
      assert ticks[..0] == [];
      PassiveExactly(b, ticks[0]);
    } else {
      var front := ticks[..n];
      forall k | 0 <= k < n ensures Healthy(After(b, front[..k]), front[k]) {
        assert front[..k] == ticks[..k] && Healthy(After(b, ticks[..k]), ticks[k]);
      }
      BrakeLasts(b, front);
      BrakeRepeats(After(b, front), ticks[n]);
    }
  }

  predicate CoastStopped(x: Axis) { !x.active && x.pid.latched && x.pid.latchedActuation == COAST }

  lemma CoastRepeats(b: Base, i: TickInput)
    requires CoastStopped(b.distance) && CoastStopped(b.heading)
    requires Healthy(b, i) && i.friction.enter > 0 && i.friction.exit > 0
    ensures var c := Tick(b, i);
      && c.left == Wheel(0, HOLD, false) && c.right == Wheel(0, HOLD, false)
      && CoastStopped(c.distance) && CoastStopped(c.heading)
  {
    LatchedInactive(b.distance, i.now, i.distance);
    LatchedInactive(b.heading, i.now, i.heading);
    ComposeZero(Drained(b, i).(distance := ResetPause(b.distance), heading := ResetPause(b.heading)), i);
    hide AxisUpdate, Compose;
  }

  /** After a COAST stop of both axes, for any number of ticks without fault or command: the wheels
      get zero duty every time, but as an active duty command and not as COAST, provided the friction
      thresholds are positive. */
  lemma {:induction false} CoastStopDrivesZero(b: Base, ticks: seq<TickInput>)
    requires CoastStopped(b.distance) && CoastStopped(b.heading) && ticks != []
    requires forall n | 0 <= n < |ticks| :: Healthy(After(b, ticks[..n]), ticks[n])
    requires forall n | 0 <= n < |ticks| :: ticks[n].friction.enter > 0 && ticks[n].friction.exit > 0
    ensures var c := After(b, ticks);
      && c.left == Wheel(0, HOLD, false) && c.right == Wheel(0, HOLD, false)
      && CoastStopped(c.distance) && CoastStopped(c.heading)
    decreases |ticks|
  {
    hide Tick, Healthy;
    var n := |ticks| - 1;
    assert Healthy(After(b, ticks[..n]), ticks[n]);
    if n == 0 {
      assert ticks[..0] == [];
      CoastRepeats(b, ticks[0]);
    } else {
      var front := ticks[..n];
      forall k | 0 <= k < n ensures Healthy(After(b, front[..k]), front[k]) {
        assert front[..k] == ticks[..k] && Healthy(After(b, ticks[..k]), ticks[k]);
      }
      CoastStopDrivesZero(b, front);
      CoastRepeats(After(b, front), ticks[n]);
    }
  }

  lemma ComposeZero(b: Base, i: TickInput)
    requires i.friction.enter > 0 && i.friction.exit > 0
    ensures var off := AxisOutput(0, 0, COAST, true, true, 0);
      var (c, left, right) := Compose(b, off, off, i);
      left == 0 && right == 0 && c.left == b.left && c.right == b.right
  {
    CorrectedZero(i);
    hide Corrected, Truncate;
  }

  lemma CorrectedZero(i: TickInput)
    ensures Corrected(0, i) == 0
  {
  }
}
