/** The controllers in the source's own form: structures whose fields the functions update. */
module DriveObjects {
  import opened DriveAngle
  import opened DriveControl
  import opened DriveTick

  /** struct db_pid_state_s. */
  class PidState {
    var iAcc: int
    var prevError: int
    var paused: bool
    var saturatedHigh: bool
    var saturatedLow: bool
    var doneStreak: nat
    var done: bool
    var smartStreak: nat
    var smartActive: bool
    var smartExpired: bool
    var latched: bool
    var latchedActuation: nat

    ghost function Value(): Pid
      reads this
    {
      Pid(iAcc, prevError, paused, saturatedHigh, saturatedLow, doneStreak, done, smartStreak, smartActive,
          smartExpired, latched, latchedActuation)
    }

    constructor ()
      ensures Value() == RESET_PID
    {
      iAcc, prevError, paused, saturatedHigh, saturatedLow := 0, 0, false, false, false;
      doneStreak, done, smartStreak, smartActive, smartExpired := 0, false, 0, false, false;
      latched, latchedActuation := false, 0;
    }

    method Reset()
      modifies this
      ensures Value() == RESET_PID
    {
      iAcc, prevError, paused, saturatedHigh, saturatedLow := 0, 0, false, false, false;
      doneStreak, done, smartStreak, smartActive, smartExpired := 0, false, 0, false, false;
      latched, latchedActuation := false, 0;
    }

    method Pause(pause: bool)
      modifies this
      ensures Value() == PidPause(old(Value()), pause)
    {
      paused := pause;
      if !pause { latched, latchedActuation := false, 0; }
    }

    /** Lines 133-142; the caller then sets the latch. */
    method StopPassively()
      modifies this
      ensures Value() == StopPassive(old(Value()))
    {
      Reset();
      paused, done := true, true;
    }

    method LatchIn(actuation: nat)
      modifies this
      ensures Value() == Latch(old(Value()), actuation)
    {
      Pause(true);
      latched, latchedActuation := true, actuation;
    }

    /** Lines 176-196: P and D on position, P on speed, the integrator and the feed-forward. */
    method Output(i: PidInput, error: int, speedError: int) returns (raw: int)
      requires error == PositionError(i) && speedError == i.ref.v - i.actV
      ensures raw == Unsaturated(prevError, iAcc, i)
    {
      hide Truncate, PositionError;
      var p := Truncate(i.gains.kpPos * error, 1000);
      var d := 0;
      if i.dt > 0 {
        var change := error - prevError;
        d := Truncate(i.gains.kdPos * change, i.dt);
      }
      var speed := Truncate(i.gains.kpSpeed * speedError, 1000);
      raw := p + d + speed + Truncate(iAcc, IACC_SCALE) + i.ff;
    }

    /** Lines 216-233. */
    method Integrate(i: PidInput, error: int, speedError: int)
      modifies this`iAcc
      ensures iAcc == Integrated(old(Value()), i, error, speedError)
    {
      hide Truncate;
      iAcc := iAcc + Truncate(i.gains.kiPos * error * i.dt, 1000);
      iAcc := iAcc + Truncate(i.gains.kiSpeed * speedError * i.dt, 1000);
      var clip := i.gains.outMax * IACC_SCALE;
      if iAcc > clip { iAcc := clip; }
      if iAcc < -clip { iAcc := -clip; }
    }

    /** Lines 244-258: the completion window. */
    method Judge(i: PidInput, error: int, speedError: int)
      modifies this`doneStreak, this`done
      ensures Value() == Judged(old(Value()), i, error, speedError)
    {
      if i.ref.done && Abs(error) <= i.completion.posTolerance && Abs(speedError) <= i.completion.speedTolerance {
        doneStreak := doneStreak + i.dt;
        if doneStreak >= i.completion.doneWindow { done := true; }
      } else {
        doneStreak, done := 0, false;
      }
    }

    /** Lines 266-347. */
    method Complete(i: PidInput, duty: int) returns (out: PidOutput)
      modifies this
      ensures (Value(), out) == Arbitrate(old(Value()), i, duty)
    {
      out := PidOutput(duty, HOLD, done);
      if done {
        if i.onCompletion == COAST || i.onCompletion == BRAKE {
          LatchIn(i.onCompletion);
          out := PidOutput(0, i.onCompletion, true);
        } else if i.onCompletion == COAST_SMART || i.onCompletion == BRAKE_SMART {
          if !smartActive && !smartExpired {
            smartActive, smartStreak := true, 0;
          }
          if smartActive {
            smartStreak := smartStreak + i.dt;
            if smartStreak >= i.completion.smartHold { smartActive, smartExpired := false, true; }
          }
          if smartExpired {
            var passive := if i.onCompletion == BRAKE_SMART then BRAKE else COAST;
            LatchIn(passive);
            out := PidOutput(0, passive, true);
          }
        }
      }
    }

    /** Lines 144-348. */
    method Update(i: PidInput) returns (out: PidOutput)
      modifies this
      ensures (Value(), out) == PidUpdate(old(Value()), i)
    {
      hide Unsaturated, Arbitrate, Judged, Integrated, Frozen, PositionError;
      if latched { return PidOutput(0, latchedActuation, true); }
      var error, speedError := PositionError(i), i.ref.v - i.actV;
      var raw := Output(i, error, speedError);
      var high, low := raw > i.gains.outMax, raw < i.gains.outMin;
      if !Frozen(paused, i.gains, error, high, low) { Integrate(i, error, speedError); }
      prevError, saturatedHigh, saturatedLow := error, high, low;
      Judge(i, error, speedError);
      out := Complete(i, Clamp(raw, i.gains.outMin, i.gains.outMax));
    }
  }

  /** struct db_aggregate_control_s. */
  class AxisControl {
    const pid: PidState
    var active: bool
    var infinite: bool
    var begin: nat
    var onCompletion: nat
    var paused: bool
    var pauseBegin: nat
    var pauseTotal: nat

    ghost function Value(): Axis
      reads this, pid
    {
      Axis(pid.Value(), active, infinite, begin, onCompletion, paused, pauseBegin, pauseTotal)
    }

    constructor ()
      ensures Value() == INITIAL_AXIS && fresh(pid)
    {
      pid := new PidState();
      active, infinite, begin, onCompletion := false, false, 0, COAST;
      paused, pauseBegin, pauseTotal := false, 0, 0;
    }

    method ClearPause()
      modifies this
      ensures Value() == ResetPause(old(Value()))
    {
      paused, pauseBegin, pauseTotal := false, 0, 0;
    }

    method ChangePause(pause: bool, now: nat)
      modifies this
      ensures Value() == SetPause(old(Value()), pause, now)
    {
      if pause && !paused {
        pauseBegin, paused := now, true;
      } else if !pause && paused {
        if now >= pauseBegin { pauseTotal := pauseTotal + (now - pauseBegin); }
        paused := false;
      }
    }

    method Arm(now: nat, completion: nat, forever: bool)
      modifies this, pid
      ensures Value() == if forever then DriveForever(old(Value()), now) else DriveFinite(old(Value()), now, completion)
    {
      if forever && active && infinite {
        onCompletion := COAST;
        return;
      }
      ClearPause();
      active, infinite, begin, onCompletion := true, forever, now, if forever then COAST else completion;
      pid.Pause(false);
      pid.Reset();
    }

    method Halt(now: nat, completion: nat)
      modifies this, pid
      ensures Value() == StopAxis(old(Value()), now, completion)
    {
      ClearPause();
      active, onCompletion := false, completion;
      if completion == COAST || completion == COAST_SMART {
        pid.StopPassively();
        pid.latched, pid.latchedActuation := true, COAST;
      } else if completion == BRAKE || completion == BRAKE_SMART {
        pid.StopPassively();
        pid.latched, pid.latchedActuation := true, BRAKE;
      } else {
        Arm(now, HOLD, false);
      }
    }

    method Update(now: nat, i: AxisInput) returns (out: AxisOutput)
      modifies this, pid
      ensures (Value(), out) == AxisUpdate(old(Value()), now, i)
    {
      hide PidUpdate;
      if !active { ClearPause(); }
      if !active && !pid.latched {
        return AxisOutput(0, 0, COAST, pid.done, true, 0);
      }
      var ref := if active then i.ref else Ref(i.x, 0, 0, true);
      var ff := if active then i.kV * Truncate(ref.v, 1000) + i.kA * Truncate(ref.a, 1000) else 0;
      var p := pid.Update(PidInput(ref, i.x, i.v, i.dt, i.gains, i.completion, ff, onCompletion));
      out := AxisOutput(p.duty, ref.v, p.actuation, p.done, ref.done, Clamp(ref.x - i.x, -INT32_MAX - 1, INT32_MAX));
      if active {
        var s, v, a := Sign(ref.x - i.x), Sign(ref.v - i.v), Sign(ref.a);
        var limited := (s > 0 && pid.saturatedHigh) || (s < 0 && pid.saturatedLow);
        var want := !pid.latched && limited && !(s != 0 && v != 0 && s == -v) && !(s != 0 && a != 0 && s == -a);
        ChangePause(want, now);
      }
    }
  }

  /** The actuation part of struct db_servo_s, with its side's reclaim bit. */
  class Servo {
    var duty: int
    var actuation: nat
    var reclaim: bool

    ghost function Value(): Wheel
      reads this
    {
      Wheel(duty, actuation, reclaim)
    }

    constructor ()
      ensures Value() == Wheel(0, COAST, false)
    {
      duty, actuation, reclaim := 0, COAST, false;
    }

    /** db_servo_apply: a request that the device refuses arms a reclaim and records no duty. */
    method Apply(requested: int, action: nat, ok: bool)
      modifies this
      ensures Value() == ApplyWheel(old(Value()), requested, action, ok)
    {
      if !ok { reclaim := true; }
      if action == COAST || action == COAST_SMART {
        duty, actuation := 0, COAST;
      } else if action == BRAKE || action == BRAKE_SMART {
        duty, actuation := 0, BRAKE;
      } else {
        duty := 0;
        if ok {
          duty := requested;
          if duty > FULL { duty := FULL; }
          if duty < -FULL { duty := -FULL; }
        }
        actuation := HOLD;
      }
    }
  }

  /** struct db_ff_state_s. */
  class FrictionMemory {
    var sign: int
    var consumed: bool
    var breakawaySign: int

    ghost function Value(): FrictionState
      reads this
    {
      FrictionState(sign, consumed, breakawaySign)
    }

    constructor ()
      ensures Value() == FrictionState(0, false, 0)
    {
      sign, consumed, breakawaySign := 0, false, 0;
    }

    /** apply_breakaway_floor. */
    method Floor(f: Friction, pre: int, error: int, done: bool) returns (out: int)
      modifies this
      ensures (Value(), out) == Breakaway(old(Value()), f, pre, error, done)
    {
      out := pre;
      if f.breakaway == 0 || !done || consumed { return; }
      var s := 0;
      if error > BREAKAWAY_DEADBAND { s := 1; }
      if error < -BREAKAWAY_DEADBAND { s := -1; }
      if s == 0 {
        if breakawaySign != 0 { consumed := true; }
        return;
      }
      if breakawaySign != 0 && s != breakawaySign {
        consumed := true;
        return;
      }
      if (s > 0 && pre < 0) || (s < 0 && pre > 0) { return; }
      if s > 0 && pre < f.breakaway {
        breakawaySign, out := s, f.breakaway;
      } else if s < 0 && pre > -f.breakaway {
        breakawaySign, out := s, -f.breakaway;
      }
    }

    /** One wheel's share of lines 1143-1189: the held friction sign, the re-arming, the floor. */
    method Shape(f: Friction, v: int, duty: int, error: int, done: bool) returns (out: int)
      modifies this
      ensures var held := HeldSign(v, old(sign), f);
        var st := if done then old(Value()).(sign := held) else FrictionState(held, false, 0);
        (Value(), out) == Breakaway(st, f, duty + held * Truncate(f.kS, 2), error, done)
    {
      hide Breakaway, HeldSign, Truncate;
      sign := HeldSign(v, sign, f);
      if !done { consumed, breakawaySign := false, 0; }
      out := Floor(f, duty + sign * Truncate(f.kS, 2), error, done);
    }
  }

  /** The part of struct db_drivebase_s that a tick actuates with. */
  class DriveBase {
    const distance: AxisControl
    const heading: AxisControl
    const left: Servo
    const right: Servo
    const frictionLeft: FrictionMemory
    const frictionRight: FrictionMemory

    ghost predicate Valid() {
      distance != heading && distance.pid != heading.pid && left != right && frictionLeft != frictionRight
    }

    ghost function Value(): Base
      reads distance, distance.pid, heading, heading.pid, left, right, frictionLeft, frictionRight
    {
      Base(distance.Value(), heading.Value(), left.Value(), right.Value(), frictionLeft.Value(), frictionRight.Value())
    }

    constructor ()
      ensures Valid() && Value().distance == INITIAL_AXIS && Value().heading == INITIAL_AXIS && !Pending(Value())
    {
      distance := new AxisControl();
      heading := new AxisControl();
      left := new Servo();
      right := new Servo();
      frictionLeft := new FrictionMemory();
      frictionRight := new FrictionMemory();
    }

    method ApplyWheels(dutyLeft: int, dutyRight: int, actuation: nat, okLeft: bool, okRight: bool)
      requires Valid()
      modifies left, right
      ensures Value() == ApplyBoth(old(Value()), dutyLeft, dutyRight, actuation, okLeft, okRight)
    {
      hide ApplyWheel;
      left.Apply(dutyLeft, actuation, okLeft);
      right.Apply(dutyRight, actuation, okRight);
    }

    /** Lines 1211-1220: the clamps and the battery correction. */
    static method Correct(pre: int, i: TickInput) returns (duty: int)
      ensures duty == Corrected(pre, i)
    {
      duty := pre;
      if duty > FULL { duty := FULL; }
      if duty < -FULL { duty := -FULL; }
      var volts := i.battery;
      if volts < i.batteryMin { volts := i.batteryMin; }
      if volts <= 0 { return 0; }
      hide Truncate;
      duty := Truncate(duty * i.nominal, volts);
      if duty > FULL { duty := FULL; }
      if duty < -FULL { duty := -FULL; }
    }

    /** Lines 1137-1220. */
    method ComposeDuty(d: AxisOutput, h: AxisOutput, i: TickInput) returns (dutyLeft: int, dutyRight: int)
      requires Valid()
      modifies frictionLeft, frictionRight
      ensures (Value(), dutyLeft, dutyRight) == Compose(old(Value()), d, h, i)
    {
      hide Breakaway, Corrected, HeldSign, Truncate;
      var done := d.trajectoryDone && h.trajectoryDone;
      var preLeft := frictionLeft.Shape(i.friction, d.refV - h.refV, d.duty - h.duty, d.error - h.error, done);
      var preRight := frictionRight.Shape(i.friction, d.refV + h.refV, d.duty + h.duty, d.error + h.error, done);
      dutyLeft := Correct(preLeft, i);
      dutyRight := Correct(preRight, i);
    }

    /** Lines 1137-1239. */
    method Drive(d: AxisOutput, h: AxisOutput, i: TickInput)
      requires Valid() && !Pending(Value()) && Propagate(d.actuation, h.actuation) == 0
      modifies left, right, frictionLeft, frictionRight
      ensures Value() == Act(old(Value()), d, h, i)
    {
      hide Compose, ApplyWheel;
      var dutyLeft, dutyRight := ComposeDuty(d, h, i);
      ApplyWheels(dutyLeft, dutyRight, HOLD, i.acceptLeft, i.acceptRight);
      if left.reclaim || right.reclaim {
        ApplyWheels(0, 0, COAST, i.acceptLeftAgain, i.acceptRightAgain);
      }
    }

    /** Lines 1107-1113. */
    method StopBoth(action: nat, i: TickInput)
      requires Valid()
      modifies distance, distance.pid, heading, heading.pid, left, right
      ensures var b := old(Value());
        Value() == ApplyBoth(b.(distance := StopAxis(b.distance, i.now, action),
                                heading := StopAxis(b.heading, i.now, action)),
                             0, 0, action, i.acceptLeft, i.acceptRight)
    {
      hide StopAxis, ApplyWheel;
      distance.Halt(i.now, action);
      heading.Halt(i.now, action);
      ApplyWheels(0, 0, action, i.acceptLeft, i.acceptRight);
    }

    /** Lines 1084-1240. */
    method Actuate(d: AxisOutput, h: AxisOutput, i: TickInput)
      requires Valid()
      modifies distance, distance.pid, heading, heading.pid, left, right, frictionLeft, frictionRight
      ensures Value() == Act(old(Value()), d, h, i)
    {
      hide StopAxis, Compose, ApplyWheel, ApplyBoth;
      var propagate := 0;
      if d.actuation == COAST || h.actuation == COAST {
        propagate := COAST;
      } else if d.actuation == BRAKE || h.actuation == BRAKE {
        propagate := BRAKE;
      }
      if left.reclaim || right.reclaim {
        ApplyWheels(0, 0, COAST, i.acceptLeft, i.acceptRight);
      } else if propagate != 0 {
        StopBoth(propagate, i);
      } else {
        Drive(d, h, i);
      }
    }

    /** Lines 1024-1240. */
    method Update(i: TickInput)
      requires Valid()
      modifies distance, distance.pid, heading, heading.pid, left, right, frictionLeft, frictionRight
      ensures Value() == Tick(old(Value()), i)
    {
      hide AxisUpdate, Act;
      if i.lostLeft { left.reclaim := true; }
      if i.lostRight { right.reclaim := true; }
      var d := distance.Update(i.now, i.distance);
      var h := heading.Update(i.now, i.heading);
      Actuate(d, h, i);
    }
  }
}
