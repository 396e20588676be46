/** The per-axis controller of the drivebase: apps/drivebase/drivebase_control.c (PID, completion,
    passive latch) and apps/drivebase/drivebase_aggregate.c (trajectory, pause clock, commands).
    Trajectories are not modelled: the reference of each tick is an arbitrary input. */
module DriveControl {
  import opened DriveAngle

  // enum drivebase_on_completion_e
  const COAST: nat := 0
  const BRAKE: nat := 1
  const HOLD: nat := 2
  const CONTINUE: nat := 3
  const COAST_SMART: nat := 4
  const BRAKE_SMART: nat := 5

  const IACC_SCALE: int := 256

  // ---- PID --------------------------------------------------------------------------------

  datatype Pid = Pid(
    iAcc: int, prevError: int, paused: bool, saturatedHigh: bool, saturatedLow: bool,
    doneStreak: nat, done: bool, smartStreak: nat, smartActive: bool, smartExpired: bool,
    latched: bool, latchedActuation: nat)

  datatype Gains = Gains(kpPos: int, kdPos: int, kpSpeed: int, kiPos: int, kiSpeed: int, deadband: int, outMin: int,
                         outMax: int)
  datatype Completion = Completion(posTolerance: int, speedTolerance: int, doneWindow: nat, smartHold: nat)
  datatype Ref = Ref(x: int, v: int, a: int, done: bool)
  datatype PidInput = PidInput(ref: Ref, actX: int, actV: int, dt: nat, gains: Gains, completion: Completion, ff: int,
                               onCompletion: nat)
  datatype PidOutput = PidOutput(duty: int, actuation: nat, done: bool)

  const RESET_PID := Pid(0, 0, false, false, false, 0, false, 0, false, false, false, 0)

  function Clamp(v: int, lo: int, hi: int): int { if v < lo then lo else if v > hi then hi else v }

  /** Lines 116-131 and 133-142. */
  function PidPause(st: Pid, paused: bool): Pid {
    if paused then st.(paused := true) else st.(paused := false, latched := false, latchedActuation := 0)
  }

  function StopPassive(st: Pid): Pid { RESET_PID.(paused := true, done := true) }

  function PositionError(i: PidInput): int { Clamp(i.ref.x - i.actX, -INT32_MAX - 1, INT32_MAX) }

  function Unsaturated(prevError: int, iAcc: int, i: PidInput): int {
    var error, speedError := PositionError(i), i.ref.v - i.actV;
    Truncate(i.gains.kpPos * error, 1000)
    + (if i.dt > 0 then Truncate(i.gains.kdPos * (error - prevError), i.dt) else 0)
    + Truncate(i.gains.kpSpeed * speedError, 1000)
    + Truncate(iAcc, IACC_SCALE) + i.ff
  }

  function Truncate(a: int, b: int): int
    requires b > 0
  {
    Quotient(a, b)
  }

  /** Lines 67-89: anti-windup. */
  predicate Frozen(paused: bool, g: Gains, error: int, high: bool, low: bool) {
    paused || Abs(error) <= g.deadband || (high && error > 0) || (low && error < 0)
  }

  function Integrated(st: Pid, i: PidInput, error: int, speedError: int): int {
    var sum := st.iAcc + Truncate(i.gains.kiPos * error * i.dt, 1000) +
      Truncate(i.gains.kiSpeed * speedError * i.dt, 1000);
    var clip := i.gains.outMax * IACC_SCALE;
    // Two separate clips, as in the source: with a negative limit the lower one wins.
    var upper := if sum > clip then clip else sum;
    if upper < -clip then -clip else upper
  }

  /** Lines 244-258: the errors must stay within tolerance for the whole window. */
  function Judged(st: Pid, i: PidInput, error: int, speedError: int): Pid {
    if i.ref.done && Abs(error) <= i.completion.posTolerance && Abs(speedError) <= i.completion.speedTolerance then
      var streak := st.doneStreak + i.dt;
      st.(doneStreak := streak, done := st.done || streak >= i.completion.doneWindow)
    else st.(doneStreak := 0, done := false)
  }

  function Latch(st: Pid, actuation: nat): (r: Pid)
    ensures r.iAcc == st.iAcc
  {
    PidPause(st, true).(latched := true, latchedActuation := actuation)
  }

  /** Lines 302-331: SMART completions hold for a while, then go passive. */
  function SmartTimer(st: Pid, i: PidInput): (r: Pid)
    ensures r.iAcc == st.iAcc
  {
    var started := if !st.smartActive && !st.smartExpired then st.(smartActive := true, smartStreak := 0) else st;
    if !started.smartActive then started
    else
      var streak := started.smartStreak + i.dt;
      if streak >= i.completion.smartHold
        then started.(smartStreak := streak, smartActive := false, smartExpired := true)
      else started.(smartStreak := streak)
  }

  /** Lines 266-347: what the axis asks for this tick. */
  function Arbitrate(st: Pid, i: PidInput, duty: int): (Pid, PidOutput) {
    if !st.done then (st, PidOutput(duty, HOLD, false))
    else if i.onCompletion == COAST || i.onCompletion == BRAKE then
      (Latch(st, i.onCompletion), PidOutput(0, i.onCompletion, true))
    else if i.onCompletion == COAST_SMART || i.onCompletion == BRAKE_SMART then
      var timed := SmartTimer(st, i);
      var passive := if i.onCompletion == BRAKE_SMART then BRAKE else COAST;
      if timed.smartExpired then (Latch(timed, passive), PidOutput(0, passive, true))
      else (timed, PidOutput(duty, HOLD, true))
    else (st, PidOutput(duty, HOLD, true))
  }

  /** Lines 144-348. */
  function PidUpdate(st: Pid, i: PidInput): (Pid, PidOutput) {
    if st.latched then (st, PidOutput(0, st.latchedActuation, true))
    else
      var error, speedError, raw := PositionError(i), i.ref.v - i.actV, Unsaturated(st.prevError, st.iAcc, i);
      var high, low := raw > i.gains.outMax, raw < i.gains.outMin;
      var iAcc := if Frozen(st.paused, i.gains, error, high, low) then st.iAcc
        else Integrated(st, i, error, speedError);
      var next := Judged(st.(iAcc := iAcc, prevError := error, saturatedHigh := high, saturatedLow := low), i,
                         error, speedError);
      Arbitrate(next, i, Clamp(raw, i.gains.outMin, i.gains.outMax))
  }

  /** A passive action is only ever reported together with zero duty, "done" and the latch. */
  lemma PassiveMeansLatched(st: Pid, i: PidInput)
    requires st.latched ==> st.latchedActuation == COAST || st.latchedActuation == BRAKE
    ensures var (next, out) := PidUpdate(st, i);
      && (out.actuation == COAST || out.actuation == BRAKE || out.actuation == HOLD)
      && (out.actuation != HOLD <==> next.latched)
      && (next.latched ==> out.duty == 0 && out.done && next.latchedActuation == out.actuation)
  {
    hide Unsaturated, Integrated, Frozen;
  }

  /** A latched axis keeps asking for the same passive action whatever the inputs. */
  lemma LatchStays(st: Pid, i: PidInput)
    requires st.latched
    ensures PidUpdate(st, i) == (st, PidOutput(0, st.latchedActuation, true))
  {
  }

  lemma IntegratorBounded(st: Pid, i: PidInput)
    requires i.gains.outMax >= 0 && Abs(st.iAcc) <= i.gains.outMax * IACC_SCALE
    ensures var (next, out) := PidUpdate(st, i);
      Abs(next.iAcc) <= i.gains.outMax * IACC_SCALE && Abs(Truncate(next.iAcc, IACC_SCALE)) <= i.gains.outMax
  {
    hide *;
    IntegratedBound(st, i, PositionError(i), i.ref.v - i.actV);
    IntegratorAfter(st, i);
    TruncateBound(PidUpdate(st, i).0.iAcc, i.gains.outMax);
  }

  function PidAfter(st: Pid, inputs: seq<PidInput>): Pid {
    if inputs == [] then st else PidUpdate(PidAfter(st, inputs[..|inputs| - 1]), inputs[|inputs| - 1]).0
  }

  /** In every run of updates from a reset the integrator alone never exceeds full output. */
  lemma {:induction false} IntegratorNeverSaturates(inputs: seq<PidInput>, outMax: nat)
    requires forall i | i in inputs :: i.gains.outMax == outMax
    ensures var st := PidAfter(RESET_PID, inputs);
      Abs(st.iAcc) <= outMax * IACC_SCALE && Abs(Truncate(st.iAcc, IACC_SCALE)) <= outMax
  {
    hide PidUpdate, Truncate;
    if inputs == [] {
      TruncateBound(0, outMax);
    } else {
      var last := inputs[|inputs| - 1];
      assert last in inputs;
      IntegratorNeverSaturates(inputs[..|inputs| - 1], outMax);
      IntegratorBounded(PidAfter(RESET_PID, inputs[..|inputs| - 1]), last);
    }
  }

  lemma ArbitrateKeepsIntegrator(st: Pid, i: PidInput, duty: int)
    ensures Arbitrate(st, i, duty).0.iAcc == st.iAcc
  {
    hide Latch, SmartTimer;
  }

  lemma IntegratorAfter(st: Pid, i: PidInput)
    ensures var next := PidUpdate(st, i).0;
      next.iAcc == st.iAcc || next.iAcc == Integrated(st, i, PositionError(i), i.ref.v - i.actV)
  {
    hide Unsaturated, Frozen, Integrated, PositionError, Arbitrate, Clamp;
    forall q, duty ensures Arbitrate(q, i, duty).0.iAcc == q.iAcc { ArbitrateKeepsIntegrator(q, i, duty); }
  }

  lemma IntegratedBound(st: Pid, i: PidInput, error: int, speedError: int)
    requires i.gains.outMax >= 0
    ensures Abs(Integrated(st, i, error, speedError)) <= i.gains.outMax * IACC_SCALE
  {
    hide Truncate;
  }

  lemma TruncateBound(x: int, limit: int)
    requires Abs(x) <= limit * IACC_SCALE
    ensures Abs(Truncate(x, IACC_SCALE)) <= limit
  {
  }

  // ---- One axis ---------------------------------------------------------------------------

  /** The trajectory itself is only known as finite or infinite; `begin` is when it was armed. */
  datatype Axis = Axis(
    pid: Pid, active: bool, infinite: bool, begin: nat, onCompletion: nat,
    paused: bool, pauseBegin: nat, pauseTotal: nat)

  /** Lines 55-68; 64-bit subtraction, shown never to go below zero. */
  function RefTime(x: Axis, now: nat): int {
    if x.paused then x.pauseBegin - x.pauseTotal else now - x.pauseTotal
  }

  /** Lines 70-83. A resume never comes before its pause, so the difference does not wrap. */
  function SetPause(x: Axis, pause: bool, now: nat): Axis {
    if pause && !x.paused then x.(pauseBegin := now, paused := true)
    else if !pause && x.paused then
      x.(pauseTotal := if now >= x.pauseBegin then x.pauseTotal + (now - x.pauseBegin) else x.pauseTotal,
         paused := false)
    else x
  }

  function ResetPause(x: Axis): Axis { x.(paused := false, pauseBegin := 0, pauseTotal := 0) }

  const INITIAL_AXIS := Axis(RESET_PID, false, false, 0, COAST, false, 0, 0)

  /** Lines 108-117. */
  function ResetAxis(x: Axis): Axis { ResetPause(x).(active := false, onCompletion := COAST, pid := RESET_PID) }

  /** Arms a finite trajectory: lines 148-161 and 211-220. */
  function DriveFinite(x: Axis, now: nat, onCompletion: nat): Axis {
    ResetPause(x).(active := true, infinite := false, begin := now, onCompletion := onCompletion, pid := RESET_PID)
  }

  /** Lines 178-197: an infinite trajectory in flight is retargeted and keeps its clock. */
  function DriveForever(x: Axis, now: nat): Axis {
    if x.active && x.infinite then x.(onCompletion := COAST)
    else ResetPause(x).(active := true, infinite := true, begin := now, onCompletion := COAST, pid := RESET_PID)
  }

  /** Lines 223-259. */
  function StopAxis(x: Axis, now: nat, onCompletion: nat): Axis {
    var stopped := ResetPause(x).(active := false, onCompletion := onCompletion);
    if onCompletion == COAST || onCompletion == COAST_SMART then
      stopped.(pid := StopPassive(x.pid).(latched := true, latchedActuation := COAST))
    else if onCompletion == BRAKE || onCompletion == BRAKE_SMART then
      stopped.(pid := StopPassive(x.pid).(latched := true, latchedActuation := BRAKE))
    else DriveFinite(stopped, now, HOLD)
  }

  datatype AxisInput = AxisInput(ref: Ref, x: int, v: int, dt: nat, gains: Gains, completion: Completion, kV: int,
                                 kA: int)
  datatype AxisOutput = AxisOutput(duty: int, refV: int, actuation: nat, done: bool, trajectoryDone: bool, error: int)

  function Sign(v: int): int { if v > 0 then 1 else if v < 0 then -1 else 0 }

  /** Lines 394-414. */
  predicate WantsPause(pid: Pid, ref: Ref, i: AxisInput) {
    var p, v, a := Sign(ref.x - i.x), Sign(ref.v - i.v), Sign(ref.a);
    && !pid.latched
    && ((p > 0 && pid.saturatedHigh) || (p < 0 && pid.saturatedLow))
    && !(p != 0 && v != 0 && p == -v)
    && !(p != 0 && a != 0 && p == -a)
  }

  /** Lines 261-415. The trajectory is read at RefTime; what it answers there is `i.ref`. */
  function AxisUpdate(x: Axis, now: nat, i: AxisInput): (Axis, AxisOutput) {
    var y := if x.active then x else ResetPause(x);
    if !y.active && !y.pid.latched then (y, AxisOutput(0, 0, COAST, y.pid.done, true, 0))
    else
      var ref := if y.active then i.ref else Ref(i.x, 0, 0, true);
      var ff := if y.active then i.kV * Truncate(ref.v, 1000) + i.kA * Truncate(ref.a, 1000) else 0;
      var (pid, out) := PidUpdate(y.pid, PidInput(ref, i.x, i.v, i.dt, i.gains, i.completion, ff, y.onCompletion));
      var z := y.(pid := pid);
      (if z.active then SetPause(z, WantsPause(pid, ref, i), now) else z,
       AxisOutput(out.duty, ref.v, out.actuation, out.done, ref.done, Clamp(ref.x - i.x, -INT32_MAX - 1, INT32_MAX)))
  }

  /** A latch always names one of the two passive actions. */
  predicate GoodAxis(x: Axis) {
    x.pid.latched ==> x.pid.latchedActuation == COAST || x.pid.latchedActuation == BRAKE
  }

  /** What an axis reports: HOLD exactly when it is under control, a passive action with zero
      duty otherwise; BRAKE only from a latched axis. */
  lemma AxisReports(x: Axis, now: nat, i: AxisInput)
    requires GoodAxis(x)
    ensures var (y, out) := AxisUpdate(x, now, i);
      && GoodAxis(y)
      && (out.actuation == COAST || out.actuation == BRAKE || out.actuation == HOLD)
      && (out.actuation != HOLD ==> out.duty == 0)
      && (out.actuation == BRAKE ==> y.pid.latched && y.pid.latchedActuation == BRAKE)
      && (y.pid.latched ==> out.actuation == y.pid.latchedActuation)
      && (x.pid.latched ==> y.pid == x.pid)
  {
    hide PidUpdate, WantsPause;
    var y := if x.active then x else ResetPause(x);
    if y.active || y.pid.latched {
      var ref := if y.active then i.ref else Ref(i.x, 0, 0, true);
      var ff := if y.active then i.kV * Truncate(ref.v, 1000) + i.kA * Truncate(ref.a, 1000) else 0;
      var input := PidInput(ref, i.x, i.v, i.dt, i.gains, i.completion, ff, y.onCompletion);
      PassiveMeansLatched(y.pid, input);
      if x.pid.latched { LatchStays(y.pid, input); }
    }
  }

  /** An inactive axis that a passive stop has latched repeats its action with nothing else. */
  lemma LatchedInactive(x: Axis, now: nat, i: AxisInput)
    requires !x.active && x.pid.latched
    ensures AxisUpdate(x, now, i) == (ResetPause(x), AxisOutput(0, 0, x.pid.latchedActuation, true, true, 0))
  {
  }
}
