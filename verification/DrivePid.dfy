/** What the per-axis controller computes: when a move counts as done, when a SMART completion goes
    passive, the terms of its duty, and when an axis pauses. */
module DrivePid {
  import opened DriveAngle
  import opened DriveControl
  import opened DriveCompose

  // ---- Completion -----------------------------------------------------------------------------

  /** The trajectory is over and both errors are within tolerance. */
  predicate Settled(i: PidInput) {
    && i.ref.done && Abs(PositionError(i)) <= i.completion.posTolerance
    && Abs(i.ref.v - i.actV) <= i.completion.speedTolerance
  }

  /** For how long the axis has been settled without interruption, if it is settled at all. */
  function SettledTime(inputs: seq<PidInput>): nat {
    if inputs == [] || !Settled(inputs[|inputs| - 1]) then 0
    else SettledTime(inputs[..|inputs| - 1]) + inputs[|inputs| - 1].dt
  }

  /** No update before the last has latched the controller. */
  predicate Running(inputs: seq<PidInput>) {
    forall n | 0 <= n < |inputs| :: !PidAfter(RESET_PID, inputs[..n]).latched
  }

  lemma RunningFront(inputs: seq<PidInput>)
    requires inputs != [] && Running(inputs)
    ensures Running(inputs[..|inputs| - 1]) && !PidAfter(RESET_PID, inputs[..|inputs| - 1]).latched
  {
    var front := inputs[..|inputs| - 1];
    hide PidAfter;
    assert front == inputs[..|front|];
    forall n | 0 <= n < |front| ensures !PidAfter(RESET_PID, front[..n]).latched { assert front[..n] == inputs[..n]; }
  }

  lemma UpdateJudges(st: Pid, i: PidInput)
    requires !st.latched
    ensures var next := PidUpdate(st, i).0;
      if Settled(i) then
        && next.doneStreak == st.doneStreak + i.dt
        && (next.done <==> st.done || st.doneStreak + i.dt >= i.completion.doneWindow)
      else next.doneStreak == 0 && !next.done
  {
    hide Unsaturated, Integrated, Frozen, Clamp, PositionError;
  }

  /** From a reset on, and as long as no passive completion has latched it: the controller reports done
      exactly if the axis is settled now and has been for the whole window without interruption. */
  lemma {:induction false} DoneExactly(inputs: seq<PidInput>, window: nat)
    requires Running(inputs) && forall i | i in inputs :: i.completion.doneWindow == window
    ensures var st := PidAfter(RESET_PID, inputs);
      && st.doneStreak == SettledTime(inputs)
      && (st.done <==> inputs != [] && Settled(inputs[|inputs| - 1]) && SettledTime(inputs) >= window)
  {
    if inputs != [] {
      var front, last := inputs[..|inputs| - 1], inputs[|inputs| - 1];
      assert last in inputs && forall i | i in front :: i in inputs;
      RunningFront(inputs);
      DoneExactly(front, window);
      UpdateJudges(PidAfter(RESET_PID, front), last);
      hide PidUpdate, Settled, Running;
    }
  }

  // ---- Going passive --------------------------------------------------------------------------

  /** For how long, in all, updates have found the move done. */
  function DoneTime(inputs: seq<PidInput>): nat {
    if inputs == [] then 0
    else
      DoneTime(inputs[..|inputs| - 1]) + if PidAfter(RESET_PID, inputs).done then inputs[|inputs| - 1].dt else 0
  }

  /** COAST and BRAKE are passive at once, their SMART forms after the hold time, HOLD and CONTINUE never. */
  predicate TurnsPassive(onCompletion: nat, doneTime: nat, hold: nat) {
    onCompletion == 0 || onCompletion == 1 || ((onCompletion == 4 || onCompletion == 5) && doneTime >= hold)
  }

  /** What the SMART bookkeeping holds while nothing is latched. */
  predicate SmartCounts(st: Pid, time: nat) {
    !st.latched && !st.smartExpired && st.smartStreak == time && (!st.smartActive ==> time == 0)
  }

  lemma UpdateLatches(st: Pid, i: PidInput, time: nat)
    requires SmartCounts(st, time) && (i.onCompletion == 4 || i.onCompletion == 5 || time == 0)
    ensures var next := PidUpdate(st, i).0;
      var now := time + if next.done then i.dt else 0;
      if next.done && TurnsPassive(i.onCompletion, now, i.completion.smartHold) then
        next.latched && next.latchedActuation == if i.onCompletion == 1 || i.onCompletion == 5 then 1 else 0
      else !next.latched && SmartCounts(next, if i.onCompletion == 4 || i.onCompletion == 5 then now else 0)
  {
    hide Unsaturated, Integrated, Frozen, Clamp, PositionError, Judged;
    forall q, error, speedError ensures SameSmart(q, Judged(q, i, error, speedError)) {
      JudgedKeepsSmart(q, i, error, speedError);
    }
  }

  predicate SameSmart(a: Pid, b: Pid) {
    && a.latched == b.latched && a.smartExpired == b.smartExpired && a.smartStreak == b.smartStreak
    && a.smartActive == b.smartActive
  }

  lemma JudgedKeepsSmart(st: Pid, i: PidInput, error: int, speedError: int)
    ensures SameSmart(st, Judged(st, i, error, speedError))
  {
  }

  /** From a reset on, under one completion: the controller goes passive in the first update that finds
      the move done, for a SMART completion once it has been found done for the hold time in all, and
      with HOLD or CONTINUE never. */
  lemma {:induction false} PassiveExactlyWhenDue(inputs: seq<PidInput>, onCompletion: nat, hold: nat)
    requires Running(inputs)
    requires forall i | i in inputs :: i.onCompletion == onCompletion && i.completion.smartHold == hold
    ensures var st := PidAfter(RESET_PID, inputs);
      && (st.latched <==> inputs != [] && st.done && TurnsPassive(onCompletion, DoneTime(inputs), hold))
      && (st.latched ==> st.latchedActuation == if onCompletion == 1 || onCompletion == 5 then 1 else 0)
      && (!st.latched ==> SmartCounts(st, if onCompletion == 4 || onCompletion == 5 then DoneTime(inputs) else 0))
  {
    if inputs != [] {
      var front, last := inputs[..|inputs| - 1], inputs[|inputs| - 1];
      assert last in inputs && forall i | i in front :: i in inputs;
      RunningFront(inputs);
      PassiveExactlyWhenDue(front, onCompletion, hold);
      var time := if onCompletion == 4 || onCompletion == 5 then DoneTime(front) else 0;
      UpdateLatches(PidAfter(RESET_PID, front), last, time);
      hide PidUpdate, Running, SmartCounts;
    }
  }

  // ---- The duty -------------------------------------------------------------------------------

  /** The position error as the controller sees it: limited to 32 bits. */
  function Error32(i: PidInput): int {
    var error := i.ref.x - i.actX;
    if error < -0x8000_0000 then -0x8000_0000 else if error > 0x7FFF_FFFF then 0x7FFF_FFFF else error
  }

  /** Two successive updates while the controller drives: the duty of the second is the limited sum of the
      terms proportional to its position error, to the error's change since the first over the time
      step, and to its speed error, of the integrator so far, and of the feed-forward. */
  lemma DutyIsSumOfTerms(st: Pid, i: PidInput, j: PidInput) returns (p: int, d: int, v: int, a: int)
    requires !PidUpdate(st, i).0.latched && !PidUpdate(PidUpdate(st, i).0, j).0.latched
    ensures Truncated(p, j.gains.kpPos * Error32(j), 1000)
    ensures if j.dt > 0 then Truncated(d, j.gains.kdPos * (Error32(j) - Error32(i)), j.dt) else d == 0
    ensures Truncated(v, j.gains.kpSpeed * (j.ref.v - j.actV), 1000)
    ensures Truncated(a, PidUpdate(st, i).0.iAcc, 256)
    ensures var sum := p + d + v + a + j.ff;
      PidUpdate(PidUpdate(st, i).0, j).1.duty ==
        if sum < j.gains.outMin then j.gains.outMin else if sum > j.gains.outMax then j.gains.outMax else sum
    ensures var sum, next := p + d + v + a + j.ff, PidUpdate(PidUpdate(st, i).0, j).0;
      (next.saturatedHigh <==> sum > j.gains.outMax) && (next.saturatedLow <==> sum < j.gains.outMin)
  {
    var before := PidUpdate(st, i).0;
    ErrorKept(st, i);
    p := Quotient(j.gains.kpPos * Error32(j), 1000);
    d := if j.dt > 0 then Quotient(j.gains.kdPos * (Error32(j) - Error32(i)), j.dt) else 0;
    v := Quotient(j.gains.kpSpeed * (j.ref.v - j.actV), 1000);
    a := Quotient(before.iAcc, 256);
    QuotientTruncates(j.gains.kpPos * Error32(j), 1000);
    if j.dt > 0 { QuotientTruncates(j.gains.kdPos * (Error32(j) - Error32(i)), j.dt); }
    QuotientTruncates(j.gains.kpSpeed * (j.ref.v - j.actV), 1000);
    QuotientTruncates(before.iAcc, 256);
    DutyDriven(before, j);
    hide PidUpdate, Truncated, Quotient;
  }

  lemma ErrorKept(st: Pid, i: PidInput)
    requires !PidUpdate(st, i).0.latched
    ensures PidUpdate(st, i).0.prevError == Error32(i)
  {
    hide Unsaturated, Integrated, Frozen;
  }

  lemma DutyDriven(st: Pid, i: PidInput)
    requires !st.latched && !PidUpdate(st, i).0.latched
    ensures var (next, out) := PidUpdate(st, i);
      var raw := Unsaturated(st.prevError, st.iAcc, i);
      && out.duty == Clamp(raw, i.gains.outMin, i.gains.outMax)
      && next.saturatedHigh == (raw > i.gains.outMax) && next.saturatedLow == (raw < i.gains.outMin)
  {
    hide Unsaturated, Integrated, Frozen, Clamp, PositionError;
  }

  // ---- The integrator -------------------------------------------------------------------------

  /** The output before limiting pushes past a limit, further the way the error points. */
  predicate WindsUp(st: Pid, i: PidInput) {
    var raw := Unsaturated(st.prevError, st.iAcc, i);
    (raw > i.gains.outMax && Error32(i) > 0) || (raw < i.gains.outMin && Error32(i) < 0)
  }

  /** The integrator takes in both errors over the time step, limited to full output, exactly if the
      controller is not paused, the position error is outside the dead band and the output is not wound
      up against its limit; otherwise it keeps its value. */
  lemma IntegratesExactly(st: Pid, i: PidInput) returns (p: int, v: int)
    requires !st.latched
    ensures Truncated(p, i.gains.kiPos * Error32(i) * i.dt, 1000)
    ensures Truncated(v, i.gains.kiSpeed * (i.ref.v - i.actV) * i.dt, 1000)
    ensures var sum, limit := st.iAcc + p + v, i.gains.outMax * 256;
      PidUpdate(st, i).0.iAcc ==
        if st.paused || Abs(Error32(i)) <= i.gains.deadband || WindsUp(st, i) then st.iAcc
        else if limit >= 0 && sum > limit then limit
        else if limit >= 0 && sum < -limit then -limit
        else if limit >= 0 then sum
        else -limit
  {
    p := Quotient(i.gains.kiPos * Error32(i) * i.dt, 1000);
    v := Quotient(i.gains.kiSpeed * (i.ref.v - i.actV) * i.dt, 1000);
    QuotientTruncates(i.gains.kiPos * Error32(i) * i.dt, 1000);
    QuotientTruncates(i.gains.kiSpeed * (i.ref.v - i.actV) * i.dt, 1000);
    IntegratorNext(st, i);
    hide PidUpdate, Truncated, Quotient, Unsaturated;
  }

  lemma IntegratorNext(st: Pid, i: PidInput)
    requires !st.latched
    ensures var raw, error := Unsaturated(st.prevError, st.iAcc, i), PositionError(i);
      PidUpdate(st, i).0.iAcc ==
        if Frozen(st.paused, i.gains, error, raw > i.gains.outMax, raw < i.gains.outMin) then st.iAcc
        else Integrated(st, i, error, i.ref.v - i.actV)
  {
    hide Unsaturated, Integrated, Frozen, PositionError, Arbitrate, Clamp;
    forall q, duty ensures Arbitrate(q, i, duty).0.iAcc == q.iAcc { ArbitrateKeepsIntegrator(q, i, duty); }
  }

  // ---- The axis -------------------------------------------------------------------------------

  /** An axis in flight runs the controller against the trajectory's reference, with feed-forward in
      proportion to the reference's speed and acceleration, and reports that reference. */
  lemma AxisFeedsForward(x: Axis, now: nat, i: AxisInput) returns (fv: int, fa: int)
    requires x.active
    ensures Truncated(fv, i.ref.v, 1000) && Truncated(fa, i.ref.a, 1000)
    ensures var input := PidInput(i.ref, i.x, i.v, i.dt, i.gains, i.completion, i.kV * fv + i.kA * fa, x.onCompletion);
      var (y, out) := AxisUpdate(x, now, i);
      && y.pid == PidUpdate(x.pid, input).0 && y.active && y.onCompletion == x.onCompletion
      && out.duty == PidUpdate(x.pid, input).1.duty && out.actuation == PidUpdate(x.pid, input).1.actuation
      && out.refV == i.ref.v && out.trajectoryDone == i.ref.done && out.error == Error32(input)
  {
    fv, fa := Quotient(i.ref.v, 1000), Quotient(i.ref.a, 1000);
    QuotientTruncates(i.ref.v, 1000);
    QuotientTruncates(i.ref.a, 1000);
    hide PidUpdate, Quotient, WantsPause, SetPause;
    forall q: Axis, pause ensures SamePid(q, SetPause(q, pause, now)) { SetPauseKeepsPid(q, pause, now); }
  }

  predicate SamePid(a: Axis, b: Axis) { a.pid == b.pid && a.active == b.active && a.onCompletion == b.onCompletion }

  lemma SetPauseKeepsPid(x: Axis, pause: bool, now: nat)
    ensures SamePid(x, SetPause(x, pause, now))
  {
  }

  /** The trajectory of an axis in flight stands still after an update exactly if the output is
      saturated the way the position error points, and neither the speed error nor the reference's
      acceleration points the other way. */
  lemma PausesExactly(x: Axis, now: nat, i: AxisInput)
    requires x.active
    ensures var y := AxisUpdate(x, now, i).0;
      var ahead, faster := i.ref.x - i.x, i.ref.v - i.v;
      y.paused <==>
        && !y.pid.latched
        && ((ahead > 0 && y.pid.saturatedHigh) || (ahead < 0 && y.pid.saturatedLow))
        && !((ahead > 0 && faster < 0) || (ahead < 0 && faster > 0))
        && !((ahead > 0 && i.ref.a < 0) || (ahead < 0 && i.ref.a > 0))
  {
    hide PidUpdate, Truncate;
  }
}
