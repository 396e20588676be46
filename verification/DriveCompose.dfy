/** What each wheel is driven with: the two axes' duties composed for its side, the friction bias and
    the breakaway push along its own reference speed and error, and the battery's correction. */
module DriveCompose {
  import opened DriveAngle
  import opened DriveControl
  import opened DriveTick

  /** `r` is `x / q` truncated toward zero. */
  predicate Truncated(r: int, x: int, q: int) {
    if x >= 0 then 0 <= x - r * q < q else 0 <= r * q - x < q
  }

  /** The same, limited to full duty. */
  predicate Limited(r: int, x: int, q: int) {
    if x >= 10000 * q then r == 10000 else if x <= -10000 * q then r == -10000 else Truncated(r, x, q)
  }

  lemma QuotientTruncates(x: int, q: int)
    requires q > 0
    ensures Truncated(Quotient(x, q), x, q)
  {
  }

  lemma LimitedQuotient(x: int, q: int)
    requires q > 0
    ensures Limited(Clamp(Quotient(x, q), -FULL, FULL), x, q)
  {
    QuotientTruncates(x, q);
    var r := Quotient(x, q);
    hide Quotient;
    if x >= 10000 * q {
      AtLeast(r, x, q, 10000);
    } else if x <= -10000 * q {
      AtLeast(-r, -x, q, 10000);
    } else if x >= 0 {
      AtMost(r, x, q, 10000);
    } else {
      AtMost(-r, -x, q, 10000);
    }
  }

  lemma AtLeast(r: int, x: int, q: int, n: int)
    requires q > 0 && x >= n * q && x - r * q < q
    ensures r >= n
  {
    if r < n {
      assert (r + 1) * q == r * q + q;
      if r + 1 < n {
        Scaled(r + 1, n, q);
      }
    }
  }

  lemma AtMost(r: int, x: int, q: int, n: int)
    requires q > 0 && x < n * q && r * q <= x
    ensures r < n
  {
    if r > n {
      Scaled(n, r, q);
    }
  }

  // ---- Friction -------------------------------------------------------------------------------

  /** The sign held after a sequence of reference speeds. */
  function SignAfter(prev: int, speeds: seq<int>, f: Friction): int {
    if speeds == [] then prev
    else HeldSign(speeds[|speeds| - 1], SignAfter(prev, speeds[..|speeds| - 1], f), f)
  }

  /** At this speed a wheel that is going `way` keeps its sign. */
  predicate Keeps(way: int, v: int, f: Friction) {
    v * way >= f.enter || (v * way > -f.enter && Abs(v) >= f.exit)
  }

  /** From tick `k` on the wheel has been going `way` (1 or -1): it entered then, and has neither slowed
      below the exit speed since, unless still above the entry speed, nor entered the other way. */
  predicate GoingSince(way: int, speeds: seq<int>, f: Friction, k: nat) {
    && k < |speeds| && speeds[k] * way >= f.enter
    && forall j | k <= j < |speeds| :: Keeps(way, speeds[j], f)
  }

  lemma GoingStep(way: int, speeds: seq<int>, f: Friction, k: nat)
    requires (way == 1 || way == -1) && speeds != [] && k < |speeds| - 1
    ensures var last, front := speeds[|speeds| - 1], speeds[..|speeds| - 1];
      GoingSince(way, speeds, f, k) <==> GoingSince(way, front, f, k) && Keeps(way, last, f)
  {
    var front := speeds[..|speeds| - 1];
    assert forall j | 0 <= j < |front| :: front[j] == speeds[j];
  }

  /** Hysteresis, for any speeds from rest: the friction sign is that of the last entry above the entry
      speed, kept until the wheel slows below the exit speed or enters the other way. */
  lemma {:induction false} SignHeldExactly(way: int, speeds: seq<int>, f: Friction)
    requires (way == 1 || way == -1) && f.enter > 0
    ensures SignAfter(0, speeds, f) == way <==> exists k :: GoingSince(way, speeds, f, k)
    ensures -1 <= SignAfter(0, speeds, f) <= 1
  {
    if speeds != [] {
      var n := |speeds| - 1;
      var last, front := speeds[n], speeds[..n];
      SignHeldExactly(way, front, f);
      forall k: nat | k < n
        ensures GoingSince(way, speeds, f, k) <==> GoingSince(way, front, f, k) && Keeps(way, last, f)
      {
        GoingStep(way, speeds, f, k);
      }
      assert GoingSince(way, speeds, f, n) <==> last * way >= f.enter;
      hide SignAfter, GoingSince;
      assert SignAfter(0, speeds, f) == HeldSign(last, SignAfter(0, front, f), f) by { SignNext(speeds, f); }
    }
  }

  lemma SignNext(speeds: seq<int>, f: Friction)
    requires speeds != []
    ensures SignAfter(0, speeds, f) == HeldSign(speeds[|speeds| - 1], SignAfter(0, speeds[..|speeds| - 1], f), f)
  {
  }

  // ---- Breakaway ------------------------------------------------------------------------------

  /** Which way the wheel still has to go, 0 inside the dead band. */
  function Toward(error: int): int { if error > 3000 then 1 else if error < -3000 then -1 else 0 }

  /** A finished move pushes a trapped wheel: it has somewhere to go, this episode has not pushed it the
      other way or ended, and its duty points that way, or is zero, and is below the floor. */
  predicate Pushes(st: FrictionState, f: Friction, duty: int, error: int, done: bool) {
    && done && f.breakaway != 0 && !st.consumed && Toward(error) != 0
    && (st.breakawaySign == 0 || st.breakawaySign == Toward(error))
    && 0 <= duty * Toward(error) < f.breakaway
  }

  /** The error has left the way this move has pushed the wheel. */
  predicate EpisodeOver(st: FrictionState, f: Friction, error: int) {
    f.breakaway != 0 && st.breakawaySign != 0 && Toward(error) != st.breakawaySign
  }

  lemma BreakawayExactly(st: FrictionState, f: Friction, duty: int, error: int, done: bool)
    requires f.breakaway >= 0
    ensures Breakaway(st, f, duty, error, done).1 ==
      if Pushes(st, f, duty, error, done) then Toward(error) * f.breakaway else duty
    ensures var next := Breakaway(st, f, duty, error, done).0;
      && next.sign == st.sign
      && next.breakawaySign == (if Pushes(st, f, duty, error, done) then Toward(error) else st.breakawaySign)
      && next.consumed == (st.consumed || (done && EpisodeOver(st, f, error)))
  {
  }

  // ---- A tick ---------------------------------------------------------------------------------

  /** What a wheel whose axes' duties compose to `axes` is driven with. */
  predicate Drives(duty: int, axes: int, speed: int, error: int, st: FrictionState, done: bool, i: TickInput) {
    var f := i.friction;
    var volts := if i.battery < i.batteryMin then i.batteryMin as int else i.battery;
    var command := axes + HeldSign(speed, st.sign, f) * Quotient(f.kS, 2);
    var episode := if done then st else st.(consumed := false, breakawaySign := 0);
    var wanted := if Pushes(episode, f, command, error, done) then Toward(error) * f.breakaway else command;
    var limited := if wanted < -10000 then -10000 else if wanted > 10000 then 10000 else wanted;
    volts > 0 ==> Limited(duty, limited * i.nominal, volts)
  }

  /** What the wheel remembers: the sign of its friction, which way this move has pushed it, and that the
      episode is over once the error has left that way. */
  predicate Remembers(next: FrictionState, axes: int, speed: int, error: int, st: FrictionState, done: bool,
                      f: Friction) {
    var command := axes + HeldSign(speed, st.sign, f) * Quotient(f.kS, 2);
    var episode := if done then st else st.(consumed := false, breakawaySign := 0);
    && next.sign == HeldSign(speed, st.sign, f)
    && next.breakawaySign == (if Pushes(episode, f, command, error, done) then Toward(error) else episode.breakawaySign)
    && next.consumed == (episode.consumed || (done && EpisodeOver(episode, f, error)))
  }

  lemma CorrectedIsLimited(pre: int, i: TickInput)
    ensures var volts := if i.battery < i.batteryMin then i.batteryMin as int else i.battery;
      var limited := if pre < -10000 then -10000 else if pre > 10000 then 10000 else pre;
      volts > 0 ==> Limited(Corrected(pre, i), limited * i.nominal, volts)
  {
    var volts := if i.battery < i.batteryMin then i.batteryMin as int else i.battery;
    if volts > 0 { LimitedQuotient(Clamp(pre, -FULL, FULL) * i.nominal, volts); }
    hide Quotient, Limited;
  }

  /** What the composition does for one side. */
  function SideOf(axes: int, speed: int, error: int, st: FrictionState, done: bool, i: TickInput): (FrictionState, int)
  {
    var sign := HeldSign(speed, st.sign, i.friction);
    var episode := if done then st.(sign := sign) else FrictionState(sign, false, 0);
    var (next, pushed) := Breakaway(episode, i.friction, axes + sign * Truncate(i.friction.kS, 2), error, done);
    (next, Corrected(pushed, i))
  }

  lemma SideDrives(axes: int, speed: int, error: int, st: FrictionState, done: bool, i: TickInput)
    requires i.friction.breakaway >= 0
    ensures var (next, duty) := SideOf(axes, speed, error, st, done, i);
      && Drives(duty, axes, speed, error, st, done, i)
      && Remembers(next, axes, speed, error, st, done, i.friction)
  {
    var sign := HeldSign(speed, st.sign, i.friction);
    var episode := if done then st.(sign := sign) else FrictionState(sign, false, 0);
    var command := axes + sign * Truncate(i.friction.kS, 2);
    BreakawayExactly(episode, i.friction, command, error, done);
    CorrectedIsLimited(Breakaway(episode, i.friction, command, error, done).1, i);
    hide HeldSign, Breakaway, Corrected, Quotient, Limited;
  }

  predicate RemembersBoth(c: Base, b: Base, d: AxisOutput, h: AxisOutput, f: Friction) {
    var done := d.trajectoryDone && h.trajectoryDone;
    && Remembers(c.frictionLeft, d.duty - h.duty, d.refV - h.refV, d.error - h.error, b.frictionLeft, done, f)
    && Remembers(c.frictionRight, d.duty + h.duty, d.refV + h.refV, d.error + h.error, b.frictionRight, done, f)
  }

  lemma ComposeDrives(b: Base, d: AxisOutput, h: AxisOutput, i: TickInput)
    requires i.friction.breakaway >= 0
    ensures var (c, left, right) := Compose(b, d, h, i);
      var done := d.trajectoryDone && h.trajectoryDone;
      && Drives(left, d.duty - h.duty, d.refV - h.refV, d.error - h.error, b.frictionLeft, done, i)
      && Drives(right, d.duty + h.duty, d.refV + h.refV, d.error + h.error, b.frictionRight, done, i)
      && RemembersBoth(c, b, d, h, i.friction)
      && c.left == b.left && c.right == b.right && c.distance == b.distance && c.heading == b.heading
  {
    hide *;
    var done := d.trajectoryDone && h.trajectoryDone;
    SideDrives(d.duty - h.duty, d.refV - h.refV, d.error - h.error, b.frictionLeft, done, i);
    SideDrives(d.duty + h.duty, d.refV + h.refV, d.error + h.error, b.frictionRight, done, i);
    ComposeSides(b, d, h, i);
    var c := Compose(b, d, h, i).0;
    assert RemembersBoth(c, b, d, h, i.friction) by {
      BothRemember(c, b, d, h, i.friction);
    }
  }

  /** The composition treats each side by itself. */
  lemma ComposeSides(b: Base, d: AxisOutput, h: AxisOutput, i: TickInput)
    ensures var (c, left, right) := Compose(b, d, h, i);
      var done := d.trajectoryDone && h.trajectoryDone;
      && (c.frictionLeft, left) ==
           SideOf(d.duty - h.duty, d.refV - h.refV, d.error - h.error, b.frictionLeft, done, i)
      && (c.frictionRight, right) ==
           SideOf(d.duty + h.duty, d.refV + h.refV, d.error + h.error, b.frictionRight, done, i)
      && c.left == b.left && c.right == b.right && c.distance == b.distance && c.heading == b.heading
  {
    hide HeldSign, Breakaway, Corrected, Truncate;
  }

  lemma BothRemember(c: Base, b: Base, d: AxisOutput, h: AxisOutput, f: Friction)
    requires var done := d.trajectoryDone && h.trajectoryDone;
      && Remembers(c.frictionLeft, d.duty - h.duty, d.refV - h.refV, d.error - h.error, b.frictionLeft, done, f)
      && Remembers(c.frictionRight, d.duty + h.duty, d.refV + h.refV, d.error + h.error, b.frictionRight, done, f)
    ensures RemembersBoth(c, b, d, h, f)
  {
    hide Remembers;
  }

  lemma DrivenWithinRails(duty: int, axes: int, speed: int, error: int, st: FrictionState, done: bool, i: TickInput)
    requires Drives(duty, axes, speed, error, st, done, i)
    requires (if i.battery < i.batteryMin then i.batteryMin as int else i.battery) > 0
    ensures -10000 <= duty <= 10000
  {
    hide HeldSign, Pushes, Quotient;
    var volts := if i.battery < i.batteryMin then i.batteryMin as int else i.battery;
    var x :| Limited(duty, x, volts);
    LimitedWithinRails(duty, x, volts);
  }

  lemma LimitedWithinRails(r: int, x: int, q: int)
    requires q > 0 && Limited(r, x, q)
    ensures -10000 <= r <= 10000
  {
    if -10000 * q < x < 10000 * q {
      if x >= 0 {
        AtMost(r, x, q, 10000);
        assert (r + 1) * q > 0;
      } else {
        AtMost(-r, -x, q, 10000);
        assert (1 - r) * q > 0;
      }
    }
  }

  /** In every tick without fault in which the axes do not brake: the left wheel is driven with the
      distance duty less the heading duty, the right wheel with their sum, each with half the friction
      duty along its own reference speed (difference and sum), raised to the breakaway duty only along
      its own error, limited, scaled by nominal over battery voltage, and limited again; and each wheel
      remembers its friction sign and its breakaway episode. */
  lemma TickDrives(b: Base, i: TickInput)
    requires Healthy(b, i) && i.friction.breakaway >= 0
    requires (if i.battery < i.batteryMin then i.batteryMin as int else i.battery) > 0
    requires var (d, h) := Outputs(b, i);
      (d.actuation != 1 && h.actuation != 1) || d.actuation == 0 || h.actuation == 0
    ensures var (d, h) := Outputs(b, i);
      var c, done := Tick(b, i), d.trajectoryDone && h.trajectoryDone;
      && Drives(c.left.duty, d.duty - h.duty, d.refV - h.refV, d.error - h.error, b.frictionLeft, done, i)
      && Drives(c.right.duty, d.duty + h.duty, d.refV + h.refV, d.error + h.error, b.frictionRight, done, i)
      && c.left.actuation == 2 && c.right.actuation == 2 && RemembersBoth(c, b, d, h, i.friction)
  {
    var e := AfterAxes(b, i);
    TickActs(b, i);
    ActDrives(e, Outputs(b, i).0, Outputs(b, i).1, i);
    hide Tick, Act, Drives, Outputs, AfterAxes, Remembers;
  }

  /** The drivebase once both axes have been updated. */
  function AfterAxes(b: Base, i: TickInput): Base {
    Drained(b, i).(distance := AxisUpdate(b.distance, i.now, i.distance).0,
                   heading := AxisUpdate(b.heading, i.now, i.heading).0)
  }

  lemma TickActs(b: Base, i: TickInput)
    ensures Tick(b, i) == Act(AfterAxes(b, i), Outputs(b, i).0, Outputs(b, i).1, i)
    ensures AfterAxes(b, i).frictionLeft == b.frictionLeft && AfterAxes(b, i).frictionRight == b.frictionRight
    ensures Pending(AfterAxes(b, i)) <==> Pending(Drained(b, i))
  {
    hide AxisUpdate, Act;
  }

  lemma ActDrives(b: Base, d: AxisOutput, h: AxisOutput, i: TickInput)
    requires !Pending(b) && i.acceptLeft && i.acceptRight && i.friction.breakaway >= 0
    requires (if i.battery < i.batteryMin then i.batteryMin as int else i.battery) > 0
    requires (d.actuation != 1 && h.actuation != 1) || d.actuation == 0 || h.actuation == 0
    ensures var c, done := Act(b, d, h, i), d.trajectoryDone && h.trajectoryDone;
      && Drives(c.left.duty, d.duty - h.duty, d.refV - h.refV, d.error - h.error, b.frictionLeft, done, i)
      && Drives(c.right.duty, d.duty + h.duty, d.refV + h.refV, d.error + h.error, b.frictionRight, done, i)
      && c.left.actuation == 2 && c.right.actuation == 2 && RemembersBoth(c, b, d, h, i.friction)
  {
    var done := d.trajectoryDone && h.trajectoryDone;
    ComposeDrives(b, d, h, i);
    var (_, left, right) := Compose(b, d, h, i);
    DrivenWithinRails(left, d.duty - h.duty, d.refV - h.refV, d.error - h.error, b.frictionLeft, done, i);
    DrivenWithinRails(right, d.duty + h.duty, d.refV + h.refV, d.error + h.error, b.frictionRight, done, i);
    hide Compose, Drives, StopAxis, RemembersBoth;
  }

  /** The plain case: without friction compensation and at nominal voltage a straight drives both wheels
      alike, a turn drives them against each other, and a curve does both. */
  lemma SumAndDifference(b: Base, i: TickInput)
    requires Healthy(b, i) && i.friction.kS == 0 && i.friction.breakaway == 0
    requires i.nominal == i.battery >= i.batteryMin && i.battery > 0
    requires var (d, h) := Outputs(b, i);
      (d.actuation != 1 && h.actuation != 1) || d.actuation == 0 || h.actuation == 0
    ensures var (d, h) := Outputs(b, i);
      var left, right := d.duty - h.duty, d.duty + h.duty;
      && Tick(b, i).left.duty == (if left < -10000 then -10000 else if left > 10000 then 10000 else left)
      && Tick(b, i).right.duty == (if right < -10000 then -10000 else if right > 10000 then 10000 else right)
  {
    TickDrives(b, i);
    var (d, h) := Outputs(b, i);
    var done := d.trajectoryDone && h.trajectoryDone;
    PlainDrive(Tick(b, i).left.duty, d.duty - h.duty, d.refV - h.refV, d.error - h.error, b.frictionLeft, done, i);
    PlainDrive(Tick(b, i).right.duty, d.duty + h.duty, d.refV + h.refV, d.error + h.error, b.frictionRight, done, i);
    hide Tick, Outputs, Drives, RemembersBoth;
  }

  lemma PlainDrive(duty: int, axes: int, speed: int, error: int, st: FrictionState, done: bool, i: TickInput)
    requires Drives(duty, axes, speed, error, st, done, i) && i.friction.kS == 0 && i.friction.breakaway == 0
    requires i.nominal == i.battery >= i.batteryMin && i.battery > 0
    ensures duty == if axes < -10000 then -10000 else if axes > 10000 then 10000 else axes
  {
    hide HeldSign, Limited;
    var limited := if axes < -10000 then -10000 else if axes > 10000 then 10000 else axes;
    assert Limited(duty, limited * i.nominal, i.battery);
    LimitedExact(duty, limited, i.battery);
  }

  lemma LimitedExact(r: int, n: int, q: int)
    requires q > 0 && -10000 <= n <= 10000 && Limited(r, n * q, q)
    ensures r == n
  {
    if -10000 < n < 10000 {
      Scaled(-10000, n, q);
      Scaled(n, 10000, q);
      if n >= 0 {
        Scaled(-1, n, q);
        Zero(n - r, q);
      } else {
        Scaled(n, 0, q);
        Zero(r - n, q);
      }
    }
  }

  lemma Scaled(m: int, n: int, q: int)
    requires q > 0 && m < n
    ensures m * q < n * q
  {
    assert 0 < (n - m) * q == n * q - m * q;
  }

  lemma Zero(d: int, q: int)
    requires q > 0 && 0 <= d * q < q
    ensures d == 0
  {
  }
}
