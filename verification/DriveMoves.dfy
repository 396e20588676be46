/** How a move ends: which commands bring both wheels to rest, and which leave them driven. */
module DriveMoves {
  import opened DriveControl
  import opened DriveTick

  // ---- One axis under way --------------------------------------------------------------------

  /** The axis follows a trajectory that is to end with completion `c`. */
  predicate Moving(x: Axis, c: nat) { x.active && !x.pid.latched && x.onCompletion == c }

  predicate Coasting(c: nat) { c == COAST || c == COAST_SMART }

  /** The passive action a completion comes to; HOLD when it comes to none. */
  function PassiveOf(c: nat): nat {
    if Coasting(c) then COAST else if c == BRAKE || c == BRAKE_SMART then BRAKE else HOLD
  }

  /** An axis under way holds and stays under way, or completes with its own passive action. */
  lemma MovingUpdate(x: Axis, c: nat, now: nat, i: AxisInput)
    requires Moving(x, c)
    ensures var (y, out) := AxisUpdate(x, now, i);
      || (out.actuation == HOLD && Moving(y, c))
      || (&& out.actuation == PassiveOf(c) && PassiveOf(c) != HOLD
          && y.pid.latched && y.pid.latchedActuation == PassiveOf(c))
  {
    hide PidUpdate, WantsPause, Truncate, SetPause, PassiveOf;
    var ff := i.kV * Truncate(i.ref.v, 1000) + i.kA * Truncate(i.ref.a, 1000);
    var input := PidInput(i.ref, i.x, i.v, i.dt, i.gains, i.completion, ff, c);
    MovingPid(x.pid, input);
    var pid := PidUpdate(x.pid, input).0;
    PauseKeeps(x.(pid := pid), WantsPause(pid, i.ref, i), now);
  }

  lemma PauseKeeps(x: Axis, pause: bool, now: nat)
    ensures var y := SetPause(x, pause, now); y.pid == x.pid && y.active == x.active && y.onCompletion == x.onCompletion
  {
  }

  lemma MovingPid(st: Pid, i: PidInput)
    requires !st.latched
    ensures var (next, out) := PidUpdate(st, i);
      || (out.actuation == HOLD && !next.latched)
      || (&& out.actuation == PassiveOf(i.onCompletion) && PassiveOf(i.onCompletion) != HOLD
          && next.latched && next.latchedActuation == PassiveOf(i.onCompletion))
  {
    hide Unsaturated, Integrated, Frozen, PositionError;
  }

  // ---- Ticks of a move -----------------------------------------------------------------------

  predicate Holding(b: Base, i: TickInput) { Outputs(b, i).0.actuation == HOLD && Outputs(b, i).1.actuation == HOLD }

  /** While both axes hold, a tick leaves them as their updates do. */
  lemma HoldTick(b: Base, i: TickInput)
    requires Healthy(b, i) && Propagate(Outputs(b, i).0.actuation, Outputs(b, i).1.actuation) == 0
    ensures Tick(b, i).distance == AxisUpdate(b.distance, i.now, i.distance).0
    ensures Tick(b, i).heading == AxisUpdate(b.heading, i.now, i.heading).0
  {
    ComposeKeepsAxes(Drained(b, i).(distance := AxisUpdate(b.distance, i.now, i.distance).0,
                                    heading := AxisUpdate(b.heading, i.now, i.heading).0),
                     Outputs(b, i).0, Outputs(b, i).1, i);
    hide AxisUpdate, Compose;
  }

  lemma ComposeKeepsAxes(b: Base, d: AxisOutput, h: AxisOutput, i: TickInput)
    ensures Compose(b, d, h, i).0.distance == b.distance && Compose(b, d, h, i).0.heading == b.heading
  {
    hide Breakaway, Corrected, HeldSign, Truncate;
  }

  predicate Under(b: Base, cd: nat, ch: nat) { Moving(b.distance, cd) && Moving(b.heading, ch) }

  lemma MoveStarts(b: Base, now: nat, cd: nat, ch: nat)
    ensures Under(Obey(b, Move(now, cd, ch)), cd, ch)
  {
  }

  ghost predicate AllHealthy(b: Base, ticks: seq<TickInput>) {
    forall k | 0 <= k < |ticks| :: Healthy(After(b, ticks[..k]), ticks[k])
  }

  /** Tick `n` is the first in which an axis completes passively. */
  ghost predicate FirstCompletion(b: Base, ticks: seq<TickInput>, n: nat) {
    && n < |ticks| && !Holding(After(b, ticks[..n]), ticks[n])
    && forall k | 0 <= k < n :: Holding(After(b, ticks[..k]), ticks[k])
  }

  lemma AfterNext(b: Base, ticks: seq<TickInput>, n: nat)
    requires n < |ticks|
    ensures After(b, ticks[..n + 1]) == Tick(After(b, ticks[..n]), ticks[n])
  {
    hide Tick;
    assert ticks[..n + 1][..n] == ticks[..n];
  }

  lemma {:induction false} UnderUntil(b: Base, ticks: seq<TickInput>, n: nat, cd: nat, ch: nat)
    requires Under(b, cd, ch) && n <= |ticks| && AllHealthy(b, ticks)
    requires forall k | 0 <= k < n :: Holding(After(b, ticks[..k]), ticks[k])
    ensures Under(After(b, ticks[..n]), cd, ch)
    decreases n
  {
    if n == 0 {
      assert ticks[..0] == [];
    } else {
      UnderUntil(b, ticks, n - 1, cd, ch);
      var c, i := After(b, ticks[..n - 1]), ticks[n - 1];
      assert Healthy(c, i) && Holding(c, i);
      AfterNext(b, ticks, n - 1);
      MovingUpdate(c.distance, cd, i.now, i.distance);
      MovingUpdate(c.heading, ch, i.now, i.heading);
      HoldTick(c, i);
      hide Tick, AxisUpdate, After, Healthy;
    }
  }

  // ---- What comes after ----------------------------------------------------------------------

  /** The wheels are under an active duty command. */
  predicate Driven(b: Base) { b.left.actuation == HOLD && b.right.actuation == HOLD }

  predicate CoastLatched(x: Axis) { x.pid.latched && x.pid.latchedActuation == COAST }

  /** From a base with an axis latched in COAST no tick ever makes the wheels passive. */
  lemma CoastKeepsDriving(b: Base, i: TickInput)
    requires GoodBase(b) && Healthy(b, i) && (Outputs(b, i).0.actuation == COAST || Outputs(b, i).1.actuation == COAST)
    ensures Driven(Tick(b, i)) && GoodBase(Tick(b, i))
    ensures CoastLatched(AxisUpdate(b.distance, i.now, i.distance).0) ==> CoastLatched(Tick(b, i).distance)
    ensures CoastLatched(AxisUpdate(b.heading, i.now, i.heading).0) ==> CoastLatched(Tick(b, i).heading)
  {
    PassiveExactly(b, i);
    HoldTick(b, i);
    hide Tick, AxisUpdate;
  }

  lemma LatchedReports(x: Axis, now: nat, i: AxisInput)
    requires GoodAxis(x) && CoastLatched(x)
    ensures AxisUpdate(x, now, i).1.actuation == COAST && CoastLatched(AxisUpdate(x, now, i).0)
  {
    AxisReports(x, now, i);
    hide AxisUpdate;
  }

  lemma CoastStep(b: Base, i: TickInput)
    requires GoodBase(b) && Healthy(b, i) && (CoastLatched(b.distance) || CoastLatched(b.heading))
    ensures var c := Tick(b, i); Driven(c) && GoodBase(c) && (CoastLatched(c.distance) || CoastLatched(c.heading))
  {
    hide Tick, AxisUpdate, Healthy;
    if CoastLatched(b.distance) { LatchedReports(b.distance, i.now, i.distance); }
    if CoastLatched(b.heading) { LatchedReports(b.heading, i.now, i.heading); }
    CoastKeepsDriving(b, i);
  }

  /** The completing tick itself. */
  lemma CompletingTick(b: Base, i: TickInput, cd: nat, ch: nat)
    requires Under(b, cd, ch) && Healthy(b, i) && !Holding(b, i)
    ensures var (d, h) := Outputs(b, i);
      var c := Tick(b, i);
      if (d.actuation != HOLD && Coasting(cd)) || (h.actuation != HOLD && Coasting(ch)) then
        Driven(c) && GoodBase(c) && (CoastLatched(c.distance) || CoastLatched(c.heading))
      else BothPassive(c, BRAKE)
  {
    MovingUpdate(b.distance, cd, i.now, i.distance);
    MovingUpdate(b.heading, ch, i.now, i.heading);
    var (d, h) := Outputs(b, i);
    hide Tick, AxisUpdate, Healthy;
    if d.actuation == COAST || h.actuation == COAST {
      CoastKeepsDriving(b, i);
    } else {
      PassiveExactly(b, i);
    }
  }

  lemma PassiveIsStopped(b: Base)
    requires BothPassive(b, BRAKE)
    ensures BrakeStopped(b.distance) && BrakeStopped(b.heading)
  {
  }

  /** An axis that completes in the first completing tick was told to coast. */
  ghost predicate CoastCompletes(b: Base, ticks: seq<TickInput>, n: nat, cd: nat, ch: nat)
    requires n < |ticks|
  {
    var (d, h) := Outputs(After(b, ticks[..n]), ticks[n]);
    (d.actuation != HOLD && Coasting(cd)) || (h.actuation != HOLD && Coasting(ch))
  }

  /** What holds from the first completion on. */
  ghost predicate Ended(b: Base, coast: bool) {
    if coast then Driven(b) && GoodBase(b) && (CoastLatched(b.distance) || CoastLatched(b.heading))
    else BothPassive(b, BRAKE)
  }

  lemma EndedStep(b: Base, i: TickInput, coast: bool)
    requires Ended(b, coast) && Healthy(b, i)
    ensures Ended(Tick(b, i), coast)
  {
    hide Tick, Healthy;
    if coast {
      CoastStep(b, i);
    } else {
      PassiveIsStopped(b);
      BrakeRepeats(b, i);
    }
  }

  /** After a move command and any number of ticks without fault, the first passive completion decides
      for all later ticks: both wheels are braked and both axes latched, for good, if and only if no
      axis that completes in that tick was told to coast; otherwise the wheels are driven in every
      later tick. */
  lemma {:induction false} FirstCompletionDecides(b: Base, ticks: seq<TickInput>, n: nat, m: nat, cd: nat, ch: nat)
    requires Under(b, cd, ch) && AllHealthy(b, ticks) && FirstCompletion(b, ticks, n) && n < m <= |ticks|
    ensures Ended(After(b, ticks[..m]), CoastCompletes(b, ticks, n, cd, ch))
    decreases m
  {
    hide Tick, Outputs, After, Healthy, Ended;
    var c, i := After(b, ticks[..m - 1]), ticks[m - 1];
    assert Healthy(c, i);
    AfterNext(b, ticks, m - 1);
    if m == n + 1 {
      UnderUntil(b, ticks, n, cd, ch);
      CompletingTick(c, i, cd, ch);
      EndedIs(Tick(c, i), CoastCompletes(b, ticks, n, cd, ch));
    } else {
      FirstCompletionDecides(b, ticks, n, m - 1, cd, ch);
      EndedStep(c, i, CoastCompletes(b, ticks, n, cd, ch));
    }
  }

  lemma EndedIs(b: Base, coast: bool)
    requires if coast then Driven(b) && GoodBase(b) && (CoastLatched(b.distance) || CoastLatched(b.heading))
      else BothPassive(b, BRAKE)
    ensures Ended(b, coast)
  {
  }

  /** For the commands of the drivebase, which give each axis either the requested completion or HOLD
      (a straight, a turn or a curve): however the axes run, once one completes, both wheels come to
      rest for good if and only if the requested completion is not COAST or COAST_SMART. */
  lemma MoveEndsAtRestExactly(b: Base, now: nat, requested: nat, cd: nat, ch: nat, ticks: seq<TickInput>, n: nat,
                              m: nat)
    requires (cd == requested || cd == HOLD) && (ch == requested || ch == HOLD)
    requires var started := Obey(b, Move(now, cd, ch)); AllHealthy(started, ticks) && FirstCompletion(started, ticks, n)
    requires n < m <= |ticks|
    ensures var c := After(Obey(b, Move(now, cd, ch)), ticks[..m]);
      && (BothPassive(c, BRAKE) <==> !Coasting(requested))
      && (Driven(c) <==> Coasting(requested))
  {
    var started := Obey(b, Move(now, cd, ch));
    MoveStarts(b, now, cd, ch);
    FirstCompletionDecides(started, ticks, n, m, cd, ch);
    UnderUntil(started, ticks, n, cd, ch);
    CompletesAsTold(After(started, ticks[..n]), ticks[n], cd, ch);
    hide Tick, AxisUpdate, After, Obey, Under;
  }

  lemma CompletesAsTold(b: Base, i: TickInput, cd: nat, ch: nat)
    requires Under(b, cd, ch)
    ensures Outputs(b, i).0.actuation == HOLD || Outputs(b, i).0.actuation == PassiveOf(cd) != HOLD
    ensures Outputs(b, i).1.actuation == HOLD || Outputs(b, i).1.actuation == PassiveOf(ch) != HOLD
  {
    MovingUpdate(b.distance, cd, i.now, i.distance);
    MovingUpdate(b.heading, ch, i.now, i.heading);
    hide AxisUpdate;
  }

  // ---- A run against the documented propagation --------------------------------------------------

  const AT_REST := Wheel(0, COAST, false)
  const NO_FRICTION := FrictionState(0, false, 0)
  const INITIAL_BASE := Base(INITIAL_AXIS, INITIAL_AXIS, AT_REST, AT_REST, NO_FRICTION, NO_FRICTION)

  const GAINS := Gains(1000, 0, 0, 0, 0, 0, -FULL, FULL)
  const COMPLETION := Completion(10, 10, 1, 1)

  /** A distance axis at its target, a heading axis 1000 off. */
  const ARRIVED := AxisInput(Ref(0, 0, 0, true), 0, 0, 2, GAINS, COMPLETION, 0, 0)
  const TURNED := AxisInput(Ref(1000, 0, 0, true), 0, 0, 2, GAINS, COMPLETION, 0, 0)

  lemma ArrivedLatches()
    ensures var (y, out) := AxisUpdate(DriveFinite(INITIAL_AXIS, 0, COAST), 1, ARRIVED);
      out == AxisOutput(0, 0, COAST, true, true, 0) && CoastLatched(y)
  {
  }

  lemma TurnedHolds()
    ensures var (y, out) := AxisUpdate(DriveFinite(INITIAL_AXIS, 0, HOLD), 1, TURNED);
      out == AxisOutput(1000, 0, HOLD, false, true, 1000) && !y.pid.latched
  {
  }

  /** From the initial state, a straight with COAST and one tick: the distance axis completes and is
      latched in COAST, the heading axis is not stopped, and the wheels are driven against each other. */
  lemma CoastDoesNotPropagate() returns (i: TickInput)
    ensures var b := Obey(INITIAL_BASE, Move(0, COAST, HOLD));
      && Healthy(b, i) && Outputs(b, i).0.actuation == COAST && Outputs(b, i).1.actuation == HOLD
      && Tick(b, i).left.duty == -1000 && Tick(b, i).right.duty == 1000
      && CoastLatched(Tick(b, i).distance) && !Tick(b, i).heading.pid.latched
  {
    i := TickInput(1, false, false, ARRIVED, TURNED, Friction(0, 1, 1, 0), 1, 1, 1, true, true, true, true);
    ArrivedLatches();
    TurnedHolds();
    hide AxisUpdate;
  }
}
