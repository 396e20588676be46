/** What commands leave behind, and how port faults are recorded. */
module DriveCommands {
  import opened DriveAngle
  import opened DriveControl
  import opened DriveTick
  import opened DriveFreeze

  // ---- Commands -------------------------------------------------------------------------------

  /** The axis has just been armed: a new trajectory, a controller without history, an unpaused clock. */
  predicate Armed(x: Axis, now: nat, infinite: bool, onCompletion: nat) {
    && x.active && x.infinite == infinite && x.begin == now && x.onCompletion == onCompletion
    && !x.paused && x.pauseTotal == 0
    && !x.pid.latched && !x.pid.paused && !x.pid.done && x.pid.iAcc == 0 && x.pid.prevError == 0
    && x.pid.doneStreak == 0 && !x.pid.smartActive && !x.pid.smartExpired
    && !x.pid.saturatedHigh && !x.pid.saturatedLow
  }

  /** The axis is off for good, in this passive action. */
  predicate Off(x: Axis, action: nat) {
    !x.active && !x.paused && x.pid.latched && x.pid.latchedActuation == action && x.pid.done
  }

  predicate SameWheels(a: Base, b: Base) {
    a.left == b.left && a.right == b.right && a.frictionLeft == b.frictionLeft && a.frictionRight == b.frictionRight
  }

  /** A passive stop request at once leaves both wheels undriven, and a port that refuses it wants a reclaim. */
  predicate Released(a: Base, b: Base, action: nat, okLeft: bool, okRight: bool) {
    && b.left == Wheel(0, action, a.left.reclaim || !okLeft) && b.right == Wheel(0, action, a.right.reclaim || !okRight)
    && b.frictionLeft == a.frictionLeft && b.frictionRight == a.frictionRight
  }

  /** What each command leaves: a move arms both axes with the completions it names; an endless drive arms
      both with COAST, or retargets axes that already drive on; a stop with COAST or BRAKE, SMART or not,
      turns both axes off and releases the wheels, any other stop holds; a change of the gyro mode forgets
      the heading alone. */
  predicate Obeyed(b: Base, c: Command, o: Base) {
    match c
    case Move(now, distance, heading) =>
      Armed(o.distance, now, false, distance) && Armed(o.heading, now, false, heading) && SameWheels(b, o)
    case Forever(now) =>
      && (if b.distance.active && b.distance.infinite then o.distance == b.distance.(onCompletion := 0)
          else Armed(o.distance, now, true, 0))
      && (if b.heading.active && b.heading.infinite then o.heading == b.heading.(onCompletion := 0)
          else Armed(o.heading, now, true, 0))
      && SameWheels(b, o)
    case Stop(now, onCompletion, okLeft, okRight) =>
      if onCompletion == 0 || onCompletion == 4 then
        Off(o.distance, 0) && Off(o.heading, 0) && Released(b, o, 0, okLeft, okRight)
      else if onCompletion == 1 || onCompletion == 5 then
        Off(o.distance, 1) && Off(o.heading, 1) && Released(b, o, 1, okLeft, okRight)
      else Armed(o.distance, now, false, 2) && Armed(o.heading, now, false, 2) && SameWheels(b, o)
    case GyroModeChanged =>
      o.distance == b.distance && SameWheels(b, o) && !o.heading.active && !o.heading.pid.latched
      && !o.heading.paused && o.heading.pid.iAcc == 0
  }

  /** For every command and every drivebase state. */
  lemma ObeyExactly(b: Base, c: Command)
    ensures Obeyed(b, c, Obey(b, c))
  {
  }

  /** In every run of the daemon a dispatched command takes effect at once. */
  lemma DispatchedIsObeyed(states: seq<State>, steps: seq<Step>, atomic: bool, n: nat)
    requires Run(states, steps, atomic) && n < |steps| && steps[n].Dispatch?
    ensures Obeyed(states[n].base, steps[n].command, states[n + 1].base)
  {
    ObeyExactly(states[n].base, steps[n].command);
    hide Tick, Obey, ResetBase, Obeyed;
  }

  // ---- Faults ---------------------------------------------------------------------------------

  /** For every tick: a side awaits reclaim afterwards exactly if it did before, its encoder was found
      lost, its port refused the tick's request, or, where a refused duty makes both wheels coast at once,
      refused that too. */
  lemma FaultsRecordedExactly(b: Base, i: TickInput)
    ensures var c := Tick(b, i);
      var (d, h) := Outputs(b, i);
      var found := b.left.reclaim || b.right.reclaim || i.lostLeft || i.lostRight;
      var driven := (d.actuation != 1 && h.actuation != 1) || d.actuation == 0 || h.actuation == 0;
      var again := !found && driven && (!i.acceptLeft || !i.acceptRight);
      && (c.left.reclaim <==> b.left.reclaim || i.lostLeft || !i.acceptLeft || (again && !i.acceptLeftAgain))
      && (c.right.reclaim <==> b.right.reclaim || i.lostRight || !i.acceptRight || (again && !i.acceptRightAgain))
  {
    ComposeKeepsWheels(Drained(b, i).(distance := AxisUpdate(b.distance, i.now, i.distance).0,
                                      heading := AxisUpdate(b.heading, i.now, i.heading).0),
                       Outputs(b, i).0, Outputs(b, i).1, i);
    hide AxisUpdate, Compose, StopAxis;
  }

  lemma ComposeKeepsWheels(b: Base, d: AxisOutput, h: AxisOutput, i: TickInput)
    ensures Compose(b, d, h, i).0.left == b.left && Compose(b, d, h, i).0.right == b.right
  {
    hide Breakaway, Corrected, HeldSign, Truncate;
  }
}
