/** The freeze handshake between the real-time tick and the recovery thread
    (apps/drivebase/drivebase_daemon.c), as a state machine over single atomic accesses. */
module DriveFreeze {
  import opened DriveControl
  import opened DriveTick

  const ACK_POLLS: nat := 12

  /** Where the real-time thread is. `Acknowledging` exists only when the gate's read and its
      acknowledgement are taken as two separate accesses. */
  datatype Realtime = Outside | Acknowledging | Body

  /** Where the recovery thread is; `requested` are the bits it read, `side` the next one to reclaim. */
  datatype Recovery =
    | Idle
    | Cleared
    | Waiting(polls: nat)
    | Exclusive(requested: (bool, bool), side: nat)
    | Releasing

  datatype State = State(rt: Realtime, daemon: Recovery, frozen: bool, idle: bool, running: bool, base: Base)

  datatype Step =
    // The real-time thread
    | Gate
    | GateRead
    | GateAck
    | Dispatch(command: Command)
    | Update(input: TickInput)
    | WatchdogCoast(okLeft: bool, okRight: bool)
    | LeaveBody
    // The recovery thread
    | Begin
    | Freeze
    | PollAck
    | GiveUp
    | ReclaimSide(ok: bool)
    | Finish(lostLeft: bool, lostRight: bool)
    | Release
    // A stop request
    | StopRequest

  /** `atomic` takes the gate as one step, as the threads' priorities make it. */
  predicate Enabled(s: State, step: Step, atomic: bool) {
    match step
    case Gate => atomic && s.rt == Outside
    case GateRead => !atomic && s.rt == Outside
    case GateAck => s.rt == Acknowledging
    case Dispatch(_) => s.rt == Body
    case Update(_) => s.rt == Body
    case WatchdogCoast(_, _) => s.rt == Body
    case LeaveBody => s.rt == Body
    case Begin => s.daemon == Idle && Pending(s.base)
    case Freeze => s.daemon == Cleared
    case PollAck => s.daemon.Waiting? && s.daemon.polls < ACK_POLLS && s.running
    case GiveUp => s.daemon.Waiting? && (s.daemon.polls == ACK_POLLS || !s.running)
    case ReclaimSide(_) => s.daemon.Exclusive? && s.daemon.side < 2 && s.running
    case Finish(_, _) => s.daemon.Exclusive? && (s.daemon.side == 2 || !s.running)
    case Release => s.daemon == Releasing
    case StopRequest => true
  }

  function Coasted(b: Base, okLeft: bool, okRight: bool): Base {
    b.(left := b.left.(reclaim := b.left.reclaim || !okLeft), right := b.right.(reclaim := b.right.reclaim || !okRight))
  }

  /** A reclaimed side is healthy again; a failed attempt leaves its request for the next round. */
  function Reclaimed(b: Base, side: nat, ok: bool): Base {
    if !ok then b
    else if side == 0 then b.(left := b.left.(reclaim := false)) else b.(right := b.right.(reclaim := false))
  }

  /** db_drivebase_reset: both axes stopped and forgotten, both wheels recorded as coasting. Each
      side's encoder is drained for its new baseline, which may find the port lost again. */
  function ResetBase(b: Base, lostLeft: bool, lostRight: bool): Base {
    b.(distance := ResetAxis(b.distance), heading := ResetAxis(b.heading),
       left := Wheel(0, COAST, b.left.reclaim || lostLeft), right := Wheel(0, COAST, b.right.reclaim || lostRight))
  }

  function Apply(s: State, step: Step, atomic: bool): State
    requires Enabled(s, step, atomic)
  {
    match step
    case Gate => if s.frozen then s.(idle := true) else s.(rt := Body)
    case GateRead => if s.frozen then s.(rt := Acknowledging) else s.(rt := Body)
    case GateAck => s.(rt := Outside, idle := true)
    case Dispatch(command) => s.(base := Obey(s.base, command))
    case Update(input) => s.(base := Tick(s.base, input))
    case WatchdogCoast(okLeft, okRight) => s.(base := Coasted(s.base, okLeft, okRight), running := false)
    case LeaveBody => s.(rt := Outside)
    case Begin => s.(daemon := Cleared, idle := false)
    case Freeze => s.(daemon := Waiting(0), frozen := true)
    case PollAck =>
      if s.idle then s.(daemon := Exclusive((s.base.left.reclaim, s.base.right.reclaim), 0))
      else s.(daemon := Waiting(s.daemon.polls + 1))
    case GiveUp => s.(daemon := Idle, frozen := false)
    case ReclaimSide(ok) =>
      var d := s.daemon;
      var wanted := if d.side == 0 then d.requested.0 else d.requested.1;
      s.(daemon := Exclusive(d.requested, d.side + 1), base := if wanted then Reclaimed(s.base, d.side, ok) else s.base)
    case Finish(lostLeft, lostRight) =>
      s.(daemon := Releasing, base := if Pending(s.base) then s.base else ResetBase(s.base, lostLeft, lostRight))
    case Release => s.(daemon := Idle, frozen := false)
    case StopRequest => s.(running := false)
  }

  predicate Initial(s: State) { s.rt == Outside && s.daemon == Idle && !s.frozen && !s.idle }

  ghost predicate Run(states: seq<State>, steps: seq<Step>, atomic: bool) {
    && |states| == |steps| + 1
    && Initial(states[0])
    && forall n | 0 <= n < |steps| ::
      Enabled(states[n], steps[n], atomic) && states[n + 1] == Apply(states[n], steps[n], atomic)
  }

  /** The recovery thread may touch motor descriptors and drivebase state. */
  predicate Recovering(s: State) { s.daemon.Exclusive? || s.daemon == Releasing }

  predicate Handshake(s: State) {
    && s.rt != Acknowledging
    && (s.frozen <==> s.daemon.Waiting? || Recovering(s))
    && (s.daemon == Cleared ==> !s.idle)
    && (s.daemon.Waiting? && s.idle ==> s.rt == Outside)
    && (Recovering(s) ==> s.rt == Outside)
  }

  lemma HandshakeStep(s: State, step: Step)
    requires Handshake(s) && Enabled(s, step, true)
    ensures Handshake(Apply(s, step, true))
  {
    hide Tick, Obey, ResetBase;
  }

  lemma {:induction false} HandshakeHolds(states: seq<State>, steps: seq<Step>, n: nat)
    requires Run(states, steps, true) && n < |states|
    ensures Handshake(states[n])
    decreases n
  {
    if n > 0 {
      HandshakeHolds(states, steps, n - 1);
      hide Apply, Enabled, Handshake;
      HandshakeStep(states[n - 1], steps[n - 1]);
    }
  }

  predicate ByRecovery(step: Step) { step.ReclaimSide? || step.Finish? }

  predicate ByRealtime(step: Step) { step.Dispatch? || step.Update? || step.WatchdogCoast? }

  /** In every run the two threads exclude each other: recovery touches the motors and the drivebase
      only while the real-time thread is outside its tick body, and not until recovery has released
      the freeze does a tick body start again. */
  lemma MutualExclusion(states: seq<State>, steps: seq<Step>, n: nat)
    requires Run(states, steps, true) && n < |states|
    ensures Recovering(states[n]) ==> states[n].rt == Outside && states[n].frozen
    ensures n < |steps| && ByRecovery(steps[n]) ==> states[n].rt == Outside && states[n + 1].rt == Outside
    ensures n < |steps| && ByRealtime(steps[n]) ==> !Recovering(states[n])
    ensures n < |steps| && states[n].rt == Outside && states[n + 1].rt == Body ==> !Recovering(states[n])
  {
    HandshakeHolds(states, steps, n);
    hide Tick, Obey, ResetBase;
  }

  /** At the end of every drivebase update in every run, a pending reclaim means both wheels are
      recorded as not driven. */
  lemma PendingMeansNoDutyInRuns(states: seq<State>, steps: seq<Step>, atomic: bool, n: nat)
    requires Run(states, steps, atomic) && n < |steps| && steps[n].Update?
    ensures var b := states[n + 1].base; Pending(b) ==> b.left.duty == 0 && b.right.duty == 0
  {
    hide Tick;
    PendingMeansNoDuty(states[n].base, steps[n].input);
  }

  /** Recovery resets the drivebase exactly when nothing is pending any more: both axes are then
      inactive and unlatched and both wheels at rest, and a reclaim is pending again exactly when the
      drain of the reset found a port lost. Otherwise the drivebase is left as it was. */
  lemma RecoveryEnds(s: State, lostLeft: bool, lostRight: bool)
    requires Enabled(s, Finish(lostLeft, lostRight), true)
    ensures var b := Apply(s, Finish(lostLeft, lostRight), true).base;
      if Pending(s.base) then b == s.base
      else
        && b.left == Wheel(0, 0, lostLeft) && b.right == Wheel(0, 0, lostRight)
        && !b.distance.active && !b.heading.active && !b.distance.pid.latched && !b.heading.pid.latched
  {
    hide Tick;
  }

  /** The requests that were read are still what the sides not yet visited await. */
  predicate Requested(s: State) {
    s.daemon.Exclusive? ==>
      && (s.daemon.side == 0 ==> s.daemon.requested.0 == s.base.left.reclaim)
      && (s.daemon.side <= 1 ==> s.daemon.requested.1 == s.base.right.reclaim)
  }

  lemma RequestedStep(s: State, step: Step)
    requires Handshake(s) && Requested(s) && Enabled(s, step, true)
    ensures Requested(Apply(s, step, true))
  {
    hide Tick, Obey, ResetBase;
  }

  lemma {:induction false} RequestsStand(states: seq<State>, steps: seq<Step>, n: nat)
    requires Run(states, steps, true) && n < |states|
    ensures Requested(states[n])
    decreases n
  {
    if n > 0 {
      RequestsStand(states, steps, n - 1);
      HandshakeHolds(states, steps, n - 1);
      hide Apply, Enabled, Handshake, Requested;
      RequestedStep(states[n - 1], steps[n - 1]);
    }
  }

  /** In every run one visit of the recovery thread clears exactly the request of the side whose turn it
      is, if its port was acquired. It touches nothing else of the drivebase. */
  lemma ReclaimsExactly(states: seq<State>, steps: seq<Step>, n: nat)
    requires Run(states, steps, true) && n < |steps| && steps[n].ReclaimSide?
    ensures states[n].daemon.Exclusive? && states[n].daemon.side < 2
    ensures var b, c, side := states[n].base, states[n + 1].base, states[n].daemon.side;
      && (c.left.reclaim <==> b.left.reclaim && !(side == 0 && steps[n].ok))
      && (c.right.reclaim <==> b.right.reclaim && !(side == 1 && steps[n].ok))
      && c == b.(left := b.left.(reclaim := c.left.reclaim), right := b.right.(reclaim := c.right.reclaim))
      && states[n + 1].daemon == Exclusive(states[n].daemon.requested, side + 1)
  {
    RequestsStand(states, steps, n);
    hide Tick, Obey, ResetBase;
  }

  lemma RunningStep(s: State, step: Step, atomic: bool)
    requires Enabled(s, step, atomic)
    ensures Apply(s, step, atomic).running <==> s.running && !step.StopRequest? && !step.WatchdogCoast?
  {
    hide Tick, Obey, ResetBase;
  }

  /** In every run the daemon runs until it is asked to stop or the watchdog stops it. */
  lemma {:induction false} RunsUntilStopped(states: seq<State>, steps: seq<Step>, atomic: bool, n: nat)
    requires Run(states, steps, atomic) && n < |states|
    ensures states[n].running <==>
      states[0].running && forall k | 0 <= k < n :: !steps[k].StopRequest? && !steps[k].WatchdogCoast?
    decreases n
  {
    if n > 0 {
      RunsUntilStopped(states, steps, atomic, n - 1);
      hide Apply, Enabled;
      RunningStep(states[n - 1], steps[n - 1], atomic);
    }
  }

  lemma IdleStep(s: State, step: Step)
    requires Handshake(s) && Enabled(s, step, true) && !step.Freeze? && Apply(s, step, true).daemon.Waiting?
    ensures s.daemon.Waiting? && (Apply(s, step, true).idle <==> s.idle || step.Gate?)
  {
    hide Tick, Obey, ResetBase;
  }

  lemma FreezeIsNew(s: State)
    requires Handshake(s) && Enabled(s, Freeze, true)
    ensures Apply(s, Freeze, true).daemon.Waiting? && !Apply(s, Freeze, true).idle
  {
  }

  lemma StepTaken(states: seq<State>, steps: seq<Step>, atomic: bool, n: nat)
    requires Run(states, steps, atomic) && n + 1 < |states|
    ensures n < |steps| && |states| == |steps| + 1
    ensures Enabled(states[n], steps[n], atomic) && states[n + 1] == Apply(states[n], steps[n], atomic)
  {
    hide Apply, Enabled, Initial;
  }

  lemma {:induction false} IdleSinceFreeze(states: seq<State>, steps: seq<Step>, i: nat, n: nat)
    requires Run(states, steps, true) && i < n < |states| && steps[i].Freeze?
    requires (forall k | i < k < n :: !steps[k].Freeze?) && states[n].daemon.Waiting?
    ensures states[n].idle <==> exists k | i < k < n :: steps[k].Gate?
    decreases n
  {
    hide *;
    HandshakeHolds(states, steps, n - 1);
    StepTaken(states, steps, true, n - 1);
    if n > i + 1 {
      IdleStep(states[n - 1], steps[n - 1]);
      IdleSinceFreeze(states, steps, i, n - 1);
    } else {
      FreezeIsNew(states[i]);
    }
  }

  /** In every run recovery gets its acknowledgement at the first look after the real-time thread has come
      to the gate since this freeze, not before, and then finds the requests that stand at that moment. */
  lemma AcknowledgedExactly(states: seq<State>, steps: seq<Step>, i: nat, n: nat)
    requires Run(states, steps, true) && i < n < |steps| && steps[i].Freeze?
    requires (forall k | i < k < n :: !steps[k].Freeze?) && steps[n].PollAck?
    ensures states[n].daemon.Waiting?
    ensures states[n + 1].daemon ==
      if exists k | i < k < n :: steps[k].Gate? then
        Exclusive((states[n].base.left.reclaim, states[n].base.right.reclaim), 0)
      else Waiting(states[n].daemon.polls + 1)
  {
    assert Enabled(states[n], steps[n], true);
    IdleSinceFreeze(states, steps, i, n);
    hide Tick, Obey, ResetBase;
  }

  /** The watchdog's coast stops the daemon and arms a reclaim exactly for a side whose port refuses; what
      is recorded of the wheels and the axes stays. */
  lemma WatchdogExactly(states: seq<State>, steps: seq<Step>, atomic: bool, n: nat)
    requires Run(states, steps, atomic) && n < |steps| && steps[n].WatchdogCoast?
    ensures var b, c := states[n].base, states[n + 1].base;
      && !states[n + 1].running
      && (c.left.reclaim <==> b.left.reclaim || !steps[n].okLeft)
      && (c.right.reclaim <==> b.right.reclaim || !steps[n].okRight)
      && c == b.(left := b.left.(reclaim := c.left.reclaim), right := b.right.(reclaim := c.right.reclaim))
  {
    hide Tick, Obey, ResetBase;
  }

  /** How often the acknowledgement has been looked for in steps `from` to `n`. */
  function PollCount(steps: seq<Step>, from: nat, n: nat): nat
    requires from <= n <= |steps|
  {
    if n == from then 0 else PollCount(steps, from, n - 1) + if steps[n - 1].PollAck? then 1 else 0
  }

  lemma WaitStep(s: State, step: Step, atomic: bool)
    requires Enabled(s, step, atomic) && !step.Freeze? && Apply(s, step, atomic).daemon.Waiting?
    ensures s.daemon.Waiting?
    ensures Apply(s, step, atomic).daemon.polls == s.daemon.polls + if step.PollAck? then 1 else 0
  {
    hide Tick, Obey, ResetBase;
  }

  lemma {:induction false} WaitingCounts(states: seq<State>, steps: seq<Step>, atomic: bool, i: nat, n: nat)
    requires Run(states, steps, atomic) && i < n < |states| && steps[i].Freeze?
    requires forall k | i < k < n :: !steps[k].Freeze?
    requires states[n].daemon.Waiting?
    ensures states[n].daemon.polls == PollCount(steps, i + 1, n)
    decreases n
  {
    assert Enabled(states[n - 1], steps[n - 1], atomic) && states[n] == Apply(states[n - 1], steps[n - 1], atomic);
    if n > i + 1 {
      hide Run, Apply, Enabled;
      WaitStep(states[n - 1], steps[n - 1], atomic);
      WaitingCounts(states, steps, atomic, i, n - 1);
    } else {
      hide Run, Tick, Obey, ResetBase;
    }
  }

  /** Recovery looks for the acknowledgement of a freeze at most twelve times, and gives up exactly then
      or when the daemon is stopping. */
  lemma GivesUpAfterTwelvePolls(states: seq<State>, steps: seq<Step>, atomic: bool, i: nat, n: nat)
    requires Run(states, steps, atomic) && i < n < |steps| && steps[i].Freeze?
    requires forall k | i < k < n :: !steps[k].Freeze?
    requires states[n].daemon.Waiting?
    ensures PollCount(steps, i + 1, n) <= 12
    ensures Enabled(states[n], GiveUp, atomic) <==> PollCount(steps, i + 1, n) == 12 || !states[n].running
    ensures Enabled(states[n], PollAck, atomic) <==> PollCount(steps, i + 1, n) < 12 && states[n].running
  {
    assert |states| == |steps| + 1;
    hide Run, Apply, Enabled, Tick, Obey, ResetBase;
    WaitingCounts(states, steps, atomic, i, n);
    PollsBounded(states, steps, atomic, n);
    WaitingEnds(states[n], atomic);
  }

  lemma WaitingEnds(s: State, atomic: bool)
    requires s.daemon.Waiting? && s.daemon.polls <= 12
    ensures Enabled(s, GiveUp, atomic) <==> s.daemon.polls == 12 || !s.running
    ensures Enabled(s, PollAck, atomic) <==> s.daemon.polls < 12 && s.running
  {
    hide Tick, Obey, ResetBase;
  }

  lemma {:induction false} PollsBounded(states: seq<State>, steps: seq<Step>, atomic: bool, n: nat)
    requires Run(states, steps, atomic) && n < |states|
    ensures states[n].daemon.Waiting? ==> states[n].daemon.polls <= 12
    decreases n
  {
    if n > 0 {
      PollsBounded(states, steps, atomic, n - 1);
      assert Enabled(states[n - 1], steps[n - 1], atomic) && states[n] == Apply(states[n - 1], steps[n - 1], atomic);
      hide Run, Tick, Obey, ResetBase;
    }
  }

  // ---- Why the gate has to be one step -------------------------------------------------------

  /** Taken as two accesses, the gate admits a stale acknowledgement: an acknowledgement meant for an
      abandoned freeze arrives during the next one, and both threads are inside. */
  lemma SplitGateFails(start: State) returns (states: seq<State>, steps: seq<Step>)
    requires Initial(start) && Pending(start.base) && start.running
    ensures Run(states, steps, false)
    ensures var last := states[|steps|]; Recovering(last) && last.rt == Body
  {
    hide Tick, Obey, ResetBase;
    var s1 := Apply(start, Begin, false);
    var s2 := Apply(s1, Freeze, false);
    var s3 := Apply(s2, GateRead, false);
    var waits := Polls(s3, ACK_POLLS);
    var s4 := waits[ACK_POLLS];
    var s5 := Apply(s4, GiveUp, false);
    var s6 := Apply(s5, Begin, false);
    var s7 := Apply(s6, GateAck, false);
    var s8 := Apply(s7, GateRead, false);
    var s9 := Apply(s8, Freeze, false);
    var s10 := Apply(s9, PollAck, false);
    steps := [Begin, Freeze, GateRead] + Repeat(PollAck, ACK_POLLS) +
      [GiveUp, Begin, GateAck, GateRead, Freeze, PollAck];
    states := [start, s1, s2] + waits + [s5, s6, s7, s8, s9, s10];
    forall n | 0 <= n < |steps|
      ensures Enabled(states[n], steps[n], false) && states[n + 1] == Apply(states[n], steps[n], false) {
      if 3 <= n < 3 + ACK_POLLS {
        assert states[n] == waits[n - 3] && states[n + 1] == waits[n - 2] && steps[n] == PollAck;
      }
    }
  }

  function Repeat(step: Step, n: nat): (r: seq<Step>)
    ensures |r| == n && forall i :: 0 <= i < n ==> r[i] == step
  {
    seq(n, _ => step)
  }

  /** `n` polls that find no acknowledgement. */
  ghost function Polls(s: State, n: nat): (r: seq<State>)
    requires n <= ACK_POLLS && s.daemon == Waiting(0) && !s.idle && s.running
    ensures |r| == n + 1 && r[0] == s && r[n] == s.(daemon := Waiting(n))
    ensures forall i | 0 <= i < n :: Enabled(r[i], PollAck, false) && r[i + 1] == Apply(r[i], PollAck, false)
  {
    if n == 0 then [s]
    else
      var front := Polls(s, n - 1);
      front + [Apply(front[n - 1], PollAck, false)]
  }
}
