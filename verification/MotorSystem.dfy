/** Classic runs and actuator ownership as one transition system: the scheduler's timer thread,
    stops, disconnects, a second link and the device all interleave between locked regions. */
module MotorSystem {
  import opened Basics
  import opened MotorModel

  // ---- State ------------------------------------------------------------------------------

  /** For whom a token was issued, and the link's generation at that moment. */
  datatype Issue = Issue(link: Link, port: nat, generation: nat)

  /** The actuators: the ownership tables, and every token ever issued. */
  datatype Motors = Motors(backend: Backend, issued: map<nat, Issue>)

  /** Where the answer to a deferred request is. */
  datatype Fate = AtPort(port: nat) | With(thread: nat) | Answered | Dropped

  /** Where a deferred run was started: its port, the token the start was given, the request's
      id and end state, and whether it is a timed run. */
  datatype Origin = Origin(port: nat, token: nat, id: Option<nat>, timed: bool, endState: nat)

  datatype Reply = Reply(generation: nat, id: Option<nat>, result: int)

  /** A thread inside one of the file's functions, between two locked regions. */
  datatype Thread =
    // btsensor_classic_timer_fired
    | Looking(port: nat)
    | Ending(port: nat, run: Pending, motion: int)
    | Claiming(port: nat, run: Pending, rc: int)
    | Replying(port: nat, run: Pending, rc: int)
    // cancel_port
    | Cancelling(run: Pending)
    | Rearming(run: Pending)
    | CancelReply(run: Pending, failed: seq<Pending>, error: int)
    // abort_failed_runs
    | Aborting(failed: seq<Pending>, error: int, port: nat)
    | AbortReply(failed: seq<Pending>, error: int, port: nat, rc: int)
    // btsensor_classic_link_state
    | Unhooking(runs: seq<Pending>)
    | Dropping(runs: seq<Pending>, port: nat)
    // start_timed and start_degrees when the timer cannot be armed; the lock is still held
    | FailedStart(port: nat, token: nat, endState: nat)

  /** `armed` says that the one-shot timer is running. `fates`, `replies` and `origins` are history;
      `replies` holds every settled answer, also of a request without id, for which nothing is sent. */
  datatype Runs = Runs(
    pending: seq<Pending>,
    generation: nat,
    locked: bool,
    armed: bool,
    threads: map<nat, Thread>,
    nextThread: nat,
    fates: map<nat, Fate>,
    replies: seq<Reply>,
    origins: map<nat, Origin>)

  datatype System = System(motors: Motors, runs: Runs)

  datatype Step =
    // The back end, from any caller
    | Command(link: Link, port: nat, running: bool, rc: int)
    | EndCall(link: Link, port: nat, token: nat, rc: int, coasted: bool)
    | Report(link: Link, connected: bool, generation: nat)
    | ShutdownStep
    // Classic
    | Init
    | Start(port: nat, request: Request, now: nat, rc: int, armRc: int)
    | Fire
    | LookStep(thread: nat, first: nat, now: nat, encoder: Encoder)
    | EndStep(thread: nat, rc: int, coasted: bool)
    | ClaimStep(thread: nat)
    | ReplyStep(thread: nat)
    | StopTimer(thread: nat)
    | ArmStep(thread: nat, rc: int)
    | Cancel(port: nat)
    | LinkDown

  // ---- The actuators ----------------------------------------------------------------------

  function Commanded(m: Motors, link: Link, port: nat, running: bool): Motors
    requires m.backend.Sized() && port < PORTS
  {
    Motors(SetOwner(m.backend, link, port, running),
           if running then m.issued[m.backend.nextToken + 1 := Issue(link, port, m.backend.Generation(link))]
             else m.issued)
  }

  function Ended(m: Motors, link: Link, port: nat, token: nat, rc: int, coasted: bool): Motors
    requires m.backend.Sized()
  {
    m.(backend := EndOwned(m.backend, link, port, token, rc, coasted).backend)
  }

  // ---- The runs ---------------------------------------------------------------------------

  /** What a thread's next end_owned call names: port, token and end state. */
  datatype EndArgs = EndArgs(port: nat, token: nat, endState: nat)

  function NextEnd(th: Thread): Option<EndArgs> {
    match th
    case Ending(port, run, motion) => Some(EndArgs(port, run.token, if motion < 0 then 1 else run.endState))
    case Aborting(failed, _, port) =>
      if port < |failed| && failed[port].active then Some(EndArgs(port, failed[port].token, 1)) else None
    case Dropping(runs, port) =>
      if port < |runs| && runs[port].active then Some(EndArgs(port, runs[port].token, 1)) else None
    case FailedStart(port, token, endState) => Some(EndArgs(port, token, endState))
    case _ => None
  }

  /** Only thread `t` may have moved. */
  predicate OthersUnmoved(r: Runs, q: Runs, t: nat) {
    && (forall u | u in r.threads && u != t :: u in q.threads && q.threads[u] == r.threads[u])
    && (forall u | u in q.threads && u != t :: u in r.threads)
  }

  /** Generations and settled answers only grow, and nothing becomes dropped. */
  predicate Grows(r: Runs, q: Runs) {
    && r.generation <= q.generation && r.replies <= q.replies
    && (forall g | g in q.fates && q.fates[g].Dropped? :: g in r.fates && r.fates[g].Dropped?)
  }

  function Spawn(r: Runs, th: Thread): Runs {
    r.(threads := r.threads[r.nextThread := th], nextThread := r.nextThread + 1)
  }

  function Move(r: Runs, t: nat, th: Thread): Runs { r.(threads := r.threads[t := th]) }

  function Exit(r: Runs, t: nat): Runs { r.(threads := r.threads - {t}) }

  function Answer(r: Runs, run: Pending, result: int): Runs {
    r.(fates := r.fates[run.generation := Answered], replies := r.replies + [Reply(run.generation, run.id, result)])
  }

  /** Every active run is taken off its port, and its answer goes to `fate`. */
  function TakeAll(r: Runs, fate: Fate): Runs {
    r.(pending := NONE_PENDING, fates := map g | g in r.fates :: if r.fates[g].AtPort? then fate else r.fates[g])
  }

  function StartEffect(r: Runs, port: nat, request: Request, now: nat, token: nat, armRc: int): (q: Runs)
    requires |r.pending| == PORTS && port < PORTS
    ensures OthersUnmoved(r, q, r.nextThread) && Grows(r, q)
  {
    var g := r.generation + 1;
    var run := NewRun(request, now, g, token);
    if armRc < 0 then
      Spawn(r.(pending := r.pending[port := run.(active := false)], generation := g, locked := true),
            FailedStart(port, token, if request.Degrees? then 1 else request.endState))
    else r.(pending := r.pending[port := run], generation := g, armed := true, fates := r.fates[g := AtPort(port)],
                origins := r.origins[g := Origin(port, token, request.id, request.Timed?, request.endState)])
  }

  function LookEffect(r: Runs, t: nat, port: nat, first: nat, now: nat, e: Encoder): (q: Runs)
    requires |r.pending| == PORTS && port < PORTS
    ensures OthersUnmoved(r, q, t) && Grows(r, q)
  {
    match LookAt(r.pending[port], first, now, e)
    case NotDue => Move(r, t, Looking(port + 1))
    case Continue(run) => Move(r.(pending := r.pending[port := run]), t, Looking(port + 1))
    case Finish(run, motion) => Move(r.(pending := r.pending[port := run]), t, Ending(port, r.pending[port], motion))
  }

  /** Where a thread goes once its end call has answered `rc`, or there was nothing to end at this
      position; None when it returns. */
  function AfterEnd(th: Thread, rc: int): Option<Thread> {
    match th
    case Ending(port, run, motion) => Some(Claiming(port, run, if rc == 0 then motion else rc))
    case Aborting(failed, error, port) =>
      if port >= |failed| then None
      else if failed[port].active then Some(AbortReply(failed, error, port, if rc < 0 then rc else error))
      else Some(Aborting(failed, error, port + 1))
    case Dropping(runs, port) => if port >= |runs| then None else Some(Dropping(runs, port + 1))
    case FailedStart(_, _, _) => None
    case _ => Some(th)
  }

  function EndEffect(r: Runs, t: nat, th: Thread, rc: int): (q: Runs)
    ensures OthersUnmoved(r, q, t) && Grows(r, q)
  {
    var next := AfterEnd(th, rc);
    var q := if next.Some? then Move(r, t, next.value) else Exit(r, t);
    if th.FailedStart? then q.(locked := false) else q
  }

  function ClaimEffect(r: Runs, t: nat, port: nat, run: Pending, rc: int): (q: Runs)
    requires |r.pending| == PORTS && port < PORTS
    ensures OthersUnmoved(r, q, t) && Grows(r, q)
  {
    if r.pending[port].active && r.pending[port].generation == run.generation then
      Move(r.(pending := r.pending[port := r.pending[port].(active := false)],
              fates := r.fates[run.generation := With(t)]),
           t, Replying(port, run, rc))
    else Move(r, t, Looking(port + 1))
  }

  function ReplyEffect(r: Runs, t: nat, th: Thread): (q: Runs)
    ensures OthersUnmoved(r, q, t) && Grows(r, q)
  {
    match th
    case Replying(port, run, rc) => Move(Answer(r, run, rc), t, Looking(port + 1))
    case CancelReply(run, failed, error) => Move(Answer(r, run, 0), t, Aborting(failed, error, 0))
    case AbortReply(failed, error, port, rc) =>
      if port < |failed| then Move(Answer(r, failed[port], rc), t, Aborting(failed, error, port + 1)) else r
    case _ => r
  }

  function ArmEffect(r: Runs, t: nat, th: Thread, rc: int): (q: Runs)
    ensures OthersUnmoved(r, q, t) && Grows(r, q)
  {
    match th
    case Looking(_) => if rc < 0 then Move(TakeAll(r, With(t)), t, Aborting(r.pending, rc, 0)) else Exit(Rearmed(r), t)
    case Rearming(run) =>
      if rc < 0 then Move(TakeAll(r, With(t)), t, CancelReply(run, r.pending, rc))
      else Move(Rearmed(r), t, CancelReply(run, NONE_PENDING, rc))
    case _ => r
  }

  predicate AnyActive(list: seq<Pending>) { exists p | 0 <= p < |list| :: list[p].active }

  /** Arming succeeds: the timer runs if there is a run to wait for, and is left alone otherwise. */
  function Rearmed(r: Runs): Runs { r.(armed := r.armed || AnyActive(r.pending)) }

  /** The timer is stopped outside the lock, before it is armed anew or the runs are dropped. */
  function StopEffect(r: Runs, t: nat, th: Thread): (q: Runs)
    ensures OthersUnmoved(r, q, t) && Grows(r, q)
  {
    match th
    case Cancelling(run) => Move(r.(armed := false), t, Rearming(run))
    case Unhooking(runs) => Move(r.(armed := false), t, Dropping(runs, 0))
    case _ => r
  }

  function CancelEffect(r: Runs, port: nat): (q: Runs)
    requires |r.pending| == PORTS && port < PORTS
    ensures OthersUnmoved(r, q, r.nextThread) && Grows(r, q)
  {
    var run := r.pending[port];
    if !run.active then r
    else Spawn(r.(pending := r.pending[port := run.(active := false)],
                  fates := r.fates[run.generation := With(r.nextThread)]),
               Cancelling(run))
  }

  function LinkDownEffect(r: Runs): (q: Runs)
    ensures OthersUnmoved(r, q, r.nextThread)
  {
    Spawn(TakeAll(r, Dropped), Unhooking(r.pending))
  }

  // ---- Steps ------------------------------------------------------------------------------

  predicate Shaped(s: System) { s.motors.backend.Sized() && |s.runs.pending| == PORTS }

  /** What the parsers and the first checks of the two start functions let through, once a request for
      no time or no angle has been taken as a stop. */
  predicate Acceptable(request: Request) {
    && -100 <= request.speed <= 100 && request.endState <= 1
    && match request
       case Timed(_, _, time, _) => 0 < time <= TIMED_MAX_MS
       case Degrees(_, speed, angle, _, _) => angle != 0 && -1_000_000 <= angle <= 1_000_000 && speed != 0
  }

  /** Program counters, the lock, and what the source checks before it gets this far; arming the
      timer answers 0 or a negative error. */
  predicate Enabled(s: System, step: Step) {
    var r := s.runs;
    match step
    case Command(_, port, _, _) => port < PORTS
    case EndCall(_, _, _, _, _) => true
    case Report(_, _, _) => true
    case ShutdownStep => true
    case Start(port, request, now, _, armRc) =>
      !r.locked && port < PORTS && armRc <= 0 && Acceptable(request)
    case LookStep(t, first, now, _) =>
      !r.locked && t in r.threads && r.threads[t].Looking? && r.threads[t].port < PORTS && first <= now
    case EndStep(t, _, _) =>
      t in r.threads
        && (r.threads[t].Ending? || r.threads[t].Aborting? || r.threads[t].Dropping? || r.threads[t].FailedStart?)
    case ClaimStep(t) => !r.locked && t in r.threads && r.threads[t].Claiming? && r.threads[t].port < PORTS
    case ReplyStep(t) =>
      t in r.threads && (r.threads[t].Replying? || r.threads[t].CancelReply? || r.threads[t].AbortReply?)
    case StopTimer(t) => t in r.threads && (r.threads[t].Cancelling? || r.threads[t].Unhooking?)
    case ArmStep(t, rc) =>
      && !r.locked && t in r.threads && rc <= 0 && (!AnyActive(r.pending) ==> rc == 0)
      && (r.threads[t].Rearming? || (r.threads[t].Looking? && r.threads[t].port == PORTS))
    case Cancel(port) => !r.locked && port < PORTS
    case Fire => r.armed
    case Init => !r.locked
    case LinkDown => !r.locked
  }

  /** The motors after a step. */
  function MotorsStep(s: System, step: Step): Motors
    requires Shaped(s) && Enabled(s, step)
  {
    var m := s.motors;
    match step
    case Command(link, port, running, rc) => if rc == 0 then Commanded(m, link, port, running) else m
    case EndCall(link, port, token, rc, coasted) => Ended(m, link, port, token, rc, coasted)
    case Report(link, connected, generation) => m.(backend := LinkReport(m.backend, link, connected, generation))
    case ShutdownStep => m.(backend := Shutdown(m.backend))
    case Start(port, request, _, rc, _) =>
      if s.runs.pending[port].active || rc != 0 then m else Commanded(m, Classic, port, Driven(request) != 0)
    case EndStep(t, rc, coasted) =>
      (match NextEnd(s.runs.threads[t])
       case None => m
       case Some(args) => Ended(m, Classic, args.port, args.token, rc, coasted))
    case _ => m
  }

  /** What an end call by thread `t` answers. */
  function EndAnswer(s: System, t: nat, rc: int, coasted: bool): int
    requires Shaped(s) && t in s.runs.threads
  {
    match NextEnd(s.runs.threads[t])
    case None => rc
    case Some(args) => EndOwned(s.motors.backend, Classic, args.port, args.token, rc, coasted).rc
  }

  /** The token a successful start receives: 0 for a run at speed 0. */
  function StartToken(m: Motors, request: Request): nat {
    if Driven(request) != 0 then m.backend.nextToken + 1 else 0
  }

  function RunsStep(s: System, step: Step): Runs
    requires Shaped(s) && Enabled(s, step)
  {
    var r := s.runs;
    match step
    case Init => TakeAll(r, Dropped)
    case Start(port, request, now, rc, armRc) =>
      if r.pending[port].active || rc != 0 then r
      else StartEffect(r, port, request, now, StartToken(s.motors, request), armRc)
    case Fire => Spawn(r.(armed := false), Looking(0))
    case LookStep(t, first, now, e) => LookEffect(r, t, r.threads[t].port, first, now, e)
    case EndStep(t, rc, coasted) => EndEffect(r, t, r.threads[t], EndAnswer(s, t, rc, coasted))
    case ClaimStep(t) => ClaimEffect(r, t, r.threads[t].port, r.threads[t].run, r.threads[t].rc)
    case ReplyStep(t) => ReplyEffect(r, t, r.threads[t])
    case StopTimer(t) => StopEffect(r, t, r.threads[t])
    case ArmStep(t, rc) => ArmEffect(r, t, r.threads[t], rc)
    case Cancel(port) => CancelEffect(r, port)
    case LinkDown => LinkDownEffect(r)
    case _ => r
  }

  function Apply(s: System, step: Step): System
    requires Shaped(s) && Enabled(s, step)
  {
    System(MotorsStep(s, step), RunsStep(s, step))
  }

  predicate Initial(s: System) {
    && s.motors == Motors(Backend(NO_PORTS, NO_PORTS, [0, 0, 0, 0, 0, 0], 0, 0, 0), map[])
    && s.runs == Runs(NONE_PENDING, 0, false, false, map[], 0, map[], [], map[])
  }

  ghost predicate Run(states: seq<System>, steps: seq<Step>) {
    && |states| == |steps| + 1
    && Initial(states[0])
    && forall i | 0 <= i < |steps| ::
         Shaped(states[i]) && Enabled(states[i], steps[i]) && states[i + 1] == Apply(states[i], steps[i])
  }
}
