/** When a deferred run is ended, and as what, from its request: the record on its port is the
    request's own, changed only by the timer's visits. */
module MotorTiming {
  import opened Basics
  import opened MotorModel
  import opened MotorSystem
  import opened MotorFates
  import opened MotorTheorems
  import opened MotorReplies
  import opened MotorEncoder
  import opened MotorExpiry

  // ---- The record on the port -----------------------------------------------------------------

  /** The record after a visit, whatever the visit decides. */
  function Visited(p: Pending, v: Visit): Pending {
    match LookAt(p, v.first, v.now, v.encoder)
    case NotDue => p
    case Continue(run) => run
    case Finish(run, _) => run
  }

  function Folded(p: Pending, visits: seq<Visit>): Pending {
    if visits == [] then p else Visited(Folded(p, visits[..|visits| - 1]), visits[|visits| - 1])
  }

  /** The step is a visit of the timer to this port. */
  predicate Visits(s: System, step: Step, port: nat) {
    step.LookStep? && step.thread in s.runs.threads && s.runs.threads[step.thread] == Looking(port)
  }

  /** The visits to the port in steps `from` to `n`. */
  ghost function VisitsSince(states: seq<System>, steps: seq<Step>, from: nat, n: nat, port: nat): seq<Visit>
    requires from <= n <= |steps| && n <= |states|
  {
    if n == from then []
    else
      VisitsSince(states, steps, from, n - 1, port)
      + if Visits(states[n - 1], steps[n - 1], port) then [VisitOf(steps[n - 1])] else []
  }

  function VisitOf(step: Step): Visit
    requires step.LookStep?
  {
    Visit(step.first, step.now, step.encoder)
  }

  /** The port holds the run of generation `g`. */
  predicate OnPortWith(r: Runs, port: nat, g: nat) {
    port < |r.pending| && r.pending[port].active && r.pending[port].generation == g
  }

  lemma LookRecord(r: Runs, t: nat, at: nat, step: Step, port: nat, g: nat)
    requires |r.pending| == PORTS && at < PORTS && port < PORTS && step.LookStep?
    requires OnPortWith(LookEffect(r, t, at, step.first, step.now, step.encoder), port, g)
    ensures OnPortWith(r, port, g)
    ensures LookEffect(r, t, at, step.first, step.now, step.encoder).pending[port] ==
      if at == port then Visited(r.pending[port], VisitOf(step)) else r.pending[port]
  {
    LookKeepsIdentity(r.pending[at], step.first, step.now, step.encoder);
    hide LookAt;
  }

  lemma StartRecord(r: Runs, at: nat, request: Request, now: nat, token: nat, armRc: int, port: nat, g: nat)
    requires |r.pending| == PORTS && at < PORTS && port < PORTS && g <= r.generation
    requires OnPortWith(StartEffect(r, at, request, now, token, armRc), port, g)
    ensures OnPortWith(r, port, g) && StartEffect(r, at, request, now, token, armRc).pending[port] == r.pending[port]
  {
    hide NewRun;
  }

  /** Other steps take runs off their ports and change no record that stays. */
  lemma OtherRecord(s: System, step: Step, port: nat, g: nat)
    requires Shaped(s) && Enabled(s, step) && !step.Start? && !step.LookStep? && port < PORTS
    requires OnPortWith(RunsStep(s, step), port, g)
    ensures RunsStep(s, step).pending[port] == s.runs.pending[port]
  {
    hide EndEffect, ReplyEffect, StopEffect, EndAnswer, AnyActive, Grows, OthersUnmoved;
    if step.EndStep? || step.ReplyStep? || step.StopTimer? {
      PassingRecord(s.runs, step.thread, if step.EndStep? then EndAnswer(s, step.thread, step.rc, step.coasted) else 0);
      hide ClaimEffect, ArmEffect, CancelEffect, TakeAll;
    }
  }

  lemma PassingRecord(r: Runs, t: nat, rc: int)
    requires t in r.threads
    ensures EndEffect(r, t, r.threads[t], rc).pending == r.pending
    ensures ReplyEffect(r, t, r.threads[t]).pending == r.pending
    ensures StopEffect(r, t, r.threads[t]).pending == r.pending
  {
    hide AfterEnd, Grows, OthersUnmoved;
  }

  /** A run on its port was there before, and only a visit to that port changes its record. */
  lemma RecordStep(s: System, step: Step, port: nat, g: nat)
    requires Shaped(s) && Enabled(s, step) && port < PORTS && g <= s.runs.generation
    requires OnPortWith(RunsStep(s, step), port, g)
    ensures OnPortWith(s.runs, port, g)
    ensures RunsStep(s, step).pending[port] ==
      if Visits(s, step, port) then Visited(s.runs.pending[port], VisitOf(step)) else s.runs.pending[port]
  {
    hide StartEffect, LookEffect, EndEffect, ClaimEffect, ReplyEffect, ArmEffect, CancelEffect, LinkDownEffect,
         StopEffect, TakeAll, Visited, EndAnswer;
    match step
    case Start(at, request, now, rc, armRc) =>
      if !s.runs.pending[at].active && rc == 0 {
        StartRecord(s.runs, at, request, now, StartToken(s.motors, request), armRc, port, g);
      }
    case LookStep(t, _, _, _) => LookRecord(s.runs, t, s.runs.threads[t].port, step, port, g);
    case _ => OtherRecord(s, step, port, g);
  }

  /** The record that a deferring start leaves. */
  function StartedRun(s: System, step: Step): Pending
    requires step.Start?
  {
    NewRun(step.request, step.now, s.runs.generation + 1, StartToken(s.motors, step.request))
  }

  lemma StartLeavesRecord(s: System, step: Step)
    requires Shaped(s) && Enabled(s, step) && Defers(s, step)
    ensures step.port < |RunsStep(s, step).pending| && RunsStep(s, step).pending[step.port] == StartedRun(s, step)
  {
    hide NewRun;
  }

  lemma FoldMore(p: Pending, states: seq<System>, steps: seq<Step>, from: nat, n: nat, port: nat)
    requires from < n <= |steps| && n <= |states|
    ensures Folded(p, VisitsSince(states, steps, from, n, port)) ==
      (var before := Folded(p, VisitsSince(states, steps, from, n - 1, port));
       if Visits(states[n - 1], steps[n - 1], port) then Visited(before, VisitOf(steps[n - 1])) else before)
  {
    var front := VisitsSince(states, steps, from, n - 1, port);
    if Visits(states[n - 1], steps[n - 1], port) {
      var all := front + [VisitOf(steps[n - 1])];
      assert all[..|all| - 1] == front;
    } else {
      assert front + [] == front;
    }
    hide Visited;
  }

  /** In every run, as long as a deferred run is on its port, its record is the one its request was
      given at the start, with the timer's visits to that port since folded in, and nothing else. */
  lemma {:induction false} RecordIsFolded(states: seq<System>, steps: seq<Step>, i: nat, n: nat)
    requires Run(states, steps) && i < n < |states| && Defers(states[i], steps[i])
    requires OnPortWith(states[n].runs, steps[i].port, states[i].runs.generation + 1)
    ensures states[n].runs.pending[steps[i].port] ==
      Folded(StartedRun(states[i], steps[i]), VisitsSince(states, steps, i + 1, n, steps[i].port))
    decreases n
  {
    hide *;
    RunLength(states, steps);
    DeferringStart(states, steps, i);
    if n == i + 1 {
      FoldedAtStart(states, steps, i);
    } else {
      RecordBefore(states, steps, i, n);
      RecordIsFolded(states, steps, i, n - 1);
      FoldMore(StartedRun(states[i], steps[i]), states, steps, i + 1, n, steps[i].port);
    }
  }

  lemma DeferringStart(states: seq<System>, steps: seq<Step>, i: nat)
    requires Run(states, steps) && i < |steps| && i < |states| && Defers(states[i], steps[i])
    ensures steps[i].Start? && steps[i].port < PORTS
  {
    hide *;
    RunsNext(states, steps, i);
    PortBound(states[i], steps[i]);
  }

  lemma FoldedAtStart(states: seq<System>, steps: seq<Step>, i: nat)
    requires Run(states, steps) && i < |steps| && i + 1 < |states| && Defers(states[i], steps[i])
    ensures steps[i].port < |states[i + 1].runs.pending|
    ensures states[i + 1].runs.pending[steps[i].port] ==
      Folded(StartedRun(states[i], steps[i]), VisitsSince(states, steps, i + 1, i + 1, steps[i].port))
  {
    hide *;
    RunsNext(states, steps, i);
    PortBound(states[i], steps[i]);
    StartLeavesRecord(states[i], steps[i]);
    NothingVisited(StartedRun(states[i], steps[i]), states, steps, i + 1, steps[i].port);
  }

  /** One step back. */
  lemma RecordBefore(states: seq<System>, steps: seq<Step>, i: nat, n: nat)
    requires Run(states, steps) && i + 1 < n < |states| && Defers(states[i], steps[i])
    requires OnPortWith(states[n].runs, steps[i].port, states[i].runs.generation + 1)
    ensures OnPortWith(states[n - 1].runs, steps[i].port, states[i].runs.generation + 1)
    ensures states[n].runs.pending[steps[i].port] ==
      if Visits(states[n - 1], steps[n - 1], steps[i].port)
        then Visited(states[n - 1].runs.pending[steps[i].port], VisitOf(steps[n - 1]))
        else states[n - 1].runs.pending[steps[i].port]
  {
    hide *;
    RunLength(states, steps);
    RunsNext(states, steps, i);
    RunsNext(states, steps, n - 1);
    PortBound(states[i], steps[i]);
    OriginRecorded(states, steps, i);
    GenerationGrows(states, steps, i + 1, n - 1);
    RecordStep(states[n - 1], steps[n - 1], steps[i].port, states[i].runs.generation + 1);
  }

  lemma PortBound(s: System, step: Step)
    requires Shaped(s) && Enabled(s, step) && Defers(s, step)
    ensures step.Start? && step.port < PORTS
  {
  }

  lemma NothingVisited(p: Pending, states: seq<System>, steps: seq<Step>, n: nat, port: nat)
    requires n <= |steps| && n <= |states|
    ensures Folded(p, VisitsSince(states, steps, n, n, port)) == p
  {
  }

  // ---- Timed runs -----------------------------------------------------------------------------

  lemma {:induction false} TimedFolded(p: Pending, visits: seq<Visit>)
    requires !p.degrees
    ensures Folded(p, visits) == p
  {
    if visits != [] { TimedFolded(p, visits[..|visits| - 1]); }
  }

  /** The thread is ending the run of generation `g`. */
  predicate EndsRun(th: Thread, g: nat) { th.Ending? && th.run.generation == g }

  /** A visit makes its thread end exactly the run that is due on the thread's port. */
  lemma LookEnds(r: Runs, t: nat, port: nat, first: nat, now: nat, e: Encoder)
    requires |r.pending| == PORTS && port < PORTS
    ensures t in LookEffect(r, t, port, first, now, e).threads
    ensures var th := LookEffect(r, t, port, first, now, e).threads[t];
      if LookAt(r.pending[port], first, now, e).Finish? then
        th == Ending(port, r.pending[port], LookAt(r.pending[port], first, now, e).motion)
      else th == Looking(port + 1)
    ensures LookAt(r.pending[port], first, now, e).Finish? ==> r.pending[port].active
    ensures LookAt(r.pending[port], first, now, e).Continue? ==>
      DueAgain(LookEffect(r, t, port, first, now, e), port, now + 20)
  {
    LookKeepsIdentity(r.pending[port], first, now, e);
    hide Sampled;
  }

  /** The run of a deferring start is on no other port than the one it was started on. */
  lemma OnItsPortOnly(states: seq<System>, steps: seq<Step>, i: nat, n: nat, port: nat)
    requires Run(states, steps) && i < n < |states| && i < |steps| && Defers(states[i], steps[i])
    requires OnPortWith(states[n].runs, port, states[i].runs.generation + 1)
    ensures steps[i].Start? && port == steps[i].port
  {
    RunOrigins(states, steps, n);
    OriginRecorded(states, steps, i);
    OriginsPersist(states, steps, i + 1, n);
    hide Run, Defers;
  }

  lemma LookSteps(states: seq<System>, steps: seq<Step>, n: nat)
    requires Run(states, steps) && n < |steps| && n + 1 < |states| && steps[n].LookStep?
    ensures var t, r := steps[n].thread, states[n].runs;
      && t in r.threads && r.threads[t].Looking? && r.threads[t].port < PORTS == |r.pending|
      && states[n + 1].runs == LookEffect(r, t, r.threads[t].port, steps[n].first, steps[n].now, steps[n].encoder)
  {
    RunsNext(states, steps, n);
    hide Run, LookEffect, MotorsStep;
  }

  /** In every run: a visit of the timer ends a deferred timed run if and only if it comes to the run's
      port while the run is still there, not before the requested time has passed since the start. */
  lemma TimedEndsOnTime(states: seq<System>, steps: seq<Step>, i: nat, n: nat)
    requires Run(states, steps) && i < n < |steps| && n + 1 < |states| && Defers(states[i], steps[i])
    requires steps[i].request.Timed? && steps[n].LookStep?
    ensures steps[n].thread in states[n + 1].runs.threads
    ensures var g, port := states[i].runs.generation + 1, steps[i].port;
      EndsRun(states[n + 1].runs.threads[steps[n].thread], g) <==>
        && Visits(states[n], steps[n], port) && OnPortWith(states[n].runs, port, g)
        && steps[n].first >= steps[i].now + steps[i].request.time
  {
    LookSteps(states, steps, n);
    DeferringStart(states, steps, i);
    var r, t, g := states[n].runs, steps[n].thread, states[i].runs.generation + 1;
    var at := r.threads[t].port;
    LookEnds(r, t, at, steps[n].first, steps[n].now, steps[n].encoder);
    if OnPortWith(r, at, g) {
      OnItsPortOnly(states, steps, i, n, at);
      RecordIsFolded(states, steps, i, n);
      TimedFolded(StartedRun(states[i], steps[i]), VisitsSince(states, steps, i + 1, n, at));
    }
    hide Run, Defers, LookEffect, Folded, VisitsSince;
  }

  // ---- Degrees runs ---------------------------------------------------------------------------

  function AsVisits(polls: seq<Poll>): seq<Visit> {
    if polls == [] then [] else AsVisits(polls[..|polls| - 1]) + [polls[|polls| - 1].AsVisit()]
  }

  lemma {:induction false} PollsFolded(p: Pending, polls: seq<Poll>)
    ensures After(p, polls).Some? ==> Folded(p, AsVisits(polls)) == After(p, polls).value
  {
    if polls != [] {
      var front := polls[..|polls| - 1];
      PollsFolded(p, front);
      var all := AsVisits(front) + [polls[|polls| - 1].AsVisit()];
      assert all[..|all| - 1] == AsVisits(front);
      hide LookAt;
    }
  }

  /** What the timer knows of a degrees run: `polls` are its visits to the port so far, none of which
      has ended the run, and `poll` is the one of step `n`, which finds it due. The encoder answers
      with the motor's true position, wrapped, or with EAGAIN. */
  ghost predicate Polled(states: seq<System>, steps: seq<Step>, i: nat, n: nat, x: int, polls: seq<Poll>, poll: Poll)
    requires Run(states, steps) && i < n < |steps| && n + 1 < |states| && Defers(states[i], steps[i])
  {
    var port, run := steps[i].port, StartedRun(states[i], steps[i]);
    && Visits(states[n], steps[n], port) && VisitOf(steps[n]) == poll.AsVisit()
    && OnPortWith(states[n].runs, port, states[i].runs.generation + 1)
    && VisitsSince(states, steps, i + 1, n, port) == AsVisits(polls) && After(run, polls).Some?
    && states[n].runs.pending[port].deadline <= poll.first
    && steps[i].request.Degrees? && steps[i].request.baseline == Wrap32(x) && Followable(run, x, polls + [poll])
  }

  /** Which way the request turns the motor. */
  function Turn(r: Request): int
    requires r.Degrees?
  {
    if (r.speed < 0) == (r.angle < 0) then 1 else -1
  }

  /** The run on the port is due again at this time. */
  predicate DueAgain(r: Runs, port: nat, time: nat) {
    port < |r.pending| && r.pending[port].active && r.pending[port].deadline == time
  }

  /** A degrees run is first due 20 ms after its start. */
  lemma DegreesFirstDue(states: seq<System>, steps: seq<Step>, i: nat)
    requires Run(states, steps) && i < |steps| && i + 1 < |states| && Defers(states[i], steps[i])
    requires steps[i].request.Degrees?
    ensures DueAgain(states[i + 1].runs, steps[i].port, steps[i].now + 20)
  {
    RunsNext(states, steps, i);
    StartLeavesRecord(states[i], steps[i]);
    hide Run, RunsStep;
  }

  /** In every run, a visit that finds a degrees run due ends it with success if and only if the motor
      has truly turned by at least the requested angle, the requested way, since the start; it lets it
      go on, due again 20 ms later, if and only if that is not so, 60 seconds have not passed since the
      start, and the motor has moved within the last second; else it ends it with a time-out. */
  lemma DegreesEndExactly(states: seq<System>, steps: seq<Step>, i: nat, n: nat, x: int, polls: seq<Poll>, poll: Poll)
    requires Run(states, steps) && i < n < |steps| && n + 1 < |states| && Defers(states[i], steps[i])
    requires Polled(states, steps, i, n, x, polls, poll)
    ensures steps[n].thread in states[n + 1].runs.threads
    ensures var th, request := states[n + 1].runs.threads[steps[n].thread], steps[i].request;
      var run, angle := StartedRun(states[i], steps[i]), if request.angle < 0 then -request.angle else request.angle;
      var turned := (Seen(run, x, polls + [poll]) - x) * Turn(request);
      var moved := Moved(run, x, polls + [poll], steps[i].now);
      if turned >= angle then EndsRun(th, states[i].runs.generation + 1) && th.motion == 0
      else if poll.now < steps[i].now + 60000 && poll.now - moved < 1000 then
        th == Looking(steps[i].port + 1) && DueAgain(states[n + 1].runs, steps[i].port, poll.now + 20)
      else EndsRun(th, states[i].runs.generation + 1) && th.motion == -110
  {
    var run, port := StartedRun(states[i], steps[i]), steps[i].port;
    StartedDegrees(states, steps, i);
    LookSteps(states, steps, n);
    DeferringStart(states, steps, i);
    RecordIsFolded(states, steps, i, n);
    PollsFolded(run, polls);
    LookEnds(states[n].runs, steps[n].thread, port, poll.first, poll.now, poll.Reading());
    SucceedsExactlyWhenReached(run, x, polls, poll);
    ContinuesExactlyWhileProgressing(run, x, polls, poll);
    NoSampleError(run, x, polls, poll);
    hide *;
  }

  /** Any other answer of the encoder ends the run with that answer. */
  lemma EncoderErrorEnds(states: seq<System>, steps: seq<Step>, i: nat, n: nat)
    requires Run(states, steps) && i < n < |steps| && n + 1 < |states| && Defers(states[i], steps[i])
    requires steps[i].request.Degrees? && Visits(states[n], steps[n], steps[i].port)
    requires OnPortWith(states[n].runs, steps[i].port, states[i].runs.generation + 1)
    requires states[n].runs.pending[steps[i].port].deadline <= steps[n].first
    requires steps[n].encoder.rc != 0 && steps[n].encoder.rc != -11
    ensures steps[n].thread in states[n + 1].runs.threads
    ensures var th := states[n + 1].runs.threads[steps[n].thread];
      EndsRun(th, states[i].runs.generation + 1) && th.motion == steps[n].encoder.rc
  {
    var port := steps[i].port;
    LookSteps(states, steps, n);
    RunOrigins(states, steps, n);
    OriginRecorded(states, steps, i);
    OriginsPersist(states, steps, i + 1, n);
    LookEnds(states[n].runs, steps[n].thread, port, steps[n].first, steps[n].now, steps[n].encoder);
    hide Run, Defers, LookEffect;
  }

  /** What start_degrees records of its request. */
  lemma StartedDegrees(states: seq<System>, steps: seq<Step>, i: nat)
    requires Run(states, steps) && i < |steps| && i < |states| && Defers(states[i], steps[i])
    requires steps[i].request.Degrees?
    ensures var run, request := StartedRun(states[i], steps[i]), steps[i].request;
      && run.active && run.degrees && run.lastPosition == request.baseline && run.displacement == 0
      && run.direction == Turn(request) && run.target == (if request.angle < 0 then -request.angle else request.angle)
      && run.expires == steps[i].now + 60000 && run.progress == steps[i].now
  {
    RunsNext(states, steps, i);
    hide Run, RunsStep;
  }

  lemma NoSampleError(p: Pending, x: int, polls: seq<Poll>, poll: Poll)
    requires p.active && p.degrees && p.lastPosition == Wrap32(x) && p.displacement == 0
    requires Followable(p, x, polls + [poll]) && After(p, polls).Some? && After(p, polls).value.deadline <= poll.first
    ensures var look := LookAt(After(p, polls).value, poll.first, poll.now, poll.Reading());
      !look.NotDue? && (look.Finish? ==> look.motion == 0 || look.motion == -110)
  {
    hide Wrap32, RawDelta, Sampled;
    LastPoll(p, x, polls, poll);
    DisplacementExact(p, x, polls);
    SampleOfPoll(After(p, polls).value, poll, Seen(p, x, polls));
    hide Followable, After, Seen;
  }

  // ---- What the end call is told --------------------------------------------------------------

  /** The end call of an expired run names the port and the token of its start, and the end state that
      was requested, or braking after a motion that failed. */
  lemma EndCallNames(states: seq<System>, steps: seq<Step>, i: nat, e: nat, t: nat, port: nat, run: Pending,
                     motion: int)
    requires Run(states, steps) && i < |steps| && Defers(states[i], steps[i])
      && EndsAt(states, steps, e, t, port, run, motion)
    requires run.generation == states[i].runs.generation + 1
    ensures NextEnd(states[e].runs.threads[t]) ==
      Some(EndArgs(steps[i].port, StartToken(states[i].motors, steps[i].request),
                   if motion < 0 then 1 else steps[i].request.endState))
  {
    EndingIsOriginal(states, steps, i, e, t, port, run, motion);
    RunOrigins(states, steps, e);
    assert ThreadKnown(states[e].runs.origins, states[e].runs.threads[t]);
    OriginRecorded(states, steps, i);
    OriginsPersist(states, steps, i + 1, e);
    hide Run, Defers;
  }

  /** The start in this step finds the timer refusing. */
  predicate FailsToArm(s: System, step: Step)
    requires Shaped(s) && Enabled(s, step)
  {
    step.Start? && !s.runs.pending[step.port].active && step.rc == 0 && step.armRc < 0
  }

  /** A start whose timer cannot be armed ends its own motion at once: braking a degrees run, with the
      requested end state otherwise. Runs that are aborted or dropped are braked. */
  lemma OtherEndCallsName(states: seq<System>, steps: seq<Step>, n: nat)
    requires Run(states, steps) && n < |steps| && n + 1 < |states|
    ensures FailsToArm(states[n], steps[n]) ==>
      var request, t := steps[n].request, states[n].runs.nextThread;
      && t in states[n + 1].runs.threads
      && NextEnd(states[n + 1].runs.threads[t]) ==
           Some(EndArgs(steps[n].port, StartToken(states[n].motors, request),
                        if request.Degrees? then 1 else request.endState))
    ensures steps[n].EndStep? ==>
      var th := states[n].runs.threads[steps[n].thread];
      (th.Aborting? || th.Dropping?) && NextEnd(th).Some? ==> NextEnd(th).value.endState == 1
  {
    RunsNext(states, steps, n);
    hide Run, NewRun;
  }

  // ---- When the timer comes -------------------------------------------------------------------

  /** The delay is as short as the earliest deadline asks for, and not shorter than a millisecond: once
      it has passed some run is due, unless that is more than a 32-bit delay away, and until then none
      is overdue that was not so already. */
  lemma DelayReachesEarliest(runs: seq<Pending>, now: nat)
    requires forall p | p in runs && p.active :: p.deadline < UINT64_MAX
    ensures Delay(runs, now).None? <==> forall p | p in runs :: !p.active
    ensures Delay(runs, now).Some? ==>
      var d := Delay(runs, now).value;
      && 1 <= d <= 0xFFFF_FFFF
      && (d == 0xFFFF_FFFF || exists p | p in runs :: p.active && p.deadline <= now + d)
      && (forall p | p in runs && p.active :: now + d <= (if p.deadline <= now then now + 1 else p.deadline))
  {
    assert forall p | p in runs && p.active :: Earliest(runs) <= p.deadline;
    hide Earliest;
  }
}
