/** Whether somebody will come back to a pending run: the timer, or a thread that arms it. */
module MotorTimer {
  import opened Basics
  import opened MotorModel
  import opened MotorSystem
  import opened MotorFates
  import opened MotorTheorems
  import opened MotorExpiry

  /** The thread arms the timer before it returns. */
  predicate WillArm(th: Thread) {
    th.Looking? || th.Ending? || th.Claiming? || th.Replying? || th.Cancelling? || th.Rearming?
  }

  predicate SomeArming(r: Runs) { exists t | t in r.threads :: WillArm(r.threads[t]) }

  /** If a run is pending, the timer is running or some thread will arm it. */
  predicate Attended(r: Runs) { AnyActive(r.pending) ==> r.armed || SomeArming(r) }

  /** The one step that loses the timer: a disconnect stops it, outside the lock, after a new run has
      been started, and no thread is about to arm it again. */
  predicate LosesTimer(r: Runs, step: Step) {
    && step.StopTimer? && step.thread in r.threads && r.threads[step.thread].Unhooking?
    && AnyActive(r.pending) && !SomeArming(r)
  }

  // ---- Steps of threads ---------------------------------------------------------------------

  /** The step's own thread stays one that will arm, or the timer is running or not needed now. */
  lemma StaysArming(r: Runs, q: Runs, t: nat)
    requires Attended(r) && OthersUnmoved(r, q, t) && t in r.threads
    requires WillArm(r.threads[t]) ==> (t in q.threads && WillArm(q.threads[t])) || q.armed || !AnyActive(q.pending)
    requires (q.armed || !r.armed) && (AnyActive(q.pending) ==> AnyActive(r.pending))
    ensures Attended(q)
  {
    hide AnyActive, WillArm;
    if AnyActive(q.pending) && !q.armed {
      var u :| u in r.threads && WillArm(r.threads[u]);
      assert u in q.threads;
    }
  }

  lemma NothingPending()
    ensures !AnyActive(NONE_PENDING)
  {
  }

  lemma PortActive(list: seq<Pending>, port: nat, run: Pending)
    requires port < |list| && (run.active ==> list[port].active)
    ensures AnyActive(list[port := run]) ==> AnyActive(list)
  {
    if AnyActive(list[port := run]) {
      var p :| 0 <= p < |list[port := run]| && list[port := run][p].active;
      assert list[p].active;
    }
  }

  lemma LookAttends(r: Runs, t: nat, port: nat, first: nat, now: nat, e: Encoder)
    requires Attended(r) && |r.pending| == PORTS && port < PORTS && t in r.threads && r.threads[t] == Looking(port)
    ensures Attended(LookEffect(r, t, port, first, now, e))
  {
    var look := LookAt(r.pending[port], first, now, e);
    assert !look.NotDue? ==> r.pending[port].active;
    hide LookAt, AnyActive, Attended;
    if !look.NotDue? { PortActive(r.pending, port, look.run); }
    StaysArming(r, LookEffect(r, t, port, first, now, e), t);
  }

  lemma EndAttends(r: Runs, t: nat, rc: int)
    requires Attended(r) && t in r.threads
    ensures Attended(EndEffect(r, t, r.threads[t], rc))
  {
    EndKeepsArming(r.threads[t], rc);
    hide AnyActive, Attended, AfterEnd, WillArm;
    StaysArming(r, EndEffect(r, t, r.threads[t], rc), t);
  }

  lemma EndKeepsArming(th: Thread, rc: int)
    ensures WillArm(th) ==> AfterEnd(th, rc).Some? && WillArm(AfterEnd(th, rc).value)
  {
  }

  lemma ClaimAttends(r: Runs, t: nat, port: nat, run: Pending, rc: int)
    requires Attended(r) && |r.pending| == PORTS && port < PORTS && t in r.threads
    ensures Attended(ClaimEffect(r, t, port, run, rc))
  {
    hide AnyActive, Attended;
    PortActive(r.pending, port, r.pending[port].(active := false));
    StaysArming(r, ClaimEffect(r, t, port, run, rc), t);
  }

  lemma ReplyAttends(r: Runs, t: nat)
    requires Attended(r) && t in r.threads
    ensures Attended(ReplyEffect(r, t, r.threads[t]))
  {
    hide AnyActive, Attended;
    StaysArming(r, ReplyEffect(r, t, r.threads[t]), t);
  }

  lemma ArmAttends(r: Runs, t: nat, rc: int)
    requires Attended(r) && t in r.threads
    ensures Attended(ArmEffect(r, t, r.threads[t], rc))
  {
    NothingPending();
    hide AnyActive;
  }

  lemma StopAttends(r: Runs, t: nat)
    requires Attended(r) && t in r.threads && (r.threads[t].Cancelling? || r.threads[t].Unhooking?)
    ensures Attended(StopEffect(r, t, r.threads[t])) <==> !LosesTimer(r, StopTimer(t))
  {
    hide AnyActive;
    var q := StopEffect(r, t, r.threads[t]);
    if r.threads[t].Cancelling? {
      assert WillArm(q.threads[t]);
    } else if SomeArming(r) {
      var u :| u in r.threads && WillArm(r.threads[u]);
      assert u in q.threads && WillArm(q.threads[u]);
    } else {
      assert !SomeArming(q);
    }
  }

  // ---- Steps that start, cancel or drop -------------------------------------------------------

  lemma StartAttends(r: Runs, port: nat, request: Request, now: nat, token: nat, armRc: int)
    requires Attended(r) && |r.pending| == PORTS && port < PORTS && !r.pending[port].active
    requires forall t | t in r.threads :: t < r.nextThread
    ensures Attended(StartEffect(r, port, request, now, token, armRc))
  {
    hide AnyActive, NewRun, Attended, SomeArming;
    var q := StartEffect(r, port, request, now, token, armRc);
    if armRc < 0 {
      PortActive(r.pending, port, NewRun(request, now, r.generation + 1, token).(active := false));
      SpawnArming(r, q);
    } else {
      ArmedAttends(q);
    }
  }

  lemma ArmedAttends(q: Runs)
    requires q.armed || !AnyActive(q.pending)
    ensures Attended(q)
  {
  }

  /** A new thread takes nothing away. */
  lemma SpawnArming(r: Runs, q: Runs)
    requires Attended(r) && q.armed == r.armed && (AnyActive(q.pending) ==> AnyActive(r.pending))
    requires forall u | u in r.threads :: u in q.threads && (WillArm(r.threads[u]) ==> WillArm(q.threads[u]))
    ensures Attended(q)
  {
    hide AnyActive, WillArm;
    if AnyActive(q.pending) && !q.armed {
      var u :| u in r.threads && WillArm(r.threads[u]);
      assert u in q.threads && WillArm(q.threads[u]);
    }
  }

  lemma FireAttends(r: Runs)
    ensures Attended(Spawn(r.(armed := false), Looking(0)))
  {
    hide AnyActive;
    var q := Spawn(r.(armed := false), Looking(0));
    assert r.nextThread in q.threads && WillArm(q.threads[r.nextThread]);
  }

  lemma CancelAttends(r: Runs, port: nat)
    requires Attended(r) && |r.pending| == PORTS && port < PORTS
    ensures Attended(CancelEffect(r, port))
  {
    hide AnyActive;
    var q := CancelEffect(r, port);
    if r.pending[port].active { assert r.nextThread in q.threads && WillArm(q.threads[r.nextThread]); }
  }

  /** In every step, a run that was attended stays attended if and only if the step is not that one. */
  lemma AttendedExactly(s: System, step: Step)
    requires Inv(s) && Enabled(s, step) && Attended(s.runs)
    ensures Attended(RunsStep(s, step)) <==> !LosesTimer(s.runs, step)
  {
    PortCount(s.runs);
    hide Attended, AnyActive, SomeArming, EndAnswer, StartEffect, LookEffect, EndEffect, ClaimEffect, ReplyEffect,
         ArmEffect, StopEffect, CancelEffect, TakeAll, Inv;
    var r := s.runs;
    match step
    case Init => TakenAttends(r);
    case Start(port, request, now, rc, armRc) =>
      if !r.pending[port].active && rc == 0 {
        StartAttends(r, port, request, now, StartToken(s.motors, request), armRc);
      }
    case Fire => FireAttends(r);
    case LookStep(t, first, now, e) => LookAttends(r, t, r.threads[t].port, first, now, e);
    case EndStep(t, rc, coasted) => EndAttends(r, t, EndAnswer(s, t, rc, coasted));
    case ClaimStep(t) => ClaimAttends(r, t, r.threads[t].port, r.threads[t].run, r.threads[t].rc);
    case ReplyStep(t) => ReplyAttends(r, t);
    case StopTimer(t) => StopAttends(r, t);
    case ArmStep(t, rc) => ArmAttends(r, t, rc);
    case Cancel(port) => CancelAttends(r, port);
    case LinkDown => TakenAttends(r);
    case _ =>
  }

  lemma TakenAttends(r: Runs)
    ensures Attended(TakeAll(r, Dropped)) && Attended(LinkDownEffect(r))
  {
    NothingPending();
    hide AnyActive;
  }

  /** In every step: the timer runs afterwards exactly if it was just armed, by a start whose answer is
      deferred or by a thread that finds a run pending, or ran before and has neither fired nor been
      stopped. */
  lemma ArmedExactly(s: System, step: Step)
    requires Shaped(s) && Enabled(s, step)
    ensures RunsStep(s, step).armed <==>
      || (step.Start? && !s.runs.pending[step.port].active && step.rc == 0 && step.armRc == 0)
      || (step.ArmStep? && step.rc == 0 && exists p | 0 <= p < |s.runs.pending| :: s.runs.pending[p].active)
      || (s.runs.armed && !step.Fire? && !step.StopTimer?)
  {
    hide EndEffect, LookEffect, ReplyEffect, ClaimEffect, NewRun, EndAnswer, OthersUnmoved, Grows;
    match step
    case LookStep(t, first, now, e) => LookLeavesTimer(s.runs, t, s.runs.threads[t].port, first, now, e);
    case EndStep(t, rc, coasted) => PassingLeavesTimer(s.runs, t, EndAnswer(s, t, rc, coasted));
    case ReplyStep(t) => PassingLeavesTimer(s.runs, t, 0);
    case ClaimStep(t) =>
      ClaimLeavesTimer(s.runs, t, s.runs.threads[t].port, s.runs.threads[t].run, s.runs.threads[t].rc);
    case _ =>
  }

  lemma LookLeavesTimer(r: Runs, t: nat, port: nat, first: nat, now: nat, e: Encoder)
    requires |r.pending| == PORTS && port < PORTS
    ensures LookEffect(r, t, port, first, now, e).armed == r.armed
  {
    hide LookAt;
  }

  lemma PassingLeavesTimer(r: Runs, t: nat, rc: int)
    requires t in r.threads
    ensures EndEffect(r, t, r.threads[t], rc).armed == r.armed && ReplyEffect(r, t, r.threads[t]).armed == r.armed
  {
    hide AfterEnd;
  }

  lemma ClaimLeavesTimer(r: Runs, t: nat, port: nat, run: Pending, rc: int)
    requires |r.pending| == PORTS && port < PORTS
    ensures ClaimEffect(r, t, port, run, rc).armed == r.armed
  {
  }

  // ---- Runs -------------------------------------------------------------------------------

  /** As long as no disconnect stops the timer of a run that was started behind its back, every state
      with a pending run has a running timer or a thread that will arm it. */
  lemma {:induction false} PendingRunsAreAttended(states: seq<System>, steps: seq<Step>, n: nat)
    requires Run(states, steps) && n < |states|
    requires forall k | 0 <= k < n :: !LosesTimer(states[k].runs, steps[k])
    ensures Attended(states[n].runs)
    decreases n
  {
    hide Apply, Enabled, Attended, LosesTimer, Shaped, Inv;
    if n == 0 {
      InitialAttended(states[0]);
    } else {
      PendingRunsAreAttended(states, steps, n - 1);
      RunInv(states, steps, n - 1);
      assert Shaped(states[n - 1]) && Enabled(states[n - 1], steps[n - 1]);
      assert states[n].runs == RunsStep(states[n - 1], steps[n - 1]) by { AppliedRuns(states[n - 1], steps[n - 1]); }
      AttendedExactly(states[n - 1], steps[n - 1]);
    }
  }

  lemma AppliedRuns(s: System, step: Step)
    requires Shaped(s) && Enabled(s, step)
    ensures Apply(s, step).runs == RunsStep(s, step)
  {
    hide RunsStep, MotorsStep;
  }

  lemma InitialAttended(s: System)
    requires Initial(s)
    ensures Attended(s.runs)
  {
    NothingPending();
  }

  /** At rest between disconnect and stop: a disconnect has taken the runs but not yet stopped the timer. */
  lemma DisconnectBegins(s: System) returns (a: System)
    requires Initial(s)
    ensures Next(s, LinkDown, a) && a.motors == s.motors && a.runs.pending == NONE_PENDING && !a.runs.locked
    ensures a.runs.threads == map[0 := Unhooking(NONE_PENDING)]
  {
    a := Apply(s, LinkDown);
  }

  lemma StartSlipsIn(a: System, request: Request, now: nat) returns (b: System, c: System)
    requires Shaped(a) && a.runs.pending == NONE_PENDING && !a.runs.locked
      && a.runs.threads == map[0 := Unhooking(NONE_PENDING)]
    requires Acceptable(request)
    ensures Next(a, Start(0, request, now, 0, 0), b) && Next(b, StopTimer(0), c)
    ensures LosesTimer(b.runs, StopTimer(0))
    ensures c.runs.pending[0].active && !c.runs.armed && c.runs.threads == map[0 := Dropping(NONE_PENDING, 0)]
      && Shaped(c)
  {
    hide NewRun;
    b := Apply(a, Start(0, request, now, 0, 0));
    assert b.runs.pending[0].active && b.runs.threads == map[0 := Unhooking(NONE_PENDING)];
    c := Apply(b, StopTimer(0));
  }

  /** The disconnect has nothing left to end, and returns. */
  lemma {:induction false} DisconnectReturns(states: seq<System>, steps: seq<Step>, port: nat)
    returns (more: seq<System>, moreSteps: seq<Step>)
    requires Run(states, steps) && |states| == |steps| + 1 && port <= PORTS
    requires var c := states[|steps|];
      Shaped(c) && c.runs.pending[0].active && !c.runs.armed && c.runs.threads == map[0 := Dropping(NONE_PENDING, port)]
    ensures Run(more, moreSteps) && |more| == |moreSteps| + 1
    ensures var d := more[|moreSteps|];
      Shaped(d) && d.runs.pending[0].active && !d.runs.armed && d.runs.threads == map[]
    decreases PORTS - port
  {
    var c := states[|steps|];
    var d := Apply(c, EndStep(0, 0, false));
    assert Next(c, EndStep(0, 0, false), d);
    hide Run, Next;
    more, moreSteps := Extend(states, steps, EndStep(0, 0, false), d);
    if port < PORTS { more, moreSteps := DisconnectReturns(more, moreSteps, port + 1); }
  }

  /** For every request that is accepted, a run in which it is started between a disconnect's taking of
      the runs and its stopping of the timer, and which comes to rest with the run pending, no timer
      running and no thread left to arm it. */
  lemma DisconnectLosesTimer(start: System, request: Request, now: nat) returns (states: seq<System>, steps: seq<Step>)
    requires Initial(start) && Acceptable(request)
    ensures Run(states, steps) && |states| == |steps| + 1
    ensures var r := states[|steps|].runs; AnyActive(r.pending) && !r.armed && r.threads == map[] && !Attended(r)
  {
    var a := DisconnectBegins(start);
    var b, c := StartSlipsIn(a, request, now);
    RunStarts(start);
    hide Run, Next, Apply, Acceptable;
    states, steps := Extend([start], [], LinkDown, a);
    states, steps := Extend(states, steps, Start(0, request, now, 0, 0), b);
    states, steps := Extend(states, steps, StopTimer(0), c);
    states, steps := DisconnectReturns(states, steps, 0);
    assert states[|steps|].runs.pending[0].active;
  }
}
