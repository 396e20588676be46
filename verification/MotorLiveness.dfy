/** Every owed answer can be sent, within a bounded number of steps. */
module MotorLiveness {
  import opened Basics
  import opened MotorModel
  import opened MotorSystem
  import opened MotorFates
  import opened MotorTheorems
  import opened MotorReplies
  import opened MotorExpiry

  // ---- The lock ---------------------------------------------------------------------------

  /** The lock is held between steps by a failing start, and by nothing else. */
  ghost predicate LockOk(r: Runs) {
    && (r.locked ==> exists t :: t in r.threads && r.threads[t].FailedStart?)
    && (forall t | t in r.threads && r.threads[t].FailedStart? :: r.locked)
    && (forall t, u | t in r.threads && u in r.threads && r.threads[t].FailedStart? && r.threads[u].FailedStart? ::
      t == u)
  }

  /** The step neither takes nor releases the lock, and moves no failing start. */
  lemma LockUnchanged(r: Runs, q: Runs, t: nat)
    requires LockOk(r) && OthersUnmoved(r, q, t) && q.locked == r.locked
    requires t in r.threads ==> !r.threads[t].FailedStart?
    requires t in q.threads ==> !q.threads[t].FailedStart?
    ensures LockOk(q)
  {
  }

  lemma StartLocks(r: Runs, port: nat, request: Request, now: nat, token: nat, armRc: int)
    requires LockOk(r) && !r.locked && |r.pending| == PORTS && port < PORTS
      && (forall t | t in r.threads :: t < r.nextThread)
    ensures LockOk(StartEffect(r, port, request, now, token, armRc))
  {
    hide NewRun;
    var q := StartEffect(r, port, request, now, token, armRc);
    if armRc < 0 { assert r.nextThread in q.threads && q.threads[r.nextThread].FailedStart?; }
  }

  lemma EndUnlocks(r: Runs, t: nat, rc: int)
    requires LockOk(r) && t in r.threads
    ensures LockOk(EndEffect(r, t, r.threads[t], rc))
    ensures r.threads[t].FailedStart? ==> !EndEffect(r, t, r.threads[t], rc).locked
  {
    NextNeverFails(r.threads[t], rc);
    hide AfterEnd;
    if !r.threads[t].FailedStart? { LockUnchanged(r, EndEffect(r, t, r.threads[t], rc), t); }
  }

  lemma NextNeverFails(th: Thread, rc: int)
    ensures AfterEnd(th, rc).Some? ==> !AfterEnd(th, rc).value.FailedStart?
  {
  }

  /** Where the other steps take their thread, and that they leave the lock alone. */
  lemma OthersLeaveLock(s: System, step: Step)
    requires Inv(s) && LockOk(s.runs) && Enabled(s, step) && !step.Start? && !step.EndStep?
    ensures LockOk(RunsStep(s, step))
  {
    PortCount(s.runs);
    var r, q := s.runs, RunsStep(s, step);
    var t := if step.LookStep? || step.ClaimStep? || step.ReplyStep? || step.StopTimer? || step.ArmStep?
      then step.thread else r.nextThread;
    assert t in r.threads ==> !r.threads[t].FailedStart?;
    OwnThread(s, step, t);
    hide Inv, Enabled, RunsStep, LockOk;
    LockUnchanged(r, q, t);
  }

  lemma OwnThread(s: System, step: Step, t: nat)
    requires Shaped(s) && Enabled(s, step) && !step.Start? && !step.EndStep?
    requires t == (if step.LookStep? || step.ClaimStep? || step.ReplyStep? || step.StopTimer? || step.ArmStep?
      then step.thread
                   else s.runs.nextThread)
    requires t in s.runs.threads ==> !s.runs.threads[t].FailedStart?
    ensures OthersUnmoved(s.runs, RunsStep(s, step), t) && RunsStep(s, step).locked == s.runs.locked
    ensures t in RunsStep(s, step).threads ==> !RunsStep(s, step).threads[t].FailedStart?
  {
    hide LookAt, EndAnswer, AnyActive, MotorsStep;
  }

  lemma LockStep(s: System, step: Step)
    requires Inv(s) && LockOk(s.runs) && Enabled(s, step)
    ensures LockOk(RunsStep(s, step))
  {
    PortCount(s.runs);
    hide Inv, LockOk, StartEffect, EndEffect, EndAnswer;
    match step
    case Start(port, request, now, rc, armRc) =>
      if !s.runs.pending[port].active && rc == 0 {
        StartLocks(s.runs, port, request, now, StartToken(s.motors, request), armRc);
      }
    case EndStep(t, rc, coasted) => EndUnlocks(s.runs, t, EndAnswer(s, t, rc, coasted));
    case _ => OthersLeaveLock(s, step);
  }

  lemma {:induction false} RunLock(states: seq<System>, steps: seq<Step>, n: nat)
    requires Run(states, steps) && n < |states|
    ensures LockOk(states[n].runs)
    decreases n
  {
    hide Inv, LockOk, RunsStep, MotorsStep, Enabled;
    if n == 0 {
      InitialLock(states[0]);
    } else {
      RunLock(states, steps, n - 1);
      RunInv(states, steps, n - 1);
      RunsNext(states, steps, n - 1);
      LockStep(states[n - 1], steps[n - 1]);
    }
  }

  lemma InitialLock(s: System)
    requires Initial(s)
    ensures LockOk(s.runs)
  {
  }

  // ---- One more step ------------------------------------------------------------------------

  /** What a thread that owes an answer does next, with a device and a timer that answer 0. */
  function NextStep(th: Thread, t: nat): Step {
    match th
    case Cancelling(_) => StopTimer(t)
    case Rearming(_) => ArmStep(t, 0)
    case Aborting(_, _, _) => EndStep(t, 0, false)
    case _ => ReplyStep(t)
  }

  ghost predicate Settled(r: Runs, g: nat) { exists i :: AnsweredAt(r, g, i) }

  /** It is answered by that step, or still owed by the thread. */
  lemma OwedOrSettled(s: System, t: nat, g: nat)
    requires Inv(s) && !s.runs.locked && OwedBy(s.runs, g, t)
    ensures Enabled(s, NextStep(s.runs.threads[t], t)) && StepOf(NextStep(s.runs.threads[t], t), t)
    ensures var q := RunsStep(s, NextStep(s.runs.threads[t], t)); Settled(q, g) || OwedBy(q, g, t)
  {
    PortCount(s.runs);
    var r, th := s.runs, s.runs.threads[t];
    hide Inv, Distinct, Listed, Settled, AnyActive, ReplyEffect, EndEffect, ArmEffect, StopEffect;
    match th
    case Aborting(_, _, _) => AbortingStep(r, t, g, EndAnswer(s, t, 0, false));
    case Cancelling(_) => CancellingStep(r, t, g);
    case Rearming(_) => CancellingStep(r, t, g);
    case _ => ReplyingStep(r, t, g);
  }

  lemma CancellingStep(r: Runs, t: nat, g: nat)
    requires OwedBy(r, g, t) && (r.threads[t].Cancelling? || r.threads[t].Rearming?)
    ensures r.threads[t].Cancelling? ==> OwedBy(StopEffect(r, t, r.threads[t]), g, t)
    ensures r.threads[t].Rearming? ==> OwedBy(ArmEffect(r, t, r.threads[t], 0), g, t)
  {
    hide Listed, AnyActive;
  }

  lemma AbortingStep(r: Runs, t: nat, g: nat, rc: int)
    requires OwedBy(r, g, t) && r.threads[t].Aborting?
    ensures OwedBy(EndEffect(r, t, r.threads[t], rc), g, t)
  {
    AbortingOwes(r.threads[t].failed, r.threads[t].port, g);
    hide Listed;
  }

  lemma ReplyingStep(r: Runs, t: nat, g: nat)
    requires OwedBy(r, g, t) && (r.threads[t].Replying? || r.threads[t].CancelReply? || r.threads[t].AbortReply?)
    ensures var q := ReplyEffect(r, t, r.threads[t]); Settled(q, g) || OwedBy(q, g, t)
  {
    hide Settled;
    match r.threads[t]
    case Replying(_, run, rc) => SettlesOwn(r, run, rc);
    case CancelReply(run, failed, _) =>
      SettlesOwn(r, run, 0);
      hide Listed;
    case AbortReply(failed, _, port, rc) =>
      AbortingOwes(failed, port, g);
      SettlesOwn(r, failed[port], rc);
      hide Listed;
  }

  lemma SettlesOwn(r: Runs, run: Pending, result: int)
    ensures AnsweredAt(Answer(r, run, result), run.generation, |r.replies|)
    ensures forall t, th :: Settled(Move(Answer(r, run, result), t, th), run.generation)
  {
    forall t, th ensures Settled(Move(Answer(r, run, result), t, th), run.generation) {
      assert AnsweredAt(Move(Answer(r, run, result), t, th), run.generation, |r.replies|);
    }
  }

  lemma AbortingOwes(failed: seq<Pending>, port: nat, g: nat)
    requires Listed(failed, port, g)
    ensures port < |failed|
    ensures (failed[port].active && failed[port].generation == g) || Listed(failed, port + 1, g)
  {
  }

  // ---- To the answer ------------------------------------------------------------------------

  /** How many steps until the answer is out at the latest. */
  function Bound(r: Runs, th: Thread): nat
    requires WellFormed(th)
  {
    Rank(th) + if r.locked then 1 else 0
  }

  /** A failing start that holds the lock ends its motor and lets go; the owing thread is not touched. */
  lemma Unlocking(s: System, t: nat, g: nat) returns (u: nat)
    requires Inv(s) && LockOk(s.runs) && s.runs.locked && OwedBy(s.runs, g, t)
    ensures Enabled(s, EndStep(u, 0, false))
    ensures var q := RunsStep(s, EndStep(u, 0, false));
      !q.locked && OwedBy(q, g, t) && q.threads[t] == s.runs.threads[t]
  {
    u :| u in s.runs.threads && s.runs.threads[u].FailedStart?;
    assert u != t;
    var q := RunsStep(s, EndStep(u, 0, false));
    EndUnlocks(s.runs, u, EndAnswer(s, u, 0, false));
    hide Inv, LockOk, EndAnswer, Owes, AfterEnd;
  }

  /** From every reachable state in which a thread owes the answer to `g`, the run can go on so that it
      is sent, in a number of steps bounded by the thread's rank, and one more if a failing start still
      holds the lock. */
  lemma {:induction false} OwedAnswerFollows(states: seq<System>, steps: seq<Step>, g: nat, t: nat)
      returns (more: seq<System>, moreSteps: seq<Step>)
    requires Run(states, steps) && |states| == |steps| + 1 && OwedBy(states[|steps|].runs, g, t)
    ensures WellFormed(states[|steps|].runs.threads[t])
    ensures Run(more, moreSteps) && |more| == |moreSteps| + 1 && steps <= moreSteps && states <= more
    ensures |moreSteps| <= |steps| + Bound(states[|steps|].runs, states[|steps|].runs.threads[t])
    ensures Settled(more[|moreSteps|].runs, g)
    decreases Measure(states[|steps|], t)
  {
    var s := states[|steps|];
    RunInv(states, steps, |steps|);
    RunLock(states, steps, |steps|);
    PortCount(s.runs);
    assert Shaped(s);
    var step: Step;
    if s.runs.locked {
      var u := Unlocking(s, t, g);
      step := EndStep(u, 0, false);
    } else {
      OwedOrSettled(s, t, g);
      step := NextStep(s.runs.threads[t], t);
      ThreadProgress(s, step, t);
    }
    var next := Apply(s, step);
    assert next.runs == RunsStep(s, step);
    assert Next(s, step, next);
    hide Run, Inv, LockOk, Apply, RunsStep, MotorsStep, Enabled, Owes, Settled, Next, WellFormed, Rank;
    more, moreSteps := Extend(states, steps, step, next);
    if !Settled(next.runs, g) {
      more, moreSteps := OwedAnswerFollows(more, moreSteps, g, t);
    }
  }

  ghost function Measure(s: System, t: nat): nat {
    if t in s.runs.threads && WellFormed(s.runs.threads[t]) then Bound(s.runs, s.runs.threads[t]) else 0
  }
}
