/** What the timer's answer to a deferred run says, from the request to the reply. */
module MotorExpiry {
  import opened Basics
  import opened MotorModel
  import opened MotorSystem
  import opened MotorFates
  import opened MotorOwnership
  import opened MotorTheorems
  import opened MotorReplies

  // ---- Where a thread's result comes from ----------------------------------------------------

  /** In step `e` thread `t` ended `run` on `port` after a motion that came to `motion`. */
  ghost predicate EndsAt(states: seq<System>, steps: seq<Step>, e: nat, t: nat, port: nat, run: Pending, motion: int) {
    && e < |steps| && e < |states| && steps[e].EndStep? && steps[e].thread == t
    && t in states[e].runs.threads && states[e].runs.threads[t] == Ending(port, run, motion)
  }

  /** What that end call was answered. */
  ghost function EndedWith(states: seq<System>, steps: seq<Step>, e: nat, port: nat, run: Pending): int
    requires e < |steps| && e < |states| && steps[e].EndStep? && states[e].motors.backend.Sized()
  {
    EndOwned(states[e].motors.backend, Classic, port, run.token, steps[e].rc, steps[e].coasted).rc
  }

  predicate Holding(th: Thread, port: nat, run: Pending, rc: int) {
    th == Claiming(port, run, rc) || th == Replying(port, run, rc)
  }

  /** One step back: the thread already held the result, or has just got it from its end call. */
  lemma HoldsSince(s: System, step: Step, t: nat, port: nat, run: Pending, rc: int)
    requires Inv(s) && Enabled(s, step) && t in RunsStep(s, step).threads
      && Holding(RunsStep(s, step).threads[t], port, run, rc)
    ensures t in s.runs.threads
    ensures Holding(s.runs.threads[t], port, run, rc) ||
      (&& step.EndStep? && step.thread == t && s.runs.threads[t].Ending?
       && s.runs.threads[t].port == port && s.runs.threads[t].run == run
       && (var answer := EndOwned(s.motors.backend, Classic, port, run.token, step.rc, step.coasted).rc;
           rc == if answer == 0 then s.runs.threads[t].motion else answer))
  {
    SpawnHoldsNothing(s, step, t);
    if !StepOf(step, t) {
      OthersStay(s, step, t);
    } else {
      OwnStepHolds(s, step, t, port, run, rc);
    }
  }

  /** A new thread has no result yet. */
  lemma SpawnHoldsNothing(s: System, step: Step, t: nat)
    requires Shaped(s) && Enabled(s, step)
    ensures t in RunsStep(s, step).threads && t !in s.runs.threads ==>
      !RunsStep(s, step).threads[t].Claiming? && !RunsStep(s, step).threads[t].Replying?
  {
    hide EndAnswer, NewRun, MotorsStep, LookEffect, EndEffect, ClaimEffect, ReplyEffect, ArmEffect, StopEffect;
  }

  lemma OwnStepHolds(s: System, step: Step, t: nat, port: nat, run: Pending, rc: int)
    requires Shaped(s) && Enabled(s, step) && t in RunsStep(s, step).threads
      && Holding(RunsStep(s, step).threads[t], port, run, rc)
    requires t in s.runs.threads && StepOf(step, t)
    ensures Holding(s.runs.threads[t], port, run, rc) ||
      (&& step.EndStep? && step.thread == t && s.runs.threads[t].Ending?
       && s.runs.threads[t].port == port && s.runs.threads[t].run == run
       && (var answer := EndOwned(s.motors.backend, Classic, port, run.token, step.rc, step.coasted).rc;
           rc == if answer == 0 then s.runs.threads[t].motion else answer))
  {
    hide EndOwned, MotorsStep, EndEffect, ReplyEffect, ArmEffect, StartEffect, CancelEffect, AnyActive, LookEffect,
         ClaimEffect;
    match step
    case LookStep(u, first, now, e) => LookHoldsNothing(s.runs, u, s.runs.threads[u].port, first, now, e);
    case EndStep(u, device, coasted) => EndHolds(s, u, device, coasted, port, run, rc);
    case ClaimStep(u) => ClaimHolds(s.runs, u);
    case ReplyStep(u) => ReplyHoldsNothing(s.runs, u);
    case ArmStep(u, armRc) => ArmHoldsNothing(s.runs, u, armRc);
    case _ =>
  }

  lemma LookHoldsNothing(r: Runs, t: nat, port: nat, first: nat, now: nat, e: Encoder)
    requires |r.pending| == PORTS && port < PORTS
    ensures var q := LookEffect(r, t, port, first, now, e).threads; t in q && (q[t].Looking? || q[t].Ending?)
  {
    hide LookAt;
  }

  lemma ClaimHolds(r: Runs, t: nat)
    requires |r.pending| == PORTS && t in r.threads && r.threads[t].Claiming? && r.threads[t].port < PORTS
    ensures var th := r.threads[t];
      var q := ClaimEffect(r, t, th.port, th.run, th.rc).threads;
      t in q && (q[t] == Replying(th.port, th.run, th.rc) || q[t] == Looking(th.port + 1))
  {
  }

  lemma EndHolds(s: System, t: nat, device: int, coasted: bool, port: nat, run: Pending, rc: int)
    requires Shaped(s) && Enabled(s, EndStep(t, device, coasted))
    requires var q := EndEffect(s.runs, t, s.runs.threads[t], EndAnswer(s, t, device, coasted)).threads;
      t in q && Holding(q[t], port, run, rc)
    ensures s.runs.threads[t].Ending? && s.runs.threads[t].port == port && s.runs.threads[t].run == run
    ensures var answer := EndOwned(s.motors.backend, Classic, port, run.token, device, coasted).rc;
      rc == if answer == 0 then s.runs.threads[t].motion else answer
  {
    hide EndOwned;
  }

  lemma ReplyHoldsNothing(r: Runs, t: nat)
    requires t in r.threads && (r.threads[t].Replying? || r.threads[t].CancelReply? || r.threads[t].AbortReply?)
    ensures var q := ReplyEffect(r, t, r.threads[t]).threads;
      t in q && (q[t].Looking? || q[t].Aborting? || q[t].AbortReply?)
  {
  }

  lemma ArmHoldsNothing(r: Runs, t: nat, rc: int)
    requires t in r.threads && (r.threads[t].Rearming? || r.threads[t].Looking?)
    ensures var q := ArmEffect(r, t, r.threads[t], rc).threads; t in q ==> q[t].Aborting? || q[t].CancelReply?
  {
  }

  lemma {:induction false} ResultComesFrom(states: seq<System>, steps: seq<Step>, n: nat, t: nat, port: nat,
                                           run: Pending, rc: int)
      returns (e: nat, motion: int)
    requires Run(states, steps) && n < |states| && t in states[n].runs.threads
      && Holding(states[n].runs.threads[t], port, run, rc)
    ensures e < n && EndsAt(states, steps, e, t, port, run, motion) && states[e].motors.backend.Sized()
    ensures rc == if EndedWith(states, steps, e, port, run) == 0 then motion else EndedWith(states, steps, e, port, run)
    decreases n
  {
    if n > 0 {
      RunInv(states, steps, n - 1);
      RunsNext(states, steps, n - 1);
      assert Shaped(states[n - 1]);
      hide Run, Inv, RunsStep, MotorsStep, Enabled, EndOwned;
      HoldsSince(states[n - 1], steps[n - 1], t, port, run, rc);
      if Holding(states[n - 1].runs.threads[t], port, run, rc) {
        e, motion := ResultComesFrom(states, steps, n - 1, t, port, run, rc);
      } else {
        e, motion := n - 1, states[n - 1].runs.threads[t].motion;
      }
    }
  }

  // ---- Generations only grow -----------------------------------------------------------------

  lemma GenerationStep(s: System, step: Step)
    requires Shaped(s) && Enabled(s, step)
    ensures s.runs.generation <= RunsStep(s, step).generation
  {
    hide EndAnswer, StartEffect, LookEffect, EndEffect, ClaimEffect, ReplyEffect, ArmEffect, CancelEffect, StopEffect;
  }

  lemma {:induction false} GenerationGrows(states: seq<System>, steps: seq<Step>, i: nat, n: nat)
    requires Run(states, steps) && i <= n < |states|
    ensures states[i].runs.generation <= states[n].runs.generation
    decreases n
  {
    hide *;
    if i < n {
      RunLength(states, steps);
      GenerationGrows(states, steps, i, n - 1);
      RunsNext(states, steps, n - 1);
      GenerationStep(states[n - 1], steps[n - 1]);
    }
  }

  // ---- From the request to the answer ----------------------------------------------------------

  /** A run that a thread is ending was started by the deferring step of its generation: after it,
      on that port and under the token that start was given. */
  lemma EndingIsOriginal(states: seq<System>, steps: seq<Step>, i: nat, e: nat, t: nat, port: nat, run: Pending,
                         motion: int)
    requires Run(states, steps) && i < |steps| && Defers(states[i], steps[i])
      && EndsAt(states, steps, e, t, port, run, motion)
    requires run.generation == states[i].runs.generation + 1
    ensures i < e && port == steps[i].port && run.token == StartToken(states[i].motors, steps[i].request)
    ensures steps[i].request.Timed? ==> motion == 0
  {
    RunOrigins(states, steps, e);
    assert ThreadKnown(states[e].runs.origins, states[e].runs.threads[t]);
    assert run.generation <= states[e].runs.generation;
    if e <= i { GenerationGrows(states, steps, e, i); }
    OriginRecorded(states, steps, i);
    OriginsPersist(states, steps, i + 1, e);
    hide Run, Defers;
  }

  /** What the end call of a run is answered: it depends on the request's speed, on whether the port
      was touched since the start, and only then on the device. */
  lemma EndAnswered(states: seq<System>, steps: seq<Step>, i: nat, e: nat, rc: int, coasted: bool)
    requires Run(states, steps) && i < e < |states| && i < |steps| && Defers(states[i], steps[i])
    ensures Shaped(states[e]) && steps[i].port < PORTS
    ensures var request, p := steps[i].request, steps[i].port;
      EndOwned(states[e].motors.backend, Classic, p, StartToken(states[i].motors, request), rc, coasted).rc ==
        if Driven(request) == 0 then EINVAL
        else if !Untouched(states, steps, i, e, p) then ESTALE
        else rc
  {
    RunInv(states, steps, e);
    RunsNext(states, steps, i);
    assert steps[i].port < PORTS;
    if Driven(steps[i].request) != 0 {
      assert Grants(states[i], steps[i], Classic, steps[i].port);
      hide Run, Inv, Touches, Untouched, Grants, Defers;
      EndActsExactlyWhenUntouched(states, steps, i, e, Classic, steps[i].port, rc, coasted);
    }
  }

  /** In every run, the answer that the timer sends for a deferred request. There is an end call, in a
      step `e` after the start, on the start's port, after a motion that came to `motion` (0 for a timed
      run). The result is the motion's if and only if the request was driven, its port untouched since
      and the end accepted by the device; else it is EINVAL at speed 0, ESTALE when the port was touched,
      and the device's own error otherwise. */
  lemma ExpiryResult(states: seq<System>, steps: seq<Step>, i: nat, n: nat) returns (e: nat, motion: int)
    requires Run(states, steps) && i < n < |steps| && Defers(states[i], steps[i])
    requires steps[n].ReplyStep? && steps[n].thread in states[n].runs.threads
      && states[n].runs.threads[steps[n].thread].Replying?
    requires states[n].runs.threads[steps[n].thread].run.generation == states[i].runs.generation + 1
    ensures |states[n + 1].runs.replies| == |states[n].runs.replies| + 1
    ensures i < e < n && steps[i].port < PORTS
    ensures EndsAt(states, steps, e, steps[n].thread, steps[i].port, states[n].runs.threads[steps[n].thread].run,
                   motion)
    ensures steps[i].request.Timed? ==> motion == 0
    ensures var request, p := steps[i].request, steps[i].port;
      var reply, device := states[n + 1].runs.replies[|states[n].runs.replies|], steps[e].rc;
      && reply.generation == states[i].runs.generation + 1 && reply.id == request.id
      && reply.result ==
           if Driven(request) != 0 && Untouched(states, steps, i, e, p) && device == 0 then motion
           else if Driven(request) == 0 then EINVAL
           else if !Untouched(states, steps, i, e, p) then ESTALE
           else device
  {
    var t := steps[n].thread;
    var th := states[n].runs.threads[t];
    AnswerResults(states, steps, n);
    AnswersCarryTheirId(states, steps, i, n + 1, |states[n].runs.replies|);
    e, motion := ResultComesFrom(states, steps, n, t, th.port, th.run, th.rc);
    EndingIsOriginal(states, steps, i, e, t, th.port, th.run, motion);
    EndAnswered(states, steps, i, e, steps[e].rc, steps[e].coasted);
    hide Run, Untouched, EndOwned, Defers, RunsStep, MotorsStep;
  }

  // ---- Runs -------------------------------------------------------------------------------

  predicate Next(s: System, step: Step, t: System) { Shaped(s) && Enabled(s, step) && t == Apply(s, step) }

  lemma Extend(states: seq<System>, steps: seq<Step>, step: Step, t: System)
    returns (more: seq<System>, moreSteps: seq<Step>)
    requires Run(states, steps) && |states| == |steps| + 1 && Next(states[|steps|], step, t)
    ensures Run(more, moreSteps) && |more| == |moreSteps| + 1 && more[|moreSteps|] == t
    ensures more == states + [t] && moreSteps == steps + [step]
  {
    hide Shaped, Enabled, Apply;
    more, moreSteps := states + [t], steps + [step];
    forall i | 0 <= i < |moreSteps|
      ensures Shaped(more[i]) && Enabled(more[i], moreSteps[i]) && more[i + 1] == Apply(more[i], moreSteps[i])
    {
      if i < |steps| { assert more[i] == states[i] && more[i + 1] == states[i + 1] && moreSteps[i] == steps[i]; }
    }
  }

  lemma RunStarts(s: System)
    requires Initial(s)
    ensures Run([s], [])
  {
  }

  /** The six steps from a start at speed 0 to its answer, from rest. */
  lemma IdleRunSteps(s: System, id: Option<nat>, time: nat, endState: nat)
    returns (a: System, b: System, c: System, d: System, e: System, f: System)
    requires Initial(s) && 0 < time <= TIMED_MAX_MS && endState <= 1
    ensures Next(s, Start(0, Timed(id, 0, time, endState), 0, 0, 0), a) && Next(a, Fire, b)
    ensures Next(b, LookStep(0, time, time, Encoder(0, 0)), c) && Next(c, EndStep(0, 0, false), d)
    ensures Next(d, ClaimStep(0), e) && Next(e, ReplyStep(0), f)
    ensures f.runs.replies == [Reply(1, id, EINVAL)]
  {
    a := Apply(s, Start(0, Timed(id, 0, time, endState), 0, 0, 0));
    b := Apply(a, Fire);
    var run := NewRun(Timed(id, 0, time, endState), 0, 1, 0);
    assert b.runs.pending[0] == run && b.runs.threads == map[0 := Looking(0)] && b.runs.replies == [] && !b.runs.locked;
    c, d, e, f := IdleRunEnds(b, run, id, time);
  }

  lemma IdleRunEnds(b: System, run: Pending, id: Option<nat>, time: nat)
    returns (c: System, d: System, e: System, f: System)
    requires Shaped(b) && b.runs.pending[0] == run && b.runs.threads == map[0 := Looking(0)] && b.runs.replies == []
      && !b.runs.locked
    requires run.active && !run.degrees && run.deadline <= time && run.token == 0 && run.generation == 1 && run.id == id
    ensures Next(b, LookStep(0, time, time, Encoder(0, 0)), c) && Next(c, EndStep(0, 0, false), d)
    ensures Next(d, ClaimStep(0), e) && Next(e, ReplyStep(0), f)
    ensures f.runs.replies == [Reply(1, id, EINVAL)]
  {
    assert LookAt(run, time, time, Encoder(0, 0)) == Finish(run, 0);
    c := Apply(b, LookStep(0, time, time, Encoder(0, 0)));
    hide LookAt;
    d := Apply(c, EndStep(0, 0, false));
    e, f := IdleRunReplies(d, run, id);
  }

  lemma IdleRunReplies(d: System, run: Pending, id: Option<nat>) returns (e: System, f: System)
    requires Shaped(d) && d.runs.pending[0] == run && d.runs.threads == map[0 := Claiming(0, run, EINVAL)]
      && d.runs.replies == []
    requires !d.runs.locked && run.active && run.generation == 1 && run.id == id
    ensures Next(d, ClaimStep(0), e) && Next(e, ReplyStep(0), f) && f.runs.replies == [Reply(1, id, EINVAL)]
  {
    hide EndAnswer;
    e := Apply(d, ClaimStep(0));
    f := Apply(e, ReplyStep(0));
  }

  /** A timed request at speed 0 is accepted and deferred, and after its full time, with a device that
      accepts everything, answered with EINVAL: for every id, duration and end state that is accepted. */
  lemma IdleRunAnsweredInvalid(start: System, id: Option<nat>, time: nat, endState: nat)
    returns (states: seq<System>, steps: seq<Step>)
    requires Initial(start) && 0 < time <= 60000 && endState <= 1
    ensures Run(states, steps) && |steps| == 6
    ensures steps[0] == Start(0, Timed(id, 0, time, endState), 0, 0, 0) && Defers(states[0], steps[0])
    ensures states[6].runs.replies == [Reply(1, id, EINVAL)]
  {
    var a, b, c, d, e, f := IdleRunSteps(start, id, time, endState);
    hide Run, Next, Apply;
    RunStarts(start);
    states, steps := Extend([start], [], Start(0, Timed(id, 0, time, endState), 0, 0, 0), a);
    states, steps := Extend(states, steps, Fire, b);
    states, steps := Extend(states, steps, LookStep(0, time, time, Encoder(0, 0)), c);
    states, steps := Extend(states, steps, EndStep(0, 0, false), d);
    states, steps := Extend(states, steps, ClaimStep(0), e);
    states, steps := Extend(states, steps, ReplyStep(0), f);
    assert states[0] == start;
  }

  // ---- Generations ------------------------------------------------------------------------

  /** A connect report of this link. */
  predicate Connects(step: Step, link: Link) { step.Report? && step.link == link && step.connected }

  lemma GenerationKept(s: System, step: Step, link: Link)
    requires Shaped(s) && Enabled(s, step) && !Connects(step, link)
    ensures MotorsStep(s, step).backend.Generation(link) == s.motors.backend.Generation(link)
  {
    hide Cleared;
  }

  lemma {:induction false} GenerationUntil(states: seq<System>, steps: seq<Step>, i: nat, j: nat, link: Link)
    requires Run(states, steps) && i <= j < |states| && forall k | i <= k < j :: !Connects(steps[k], link)
    ensures states[j].motors.backend.Generation(link) == states[i].motors.backend.Generation(link)
    decreases j
  {
    if i < j {
      GenerationUntil(states, steps, i, j - 1, link);
      RunNext(states, steps, j - 1);
      hide Run, MotorsStep, RunsStep, Enabled;
      assert !Connects(steps[j - 1], link);
      GenerationKept(states[j - 1], steps[j - 1], link);
    }
  }

  /** Over a stretch where nothing but one connect of the owning link could end the ownership, it
      survives that connect if and only if it was taken under generation 0 or under the generation
      that connects. */
  lemma SurvivesConnectExactly(states: seq<System>, steps: seq<Step>, i: nat, j: nat, n: nat, link: Link, p: nat)
    requires Run(states, steps) && i < j < n < |states| && p < PORTS && Grants(states[i], steps[i], link, p)
    requires Connects(steps[j], link) && forall k | i < k < j :: !Connects(steps[k], link)
    requires forall k | i < k < n && k != j :: !Touches(states[k], steps[k], p)
    ensures Shaped(states[n])
    ensures var taken := states[i].motors.backend.Generation(link);
      states[n].motors.backend.token[p] == states[i].motors.backend.nextToken + 1 <==>
        taken == 0 || taken == steps[j].generation
  {
    RunInv(states, steps, i);
    RunInv(states, steps, j);
    RunInv(states, steps, n);
    RunNext(states, steps, i);
    RunNext(states, steps, j);
    var k, taken := states[i].motors.backend.nextToken + 1, states[i].motors.backend.Generation(link);
    GrantConnectsNothing(states[i], steps[i], link, p);
    GenerationUntil(states, steps, i, j, link);
    TokenInForce(states, steps, i, j, link, p);
    TokenInForce(states, steps, i, n, link, p);
    HeldIsToken(states[j], k, link, p, taken);
    assert Untouched(states, steps, i, j, p) by { hide Touches, Run; }
    assert Touches(states[j], steps[j], p) <==> taken != 0 && taken != steps[j].generation by {
      hide Run, Inv, Untouched;
    }
    hide Run, Inv, Touches, Grants, MotorsStep, RunsStep;
    if taken == 0 || taken == steps[j].generation {
      assert Untouched(states, steps, i, n, p);
    } else {
      assert !Untouched(states, steps, i, n, p);
    }
  }

  lemma GrantConnectsNothing(s: System, step: Step, link: Link, p: nat)
    requires Shaped(s) && Enabled(s, step) && Grants(s, step, link, p)
    ensures !Connects(step, link)
  {
  }

  /** Ownership taken before the link's first connect does survive it. */
  lemma FirstConnectKeepsOwnership(start: System, link: Link, p: nat, generation: nat)
    returns (states: seq<System>, steps: seq<Step>)
    requires Initial(start) && p < PORTS && generation != 0
    ensures Run(states, steps) && |steps| == 2 && Grants(states[0], steps[0], link, p)
    ensures steps[1] == Report(link, true, generation)
    ensures Shaped(states[2]) && states[2].motors.backend.Held(link, p, states[0].motors.backend.nextToken + 1)
  {
    var command, report := Command(link, p, true, 0), Report(link, true, generation);
    var a := Apply(start, command);
    var b := Apply(a, report);
    assert Next(start, command, a) && Next(a, report, b);
    RunStarts(start);
    states, steps := Extend([start], [], command, a);
    states, steps := Extend(states, steps, report, b);
  }
}
