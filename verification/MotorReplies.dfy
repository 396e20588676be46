/** Answers carry the id of the request that started the run, and the result its end deserves. */
module MotorReplies {
  import opened Basics
  import opened MotorModel
  import opened MotorSystem
  import opened MotorFates
  import opened MotorOwnership
  import opened MotorTheorems

  type Origins = map<nat, Origin>

  /** The run is the one its generation was started with. */
  predicate Original(o: Origins, run: Pending) {
    run.generation in o && o[run.generation].id == run.id && o[run.generation].token == run.token
    && o[run.generation].timed == !run.degrees && o[run.generation].endState == run.endState
  }

  predicate OriginalAt(o: Origins, port: nat, run: Pending) { Original(o, run) && o[run.generation].port == port }

  predicate ListKnown(o: Origins, list: seq<Pending>) {
    forall p | 0 <= p < |list| && list[p].active :: OriginalAt(o, p, list[p])
  }

  predicate ThreadKnown(o: Origins, th: Thread) {
    match th
    case Ending(port, run, motion) => OriginalAt(o, port, run) && (!run.degrees ==> motion == 0)
    case Claiming(port, run, _) => OriginalAt(o, port, run)
    case Replying(port, run, _) => OriginalAt(o, port, run)
    case Cancelling(run) => Original(o, run)
    case Rearming(run) => Original(o, run)
    case CancelReply(run, failed, _) => Original(o, run) && ListKnown(o, failed)
    case Aborting(failed, _, _) => ListKnown(o, failed)
    case AbortReply(failed, _, port, _) => ListKnown(o, failed)
    case _ => true
  }

  predicate RepliesKnown(o: Origins, replies: seq<Reply>) {
    forall i | 0 <= i < |replies| :: replies[i].generation in o && o[replies[i].generation].id == replies[i].id
  }

  predicate OriginsOk(r: Runs) {
    && ListKnown(r.origins, r.pending)
    && (forall t | t in r.threads :: ThreadKnown(r.origins, r.threads[t]))
    && RepliesKnown(r.origins, r.replies)
    && (forall g | g in r.origins :: g <= r.generation)
  }

  // ---- More origins change nothing ---------------------------------------------------------------

  predicate Extends(o: Origins, more: Origins) { forall g | g in o :: g in more && more[g] == o[g] }

  lemma ThreadKnownExtend(o: Origins, more: Origins, th: Thread)
    requires ThreadKnown(o, th) && Extends(o, more)
    ensures ThreadKnown(more, th)
  {
  }

  lemma StartOrigins(r: Runs, port: nat, request: Request, now: nat, token: nat, armRc: int)
    requires OriginsOk(r) && |r.pending| == PORTS && port < PORTS
    ensures OriginsOk(StartEffect(r, port, request, now, token, armRc))
    ensures Extends(r.origins, StartEffect(r, port, request, now, token, armRc).origins)
  {
    hide NewRun, ThreadKnown;
    var q := StartEffect(r, port, request, now, token, armRc);
    assert Extends(r.origins, q.origins);
    forall t | t in r.threads ensures ThreadKnown(q.origins, r.threads[t]) {
      ThreadKnownExtend(r.origins, q.origins, r.threads[t]);
    }
    FailedStartOrigins(q.origins, port, token, if request.Degrees? then 1 else request.endState);
  }

  lemma FailedStartOrigins(o: Origins, port: nat, token: nat, endState: nat)
    ensures ThreadKnown(o, FailedStart(port, token, endState))
  {
  }

  lemma LookOrigins(r: Runs, t: nat, port: nat, first: nat, now: nat, e: Encoder)
    requires OriginsOk(r) && |r.pending| == PORTS && port < PORTS && t in r.threads
    ensures OriginsOk(LookEffect(r, t, port, first, now, e))
  {
    LookKeepsIdentity(r.pending[port], first, now, e);
    hide LookAt;
  }

  lemma ReplyOriginsKept(r: Runs, t: nat)
    requires OriginsOk(r) && t in r.threads && WellFormed(r.threads[t])
    requires r.threads[t].Replying? || r.threads[t].CancelReply? || r.threads[t].AbortReply?
    ensures OriginsOk(ReplyEffect(r, t, r.threads[t]))
  {
    hide Distinct, Listed;
    assert ThreadKnown(r.origins, r.threads[t]);
  }

  lemma PassOnOrigins(r: Runs, t: nat, rc: int)
    requires OriginsOk(r) && |r.pending| == PORTS && t in r.threads
    ensures OriginsOk(EndEffect(r, t, r.threads[t], rc)) && EndEffect(r, t, r.threads[t], rc).origins == r.origins
    ensures OriginsOk(StopEffect(r, t, r.threads[t])) && StopEffect(r, t, r.threads[t]).origins == r.origins
  {
    assert ThreadKnown(r.origins, r.threads[t]);
    EndKnown(r.origins, r.threads[t], rc);
    hide ListKnown, OriginalAt, Original, RepliesKnown, AfterEnd;
  }

  lemma EndKnown(o: Origins, th: Thread, rc: int)
    requires ThreadKnown(o, th)
    ensures AfterEnd(th, rc).Some? ==> ThreadKnown(o, AfterEnd(th, rc).value)
  {
    hide ListKnown, OriginalAt, Original;
  }

  lemma ArmOrigins(r: Runs, t: nat, rc: int)
    requires OriginsOk(r) && |r.pending| == PORTS && t in r.threads
    ensures OriginsOk(ArmEffect(r, t, r.threads[t], rc)) && ArmEffect(r, t, r.threads[t], rc).origins == r.origins
  {
    hide OriginalAt, Original, RepliesKnown, AnyActive;
    assert ThreadKnown(r.origins, r.threads[t]);
  }

  lemma ClaimOrigins(r: Runs, t: nat)
    requires OriginsOk(r) && |r.pending| == PORTS && t in r.threads && r.threads[t].Claiming?
      && r.threads[t].port < PORTS
    ensures var th := r.threads[t]; var q := ClaimEffect(r, t, th.port, th.run, th.rc);
      OriginsOk(q) && q.origins == r.origins
  {
    hide RepliesKnown;
    assert ThreadKnown(r.origins, r.threads[t]);
  }

  lemma TakeOrigins(r: Runs, port: nat)
    requires OriginsOk(r) && |r.pending| == PORTS && port < PORTS
    ensures OriginsOk(CancelEffect(r, port)) && CancelEffect(r, port).origins == r.origins
    ensures OriginsOk(LinkDownEffect(r)) && LinkDownEffect(r).origins == r.origins
    ensures OriginsOk(TakeAll(r, Dropped)) && TakeAll(r, Dropped).origins == r.origins
  {
    hide RepliesKnown;
  }

  lemma FireOrigins(r: Runs)
    requires OriginsOk(r)
    ensures var q := Spawn(r.(armed := false), Looking(0)); OriginsOk(q) && q.origins == r.origins
  {
    hide RepliesKnown, ListKnown;
  }

  lemma OtherOrigins(s: System, step: Step)
    requires Shaped(s) && OriginsOk(s.runs) && Enabled(s, step) && !step.Start? && !step.LookStep? && !step.ReplyStep?
    ensures OriginsOk(RunsStep(s, step)) && RunsStep(s, step).origins == s.runs.origins
  {
    hide EndAnswer, OriginsOk, EndEffect, ArmEffect, ClaimEffect, CancelEffect, LinkDownEffect, TakeAll, Spawn,
         StopEffect, AnyActive;
    match step
    case EndStep(t, rc, coasted) => PassOnOrigins(s.runs, t, EndAnswer(s, t, rc, coasted));
    case StopTimer(t) => PassOnOrigins(s.runs, t, 0);
    case ArmStep(t, rc) => ArmOrigins(s.runs, t, rc);
    case ClaimStep(t) => ClaimOrigins(s.runs, t);
    case Cancel(port) => TakeOrigins(s.runs, port);
    case LinkDown => TakeOrigins(s.runs, 0);
    case Init => TakeOrigins(s.runs, 0);
    case Fire => FireOrigins(s.runs);
    case _ =>
  }

  lemma OriginsStep(s: System, step: Step)
    requires Inv(s) && OriginsOk(s.runs) && Enabled(s, step)
    ensures OriginsOk(RunsStep(s, step)) && Extends(s.runs.origins, RunsStep(s, step).origins)
  {
    PortCount(s.runs);
    hide Fates, Ownership, HeldTokens, OriginsOk, StartEffect, LookEffect, ReplyEffect, WellFormed;
    match step
    case Start(port, request, now, rc, armRc) =>
      if !s.runs.pending[port].active && rc == 0 {
        StartOrigins(s.runs, port, request, now, StartToken(s.motors, request), armRc);
      }
    case LookStep(t, first, now, e) =>
      LookOrigins(s.runs, t, s.runs.threads[t].port, first, now, e);
      LookKeepsOrigins(s.runs, t, s.runs.threads[t].port, first, now, e);
    case ReplyStep(t) =>
      ReplyOriginsKept(s.runs, t);
      ReplyKeepsOrigins(s.runs, t);
    case _ => OtherOrigins(s, step);
  }

  lemma LookKeepsOrigins(r: Runs, t: nat, port: nat, first: nat, now: nat, e: Encoder)
    requires |r.pending| == PORTS && port < PORTS
    ensures LookEffect(r, t, port, first, now, e).origins == r.origins
  {
    hide LookAt;
  }

  lemma ReplyKeepsOrigins(r: Runs, t: nat)
    requires t in r.threads
    ensures ReplyEffect(r, t, r.threads[t]).origins == r.origins
  {
  }

  lemma {:induction false} RunOrigins(states: seq<System>, steps: seq<Step>, n: nat)
    requires Run(states, steps) && n < |states|
    ensures OriginsOk(states[n].runs)
    decreases n
  {
    hide Inv, Apply, OriginsOk;
    if n == 0 {
      InitialOrigins(states[0]);
    } else {
      RunOrigins(states, steps, n - 1);
      RunInv(states, steps, n - 1);
      OriginsStep(states[n - 1], steps[n - 1]);
      assert states[n].runs == RunsStep(states[n - 1], steps[n - 1]) by { RunsNext(states, steps, n - 1); }
    }
  }

  lemma RunsNext(states: seq<System>, steps: seq<Step>, n: nat)
    requires Run(states, steps) && n < |steps|
    ensures Shaped(states[n]) && Enabled(states[n], steps[n]) && states[n + 1].runs == RunsStep(states[n], steps[n])
  {
    hide RunsStep, MotorsStep, Enabled, Shaped;
  }

  lemma InitialOrigins(s: System)
    requires Initial(s)
    ensures OriginsOk(s.runs)
  {
  }

  lemma {:induction false} OriginsPersist(states: seq<System>, steps: seq<Step>, i: nat, n: nat)
    requires Run(states, steps) && i <= n < |states|
    ensures Extends(states[i].runs.origins, states[n].runs.origins)
    decreases n
  {
    hide Inv, Apply, OriginsOk;
    if i < n {
      OriginsPersist(states, steps, i, n - 1);
      RunOrigins(states, steps, n - 1);
      RunInv(states, steps, n - 1);
      OriginsStep(states[n - 1], steps[n - 1]);
      RunsNext(states, steps, n - 1);
    }
  }

  /** The start in this step has its answer deferred. */
  predicate Defers(s: System, step: Step)
    requires Shaped(s) && Enabled(s, step)
  {
    step.Start? && !s.runs.pending[step.port].active && step.rc == 0 && step.armRc == 0
  }

  lemma OriginRecorded(states: seq<System>, steps: seq<Step>, i: nat)
    requires Run(states, steps) && i < |steps| && Defers(states[i], steps[i])
    ensures var g := states[i].runs.generation + 1;
      && g in states[i + 1].runs.origins && states[i + 1].runs.generation == g
      && states[i + 1].runs.origins[g] ==
           Origin(steps[i].port, StartToken(states[i].motors, steps[i].request), steps[i].request.id,
                  steps[i].request.Timed?, steps[i].request.endState)
  {
    RunsNext(states, steps, i);
    hide Run, NewRun, MotorsStep;
  }

  /** Whatever is answered for a deferred request carries the id that request came with. */
  lemma AnswersCarryTheirId(states: seq<System>, steps: seq<Step>, i: nat, n: nat, k: nat)
    requires Run(states, steps) && i < n < |states| && Defers(states[i], steps[i])
    requires k < |states[n].runs.replies| && states[n].runs.replies[k].generation == states[i].runs.generation + 1
    ensures states[n].runs.replies[k].id == steps[i].request.id
  {
    RunsNext(states, steps, i);
    OriginRecorded(states, steps, i);
    hide Run, RunsStep, MotorsStep, Enabled;
    OriginsPersist(states, steps, i + 1, n);
    RunOrigins(states, steps, n);
  }

  // ---- What goes out ------------------------------------------------------------------------

  /** Only an answer to a request with an id is sent. */
  function Wire(replies: seq<Reply>): seq<Reply> {
    if replies == [] then []
    else
      var last := replies[|replies| - 1];
      Wire(replies[..|replies| - 1]) + if last.id.Some? then [last] else []
  }

  lemma {:induction false} WireExactly(replies: seq<Reply>, x: Reply)
    ensures x in Wire(replies) <==> x in replies && x.id.Some?
  {
    if replies != [] {
      WireExactly(replies[..|replies| - 1], x);
      assert replies == replies[..|replies| - 1] + [replies[|replies| - 1]];
    }
  }

  lemma {:induction false} WireDistinct(replies: seq<Reply>)
    requires forall i, j | 0 <= i < j < |replies| :: replies[i].generation != replies[j].generation
    ensures forall i, j | 0 <= i < j < |Wire(replies)| :: Wire(replies)[i].generation != Wire(replies)[j].generation
  {
    if replies != [] {
      var front, last := replies[..|replies| - 1], replies[|replies| - 1];
      WireDistinct(front);
      forall i | 0 <= i < |Wire(front)| ensures Wire(front)[i].generation != last.generation {
        WireExactly(front, Wire(front)[i]);
      }
    }
  }

  /** A deferred request gets at most one message, and it gets one if and only if it had an id and has
      been answered. */
  lemma SentExactlyOnceWithId(states: seq<System>, steps: seq<Step>, i: nat, n: nat)
    requires Run(states, steps) && i < n < |states| && Defers(states[i], steps[i])
    ensures var wire, g := Wire(states[n].runs.replies), states[i].runs.generation + 1;
      && (forall a, b | 0 <= a < b < |wire| :: wire[a].generation != wire[b].generation)
      && ((exists a | 0 <= a < |wire| :: wire[a].generation == g) <==>
            steps[i].request.id.Some? && exists k :: AnsweredAt(states[n].runs, g, k))
  {
    var replies, g := states[n].runs.replies, states[i].runs.generation + 1;
    RunInv(states, steps, n);
    assert forall a, b | 0 <= a < b < |replies| :: replies[a].generation != replies[b].generation by {
      assert Replies(states[n].runs);
    }
    hide Run, Inv, Defers, Wire;
    WireDistinct(replies);
    var wire := Wire(replies);
    if a: nat :| a < |wire| && wire[a].generation == g {
      WireExactly(replies, wire[a]);
      var k :| 0 <= k < |replies| && replies[k] == wire[a];
      assert AnsweredAt(states[n].runs, g, k);
      AnswersCarryTheirId(states, steps, i, n, k);
    }
    if k: nat :| AnsweredAt(states[n].runs, g, k) {
      AnswersCarryTheirId(states, steps, i, n, k);
      WireExactly(replies, replies[k]);
    }
  }

  /** The result that is sent: an explicit stop answers success, a timer failure an error, and an
      expiry what the end of the motion and the end call made of it. */
  lemma AnswerResults(states: seq<System>, steps: seq<Step>, n: nat)
    requires Run(states, steps) && n < |steps| && steps[n].ReplyStep?
    ensures var t := steps[n].thread;
      && t in states[n].runs.threads
      && |states[n + 1].runs.replies| == |states[n].runs.replies| + 1
      && (var th, reply := states[n].runs.threads[t], states[n + 1].runs.replies[|states[n].runs.replies|];
          && (th.CancelReply? ==> reply.result == 0 && reply.generation == th.run.generation)
          && (th.AbortReply? ==> reply.result < 0)
          && (th.Replying? ==> reply.result == th.rc && reply.generation == th.run.generation))
  {
    RunsNext(states, steps, n);
    RunInv(states, steps, n);
    PortCount(states[n].runs);
    hide Run, Inv, Distinct, Listed, MotorsStep;
    var t := steps[n].thread;
    assert WellFormed(states[n].runs.threads[t]);
  }

  /** The result of a run that the timer ends: the motion's, unless the end call itself failed. */
  lemma EndResult(s: System, t: nat, rc: int, coasted: bool)
    requires Shaped(s) && Enabled(s, EndStep(t, rc, coasted)) && s.runs.threads[t].Ending?
    ensures var th := s.runs.threads[t];
      var answer := EndOwned(s.motors.backend, Classic, th.port, th.run.token, rc, coasted).rc;
      RunsStep(s, EndStep(t, rc, coasted)).threads[t] ==
        Claiming(th.port, th.run, if answer == 0 then th.motion else answer)
  {
  }
}
