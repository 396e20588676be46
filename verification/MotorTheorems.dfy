/** Guarantees over whole runs: one answer per deferred request, and ends that never act on a
    port that has been commanded since. */
module MotorTheorems {
  import opened Basics
  import opened MotorModel
  import opened MotorSystem
  import opened MotorFates
  import opened MotorOwnership

  // ---- Reachable states ----------------------------------------------------------------------

  /** A run that Classic holds was given token 0, or a token issued to Classic for that port. */
  predicate TokenFor(m: Motors, port: nat, token: nat) {
    token == 0 || (token in m.issued && m.issued[token].link == Classic && m.issued[token].port == port)
  }

  predicate ListTokens(m: Motors, list: seq<Pending>) {
    forall p | 0 <= p < |list| && list[p].active :: TokenFor(m, p, list[p].token)
  }

  predicate ThreadTokens(m: Motors, th: Thread) {
    match th
    case Ending(port, run, _) => TokenFor(m, port, run.token)
    case CancelReply(_, failed, _) => ListTokens(m, failed)
    case Aborting(failed, _, _) => ListTokens(m, failed)
    case AbortReply(failed, _, _, _) => ListTokens(m, failed)
    case Unhooking(runs) => ListTokens(m, runs)
    case Dropping(runs, _) => ListTokens(m, runs)
    case FailedStart(port, token, _) => TokenFor(m, port, token)
    case _ => true
  }

  predicate HeldTokens(s: System) {
    ListTokens(s.motors, s.runs.pending) && forall t | t in s.runs.threads :: ThreadTokens(s.motors, s.runs.threads[t])
  }

  ghost predicate Inv(s: System) { Shaped(s) && Fates(s.runs) && Ownership(s.motors) && HeldTokens(s) }

  /** Issued tokens stay as they were issued. */
  lemma IssuedKept(s: System, step: Step)
    requires Shaped(s) && Ownership(s.motors) && Enabled(s, step)
    ensures var n := MotorsStep(s, step);
      && (forall k | k in s.motors.issued :: k in n.issued && n.issued[k] == s.motors.issued[k])
      && s.motors.backend.nextToken <= n.backend.nextToken
  {
    hide OneOwner, Genuine, Cleared;
  }

  lemma TokensCarryOver(m: Motors, n: Motors, list: seq<Pending>)
    requires ListTokens(m, list) && forall k | k in m.issued :: k in n.issued && n.issued[k] == m.issued[k]
    ensures ListTokens(n, list)
  {
  }

  lemma ThreadTokensCarryOver(m: Motors, n: Motors, th: Thread)
    requires ThreadTokens(m, th) && forall k | k in m.issued :: k in n.issued && n.issued[k] == m.issued[k]
    ensures ThreadTokens(n, th)
  {
    hide ListTokens;
    match th
    case CancelReply(_, failed, _) => TokensCarryOver(m, n, failed);
    case Aborting(failed, _, _) => TokensCarryOver(m, n, failed);
    case AbortReply(failed, _, _, _) => TokensCarryOver(m, n, failed);
    case Unhooking(runs) => TokensCarryOver(m, n, runs);
    case Dropping(runs, _) => TokensCarryOver(m, n, runs);
    case _ =>
  }

  lemma StartTokens(s: System, step: Step)
    requires Inv(s) && Enabled(s, step) && step.Start? && step.rc == 0 && !s.runs.pending[step.port].active
    ensures HeldTokens(System(MotorsStep(s, step), RunsStep(s, step)))
  {
    hide Fates, Ownership, EndOwned, ThreadTokens;
    var m, n := s.motors, MotorsStep(s, step);
    IssuedKept(s, step);
    TokensCarryOver(m, n, s.runs.pending);
    forall t | t in s.runs.threads ensures ThreadTokens(n, s.runs.threads[t]) {
      ThreadTokensCarryOver(m, n, s.runs.threads[t]);
    }
    assert TokenFor(n, step.port, StartToken(m, step.request));
    assert ThreadTokens(n, FailedStart(step.port, StartToken(m, step.request),
      if step.request.Degrees? then 1 else step.request.endState)) by {
        FailedStartTokens(n, step.port, StartToken(m, step.request),
                          if step.request.Degrees? then 1 else step.request.endState);
      }
  }

  lemma FailedStartTokens(m: Motors, port: nat, token: nat, endState: nat)
    requires TokenFor(m, port, token)
    ensures ThreadTokens(m, FailedStart(port, token, endState))
  {
  }

  lemma LookTokens(s: System, step: Step)
    requires Inv(s) && Enabled(s, step) && step.LookStep?
    ensures HeldTokens(System(s.motors, RunsStep(s, step)))
  {
    hide Fates, Ownership, LookAt;
    var port := s.runs.threads[step.thread].port;
    LookKeepsIdentity(s.runs.pending[port], step.first, step.now, step.encoder);
  }

  predicate TokensOk(m: Motors, r: Runs) {
    ListTokens(m, r.pending) && forall t | t in r.threads :: ThreadTokens(m, r.threads[t])
  }

  lemma EndTokens(m: Motors, r: Runs, t: nat, rc: int)
    requires TokensOk(m, r) && t in r.threads
    ensures TokensOk(m, EndEffect(r, t, r.threads[t], rc)) && TokensOk(m, StopEffect(r, t, r.threads[t]))
  {
    assert ThreadTokens(m, r.threads[t]);
    NextTokens(m, r.threads[t], rc);
    hide ListTokens, TokenFor, AfterEnd;
  }

  lemma NextTokens(m: Motors, th: Thread, rc: int)
    requires ThreadTokens(m, th)
    ensures AfterEnd(th, rc).Some? ==> ThreadTokens(m, AfterEnd(th, rc).value)
  {
    hide ListTokens, TokenFor;
  }

  lemma ReplyTokens(m: Motors, r: Runs, t: nat)
    requires TokensOk(m, r) && t in r.threads
    ensures TokensOk(m, ReplyEffect(r, t, r.threads[t]))
  {
    hide ListTokens, TokenFor;
    assert ThreadTokens(m, r.threads[t]);
  }

  lemma ArmTokens(m: Motors, r: Runs, t: nat, rc: int)
    requires TokensOk(m, r) && |r.pending| == PORTS && t in r.threads
    ensures TokensOk(m, ArmEffect(r, t, r.threads[t], rc))
  {
    hide TokenFor, AnyActive;
    assert ThreadTokens(m, r.threads[t]);
  }

  lemma TakeTokens(m: Motors, r: Runs, t: nat, port: nat, run: Pending, rc: int)
    requires TokensOk(m, r) && |r.pending| == PORTS && port < PORTS
    ensures TokensOk(m, ClaimEffect(r, t, port, run, rc))
    ensures TokensOk(m, CancelEffect(r, port)) && TokensOk(m, LinkDownEffect(r)) && TokensOk(m, TakeAll(r, Dropped))
  {
    hide TokenFor;
  }

  /** The classic steps that neither start nor sample a run only pass lists on. */
  lemma RunsTokens(s: System, step: Step)
    requires Inv(s) && Enabled(s, step) && !step.Start? && !step.LookStep?
    ensures HeldTokens(System(s.motors, RunsStep(s, step)))
  {
    assert TokensOk(s.motors, s.runs);
    PortCount(s.runs);
    hide Fates, Ownership, EndAnswer, ListTokens, EndEffect, ReplyEffect, ArmEffect, ClaimEffect, CancelEffect,
         LinkDownEffect, TakeAll, StopEffect, AnyActive;
    match step
    case EndStep(t, rc, coasted) => EndTokens(s.motors, s.runs, t, EndAnswer(s, t, rc, coasted));
    case ReplyStep(t) => ReplyTokens(s.motors, s.runs, t);
    case StopTimer(t) => EndTokens(s.motors, s.runs, t, 0);
    case ArmStep(t, rc) => ArmTokens(s.motors, s.runs, t, rc);
    case ClaimStep(t) =>
      TakeTokens(s.motors, s.runs, t, s.runs.threads[t].port, s.runs.threads[t].run, s.runs.threads[t].rc);
    case Cancel(port) => TakeTokens(s.motors, s.runs, 0, port, IDLE, 0);
    case LinkDown => TakeTokens(s.motors, s.runs, 0, 0, IDLE, 0);
    case Init => TakeTokens(s.motors, s.runs, 0, 0, IDLE, 0);
    case _ =>
  }

  lemma HeldTokensStep(s: System, step: Step)
    requires Inv(s) && Enabled(s, step)
    ensures HeldTokens(Apply(s, step))
  {
    var r, m, n := RunsStep(s, step), s.motors, MotorsStep(s, step);
    if step.Start? && step.rc == 0 && !s.runs.pending[step.port].active {
      StartTokens(s, step);
    } else {
      if step.Start? {
        assert r == s.runs;
      } else if step.LookStep? {
        LookTokens(s, step);
      } else {
        RunsTokens(s, step);
      }
      IssuedKept(s, step);
      hide Fates, Ownership, RunsStep, MotorsStep, ThreadTokens, ListTokens;
      TokensCarryOver(m, n, r.pending);
      forall t | t in r.threads ensures ThreadTokens(n, r.threads[t]) { ThreadTokensCarryOver(m, n, r.threads[t]); }
    }
  }

  lemma InvStep(s: System, step: Step)
    requires Inv(s) && Enabled(s, step)
    ensures Inv(Apply(s, step))
  {
    hide Fates, Ownership, RunsStep, MotorsStep, HeldTokens;
    FatesStep(s, step);
    OwnershipStep(s, step);
    HeldTokensStep(s, step);
    assert |RunsStep(s, step).pending| == PORTS by { PortCount(RunsStep(s, step)); }
    assert MotorsStep(s, step).backend.Sized() by { OwnershipSized(MotorsStep(s, step)); }
  }

  lemma OwnershipSized(m: Motors)
    requires Ownership(m)
    ensures m.backend.Sized()
  {
  }

  lemma InvInitial(s: System)
    requires Initial(s)
    ensures Inv(s)
  {
    FatesInitial(s);
  }

  lemma {:induction false} RunInv(states: seq<System>, steps: seq<Step>, n: nat)
    requires Run(states, steps) && n < |states|
    ensures Inv(states[n])
    decreases n
  {
    hide Inv, Apply;
    if n == 0 {
      InvInitial(states[0]);
    } else {
      RunInv(states, steps, n - 1);
      InvStep(states[n - 1], steps[n - 1]);
    }
  }

  // ---- One answer per deferred request ---------------------------------------------------------

  ghost predicate OnPort(r: Runs, g: nat, p: nat) {
    p < |r.pending| && r.pending[p].active && r.pending[p].generation == g
  }

  ghost predicate OwedBy(r: Runs, g: nat, t: nat) { t in r.threads && Owes(r.threads[t], g) }

  ghost predicate AnsweredAt(r: Runs, g: nat, i: nat) { i < |r.replies| && r.replies[i].generation == g }

  predicate DroppedRun(r: Runs, g: nat) { g in r.fates && r.fates[g].Dropped? }

  /** In every reachable state the answer to a deferred request is in exactly one of four places:
      its run is pending on one port, one thread owes it, it has been sent once, or it was dropped. */
  lemma DeferredAnsweredOnce(states: seq<System>, steps: seq<Step>, n: nat, g: nat)
    requires Run(states, steps) && n < |states| && g in states[n].runs.fates
    ensures var r := states[n].runs;
      var pending, owed, answered := (exists p :: OnPort(r, g, p)), (exists t :: OwedBy(r, g, t)),
        (exists i :: AnsweredAt(r, g, i));
      && (pending || owed || answered || DroppedRun(r, g))
      && !(pending && owed) && !(pending && answered) && !(owed && answered)
      && (DroppedRun(r, g) ==> !pending && !owed && !answered)
      && (forall p, q | OnPort(r, g, p) && OnPort(r, g, q) :: p == q)
      && (forall t, u | OwedBy(r, g, t) && OwedBy(r, g, u) :: t == u)
      && (forall i, j | AnsweredAt(r, g, i) && AnsweredAt(r, g, j) :: i == j)
  {
    RunInv(states, steps, n);
    var r := states[n].runs;
    hide Run, OnPort, OwedBy, AnsweredAt;
    forall p ensures OnPort(r, g, p) <==> r.fates[g] == AtPort(p) { PortPlace(r, g, p); }
    forall t ensures OwedBy(r, g, t) <==> r.fates[g] == With(t) { ThreadPlace(r, g, t); }
    AnswerPlace(r, g);
  }

  lemma PortPlace(r: Runs, g: nat, p: nat)
    requires Fates(r) && g in r.fates
    ensures OnPort(r, g, p) <==> r.fates[g] == AtPort(p)
  {
    hide Threads, Replies;
  }

  lemma ThreadPlace(r: Runs, g: nat, t: nat)
    requires Fates(r) && g in r.fates
    ensures OwedBy(r, g, t) <==> r.fates[g] == With(t)
  {
    hide Ports, Replies, Owes;
  }

  lemma AnswerPlace(r: Runs, g: nat)
    requires Fates(r) && g in r.fates
    ensures (exists i :: AnsweredAt(r, g, i)) <==> r.fates[g].Answered?
    ensures forall i, j | AnsweredAt(r, g, i) && AnsweredAt(r, g, j) :: i == j
  {
    hide Ports, Threads;
    if r.fates[g].Answered? {
      var i :| 0 <= i < |r.replies| && r.replies[i].generation == g;
      assert AnsweredAt(r, g, i);
    }
  }

  /** Once no thread is inside the module, a run that has left its port without being dropped by a
      disconnect or an init has been answered, exactly once. */
  lemma QuietMeansAnswered(states: seq<System>, steps: seq<Step>, n: nat, g: nat)
    requires Run(states, steps) && n < |states| && g in states[n].runs.fates && states[n].runs.threads == map[]
    requires !DroppedRun(states[n].runs, g) && !exists p :: OnPort(states[n].runs, g, p)
    ensures exists i :: AnsweredAt(states[n].runs, g, i)
  {
    hide Owes;
    DeferredAnsweredOnce(states, steps, n, g);
    assert !exists t :: OwedBy(states[n].runs, g, t);
  }

  /** An answer is dropped by a disconnect or an init, which take every run off its port, exactly if its
      run was still pending; by nothing else. */
  lemma DroppedOnlyByDisconnect(s: System, step: Step, g: nat)
    requires Inv(s) && Enabled(s, step)
    ensures DroppedRun(RunsStep(s, step), g) <==>
      DroppedRun(s.runs, g) || ((step.LinkDown? || step.Init?) && exists p :: OnPort(s.runs, g, p))
    ensures step.LinkDown? || step.Init? ==> RunsStep(s, step).pending == NONE_PENDING
  {
    if step.LinkDown? || step.Init? {
      TakenDropped(s.runs, g);
      hide Inv;
    } else {
      NothingDropped(s, step, g);
      hide Inv, RunsStep, DroppedRun;
    }
  }

  lemma TakenDropped(r: Runs, g: nat)
    requires Fates(r)
    ensures DroppedRun(TakeAll(r, Dropped), g) <==> DroppedRun(r, g) || exists p :: OnPort(r, g, p)
  {
    assert Ports(r);
    hide Fates, Threads, Replies;
    if g in r.fates && r.fates[g].AtPort? { assert OnPort(r, g, r.fates[g].port); }
  }

  lemma NothingDropped(s: System, step: Step, g: nat)
    requires Inv(s) && Enabled(s, step) && !step.LinkDown? && !step.Init?
    ensures DroppedRun(RunsStep(s, step), g) <==> DroppedRun(s.runs, g)
  {
    assert Fates(s.runs);
    hide Ownership, HeldTokens, Fates, EndAnswer, StartEffect, LookEffect, EndEffect, ClaimEffect, ReplyEffect,
         ArmEffect, CancelEffect, StopEffect;
    if DroppedRun(s.runs, g) { DroppedStays(s, step, g); }
  }

  lemma DroppedStays(s: System, step: Step, g: nat)
    requires Shaped(s) && Fates(s.runs) && Enabled(s, step) && DroppedRun(s.runs, g)
    ensures DroppedRun(RunsStep(s, step), g)
  {
    var r := s.runs;
    hide Fates, EndAnswer, StartEffect, EndEffect, ClaimEffect, ReplyEffect, ArmEffect, CancelEffect, StopEffect;
    match step
    case Start(port, request, now, rc, armRc) =>
      if !r.pending[port].active && rc == 0 {
        NewRunKeepsDropped(r, port, request, now, StartToken(s.motors, request), armRc, g);
      }
    case LookStep(_, _, _, _) => hide LookAt;
    case EndStep(t, rc, coasted) => PassingKeepsDropped(r, t, EndAnswer(s, t, rc, coasted), g);
    case StopTimer(t) => PassingKeepsDropped(r, t, 0, g);
    case ClaimStep(t) => ClaimKeepsDropped(r, t, r.threads[t].port, r.threads[t].run, r.threads[t].rc, g);
    case ReplyStep(t) => ReplyKeepsDropped(r, t, g);
    case ArmStep(t, rc) => ArmKeepsDropped(r, t, rc, g);
    case Cancel(port) => CancelKeepsDropped(r, port, g);
    case _ =>
  }

  lemma NewRunKeepsDropped(r: Runs, port: nat, request: Request, now: nat, token: nat, armRc: int, g: nat)
    requires Fates(r) && DroppedRun(r, g) && |r.pending| == PORTS && port < PORTS
    ensures DroppedRun(StartEffect(r, port, request, now, token, armRc), g)
  {
    assert Replies(r);
    hide Ports, Threads, NewRun;
  }

  lemma PassingKeepsDropped(r: Runs, t: nat, rc: int, g: nat)
    requires DroppedRun(r, g) && t in r.threads
    ensures DroppedRun(EndEffect(r, t, r.threads[t], rc), g) && DroppedRun(StopEffect(r, t, r.threads[t]), g)
  {
    hide AfterEnd;
  }

  lemma ClaimKeepsDropped(r: Runs, t: nat, port: nat, run: Pending, rc: int, g: nat)
    requires Fates(r) && DroppedRun(r, g) && |r.pending| == PORTS && port < PORTS
    ensures DroppedRun(ClaimEffect(r, t, port, run, rc), g)
  {
    assert Ports(r);
    hide Threads, Replies;
  }

  lemma ReplyKeepsDropped(r: Runs, t: nat, g: nat)
    requires Fates(r) && DroppedRun(r, g) && t in r.threads
    ensures DroppedRun(ReplyEffect(r, t, r.threads[t]), g)
  {
    assert Threads(r);
    assert WellFormed(r.threads[t]) && !Owes(r.threads[t], g);
    hide Fates, Ports, Replies, Threads, Distinct;
  }

  lemma ArmKeepsDropped(r: Runs, t: nat, rc: int, g: nat)
    requires DroppedRun(r, g) && t in r.threads
    ensures DroppedRun(ArmEffect(r, t, r.threads[t], rc), g)
  {
    hide AnyActive;
  }

  lemma CancelKeepsDropped(r: Runs, port: nat, g: nat)
    requires Fates(r) && DroppedRun(r, g) && |r.pending| == PORTS && port < PORTS
    ensures DroppedRun(CancelEffect(r, port), g)
  {
    assert Ports(r);
    hide Threads, Replies;
  }

  /** Answers are never taken back, and a request becomes deferred exactly when its start succeeds. */
  lemma AnswersStand(s: System, step: Step)
    requires Inv(s) && Enabled(s, step)
    ensures s.runs.replies <= RunsStep(s, step).replies
    ensures forall g :: g in RunsStep(s, step).fates <==>
      g in s.runs.fates
      || (step.Start? && !s.runs.pending[step.port].active && step.rc == 0 && step.armRc == 0
        && g == s.runs.generation + 1)
  {
    hide Fates, Ownership, HeldTokens, EndAnswer, ReplyEffect, ClaimEffect, CancelEffect, LookEffect, EndEffect,
         ArmEffect;
    if step.ReplyStep? {
      ReplyKeepsFates(s.runs, step.thread);
    } else if step.ClaimStep? {
      ClaimKeepsFates(s.runs, step.thread);
    } else if step.Cancel? {
      CancelKeepsFates(s.runs, step.port);
    } else if step.LookStep? || step.EndStep? || step.ArmStep? {
      PassOnKeepsFates(s, step);
    }
  }

  lemma ReplyKeepsFates(r: Runs, t: nat)
    requires Fates(r) && t in r.threads
      && (r.threads[t].Replying? || r.threads[t].CancelReply? || r.threads[t].AbortReply?)
    ensures forall g :: g in ReplyEffect(r, t, r.threads[t]).fates <==> g in r.fates
  {
    var th := r.threads[t];
    assert Threads(r);
    hide Ports, Replies, WellFormed;
    match th
    case Replying(_, run, _) => assert Owes(th, run.generation);
    case CancelReply(run, failed, _) => assert Owes(th, run.generation);
    case AbortReply(failed, _, port, _) => ReplyListed(r, t);
  }

  lemma ClaimKeepsFates(r: Runs, t: nat)
    requires Fates(r) && t in r.threads && r.threads[t].Claiming? && r.threads[t].port < PORTS
    ensures forall g ::
      g in ClaimEffect(r, t, r.threads[t].port, r.threads[t].run, r.threads[t].rc).fates <==> g in r.fates
  {
    if r.pending[r.threads[t].port].active { ClaimKnown(r, r.threads[t].port); }
    hide Ports, Threads, Replies;
  }

  lemma CancelKeepsFates(r: Runs, port: nat)
    requires Fates(r) && port < PORTS && |r.pending| == PORTS
    ensures forall g :: g in CancelEffect(r, port).fates <==> g in r.fates
  {
    if r.pending[port].active { ClaimKnown(r, port); }
    hide Fates;
  }

  lemma PassOnKeepsFates(s: System, step: Step)
    requires Shaped(s) && Enabled(s, step) && (step.LookStep? || step.EndStep? || step.ArmStep?)
    ensures forall g :: g in RunsStep(s, step).fates <==> g in s.runs.fates
  {
    hide LookAt, EndAnswer, AnyActive;
  }

  lemma ClaimKnown(r: Runs, port: nat)
    requires Fates(r) && port < PORTS && r.pending[port].active
    ensures r.pending[port].generation in r.fates
  {
  }

  lemma ReplyListed(r: Runs, t: nat)
    requires Fates(r) && t in r.threads && r.threads[t].AbortReply?
    ensures var th := r.threads[t]; th.port < |th.failed| && th.failed[th.port].generation in r.fates
  {
    var th := r.threads[t];
    assert WellFormed(th);
    assert Owes(th, th.failed[th.port].generation);
  }

  // ---- Threads get through ---------------------------------------------------------------------

  /** How many steps the thread still takes at most. */
  function Rank(th: Thread): nat
    requires WellFormed(th)
  {
    match th
    case Looking(port) => 14 + 4 * (PORTS - port)
    case Ending(port, _, _) => 13 + 4 * (PORTS - port)
    case Claiming(port, _, _) => 12 + 4 * (PORTS - port)
    case Replying(port, _, _) => 11 + 4 * (PORTS - port)
    case Cancelling(_) => 16
    case Rearming(_) => 15
    case CancelReply(_, _, _) => 14
    case Aborting(_, _, port) => 1 + 2 * (PORTS - port)
    case AbortReply(_, _, port, _) => 2 * (PORTS - port)
    case Unhooking(_) => 2 + PORTS
    case Dropping(_, port) => 1 + PORTS - port
    case FailedStart(_, _, _) => 1
  }

  predicate StepOf(step: Step, t: nat) {
    && (step.LookStep? || step.EndStep? || step.ClaimStep? || step.ReplyStep? || step.StopTimer? || step.ArmStep?)
    && step.thread == t
  }

  /** Each of its own steps brings a thread nearer to its return... */
  lemma ThreadProgress(s: System, step: Step, t: nat)
    requires Inv(s) && Enabled(s, step) && t in s.runs.threads && StepOf(step, t)
    ensures var q := RunsStep(s, step).threads;
      WellFormed(s.runs.threads[t]) && (t in q ==> WellFormed(q[t]) && Rank(q[t]) < Rank(s.runs.threads[t]))
  {
    PortCount(s.runs);
    FatesStep(s, step);
    PortCount(RunsStep(s, step));
    hide Fates, Ownership, HeldTokens, EndAnswer, WellFormed, Rank, MotorsStep, LookEffect, EndEffect, ReplyEffect,
         ClaimEffect, ArmEffect, StopEffect;
    match step
    case LookStep(_, first, now, e) => LookProgress(s.runs, t, first, now, e);
    case EndStep(_, rc, coasted) => EndProgress(s.runs, t, EndAnswer(s, t, rc, coasted));
    case ClaimStep(_) => ClaimProgress(s.runs, t);
    case ReplyStep(_) => ReplyProgress(s.runs, t);
    case StopTimer(_) => StopProgress(s.runs, t);
    case ArmStep(_, rc) => ArmProgress(s.runs, t, rc);
  }

  lemma ClaimProgress(r: Runs, t: nat)
    requires |r.pending| == PORTS && t in r.threads && r.threads[t].Claiming? && r.threads[t].port < PORTS
    ensures var th := r.threads[t];
      var q := ClaimEffect(r, t, th.port, th.run, th.rc).threads;
      t in q && WellFormed(q[t]) && Rank(q[t]) < Rank(th)
  {
  }

  lemma StopProgress(r: Runs, t: nat)
    requires t in r.threads && WellFormed(r.threads[t]) && (r.threads[t].Cancelling? || r.threads[t].Unhooking?)
    ensures var q := StopEffect(r, t, r.threads[t]).threads;
      t in q && WellFormed(q[t]) && Rank(q[t]) < Rank(r.threads[t])
  {
  }

  lemma ArmProgress(r: Runs, t: nat, rc: int)
    requires t in r.threads && WellFormed(r.threads[t])
      && (r.threads[t].Rearming? || (r.threads[t].Looking? && r.threads[t].port == PORTS))
    requires t in ArmEffect(r, t, r.threads[t], rc).threads ==> WellFormed(ArmEffect(r, t, r.threads[t], rc).threads[t])
    ensures var q := ArmEffect(r, t, r.threads[t], rc).threads; t in q ==> Rank(q[t]) < Rank(r.threads[t])
  {
    hide Distinct, Listed;
  }

  lemma LookProgress(r: Runs, t: nat, first: nat, now: nat, e: Encoder)
    requires |r.pending| == PORTS && t in r.threads && r.threads[t].Looking? && r.threads[t].port < PORTS
    ensures var q := LookEffect(r, t, r.threads[t].port, first, now, e).threads;
      t in q && WellFormed(q[t]) && Rank(q[t]) < Rank(r.threads[t])
  {
    hide LookAt;
  }

  lemma EndProgress(r: Runs, t: nat, rc: int)
    requires t in r.threads && WellFormed(r.threads[t])
    requires r.threads[t].Ending? || r.threads[t].Aborting? || r.threads[t].Dropping? || r.threads[t].FailedStart?
    ensures var q := EndEffect(r, t, r.threads[t], rc).threads;
      t in q ==> WellFormed(q[t]) && Rank(q[t]) < Rank(r.threads[t])
  {
    NextProgress(r.threads[t], rc);
    hide AfterEnd, WellFormed, Rank;
  }

  lemma NextProgress(th: Thread, rc: int)
    requires WellFormed(th) && (th.Ending? || th.Aborting? || th.Dropping? || th.FailedStart?)
    ensures var next := AfterEnd(th, rc); next.Some? ==> WellFormed(next.value) && Rank(next.value) < Rank(th)
  {
    hide Distinct, Listed;
  }

  lemma ReplyProgress(r: Runs, t: nat)
    requires t in r.threads && WellFormed(r.threads[t])
    requires r.threads[t].Replying? || r.threads[t].CancelReply? || r.threads[t].AbortReply?
    ensures var q := ReplyEffect(r, t, r.threads[t]).threads;
      t in q && WellFormed(q[t]) && Rank(q[t]) < Rank(r.threads[t])
  {
    hide Distinct, Listed;
  }

  /** ...and no other step moves it. */
  lemma OthersStay(s: System, step: Step, t: nat)
    requires Inv(s) && Enabled(s, step) && t in s.runs.threads && !StepOf(step, t)
    ensures t in RunsStep(s, step).threads && RunsStep(s, step).threads[t] == s.runs.threads[t]
  {
    PortCount(s.runs);
    hide Fates, Ownership, HeldTokens, EndAnswer, MotorsStep, WellFormed, StartEffect, LookEffect, EndEffect,
         ClaimEffect, ReplyEffect, ArmEffect, CancelEffect, LinkDownEffect, StopEffect;
  }

  /** A thread always has a step to take, unless a failing start still holds the lock. */
  lemma ThreadNeverStuck(s: System, t: nat)
    requires Inv(s) && t in s.runs.threads && !s.runs.locked
    ensures exists step :: StepOf(step, t) && Enabled(s, step)
  {
    PortCount(s.runs);
    hide Fates, Ownership, HeldTokens, Listed, Distinct;
    match s.runs.threads[t]
    case Looking(port) =>
      if port < PORTS {
        assert Enabled(s, LookStep(t, 0, 0, Encoder(0, 0))) && StepOf(LookStep(t, 0, 0, Encoder(0, 0)), t);
      } else {
        assert Enabled(s, ArmStep(t, 0)) && StepOf(ArmStep(t, 0), t);
      }
    case Claiming(_, _, _) => assert Enabled(s, ClaimStep(t)) && StepOf(ClaimStep(t), t);
    case Cancelling(_) => assert Enabled(s, StopTimer(t)) && StepOf(StopTimer(t), t);
    case Unhooking(_) => assert Enabled(s, StopTimer(t)) && StepOf(StopTimer(t), t);
    case Rearming(_) => assert Enabled(s, ArmStep(t, 0)) && StepOf(ArmStep(t, 0), t);
    case Replying(_, _, _) => assert Enabled(s, ReplyStep(t)) && StepOf(ReplyStep(t), t);
    case CancelReply(_, _, _) => assert Enabled(s, ReplyStep(t)) && StepOf(ReplyStep(t), t);
    case AbortReply(_, _, _, _) => assert Enabled(s, ReplyStep(t)) && StepOf(ReplyStep(t), t);
    case _ => assert Enabled(s, EndStep(t, 0, false)) && StepOf(EndStep(t, 0, false), t);
  }

  // ---- Ownership over runs -----------------------------------------------------------------------

  /** The step gives `link` the port under a new token. */
  predicate Grants(s: System, step: Step, link: Link, p: nat)
    requires Shaped(s) && Enabled(s, step)
  {
    match step
    case Command(l, port, running, rc) => l == link && port == p && running && rc == 0
    case Start(port, request, _, rc, _) =>
      link == Classic && port == p && rc == 0 && !s.runs.pending[port].active && Driven(request) != 0
    case _ => false
  }

  lemma GrantedToken(s: System, step: Step, link: Link, p: nat)
    requires Inv(s) && Enabled(s, step) && p < PORTS && Grants(s, step, link, p)
    ensures var n, k := MotorsStep(s, step), s.motors.backend.nextToken + 1;
      && n.backend.Sized() && n.backend.token[p] == k && n.backend.nextToken == k && k !in s.motors.issued
      && k in n.issued && n.issued[k] == Issue(link, p, s.motors.backend.Generation(link))
  {
    hide Fates, HeldTokens;
  }

  /** What is known of token `k` for port `p` once it has been granted to `link`. */
  ghost predicate Known(s: System, k: nat, link: Link, p: nat, generation: nat) {
    && Inv(s) && p < PORTS && 0 < k <= s.motors.backend.nextToken
    && k in s.motors.issued && s.motors.issued[k] == Issue(link, p, generation)
  }

  lemma KnownStep(s: System, step: Step, k: nat, link: Link, p: nat, generation: nat)
    requires Known(s, k, link, p, generation) && Enabled(s, step)
    ensures Known(Apply(s, step), k, link, p, generation)
    ensures MotorsStep(s, step).backend.Sized()
    ensures s.motors.backend.token[p] == k ==> (MotorsStep(s, step).backend.token[p] == k <==> !Touches(s, step, p))
    ensures s.motors.backend.token[p] != k ==> MotorsStep(s, step).backend.token[p] != k
  {
    InvStep(s, step);
    IssuedKept(s, step);
    TokenStep(s, step, p);
    if s.motors.backend.token[p] == k { TouchedExactly(s, step, p); }
    hide Fates, HeldTokens, MotorsStep, RunsStep, Touches;
  }

  lemma HeldIsToken(s: System, k: nat, link: Link, p: nat, generation: nat)
    requires Known(s, k, link, p, generation)
    ensures s.motors.backend.Held(link, p, k) <==> s.motors.backend.token[p] == k
  {
    hide Fates, HeldTokens;
    if s.motors.backend.token[p] == k { assert Genuine(s.motors, p); }
  }

  ghost predicate Untouched(states: seq<System>, steps: seq<Step>, i: nat, n: nat, p: nat)
    requires Run(states, steps) && n < |states| && p < PORTS
  {
    forall j | i < j < n :: !Touches(states[j], steps[j], p)
  }

  lemma UntouchedNext(states: seq<System>, steps: seq<Step>, i: nat, n: nat, p: nat)
    requires Run(states, steps) && i < n < |states| - 1 && p < PORTS
    ensures Untouched(states, steps, i, n + 1, p) <==>
      Untouched(states, steps, i, n, p) && !Touches(states[n], steps[n], p)
  {
    hide Touches, Apply;
  }

  lemma RunNext(states: seq<System>, steps: seq<Step>, n: nat)
    requires Run(states, steps) && n < |steps|
    ensures |states| == |steps| + 1 && Shaped(states[n]) && Enabled(states[n], steps[n])
    ensures states[n + 1] == Apply(states[n], steps[n])
    ensures states[n + 1].motors == MotorsStep(states[n], steps[n])
  {
    hide Shaped, Enabled, RunsStep, MotorsStep;
  }

  /** Token `k` is known, and in force in state `n` exactly when its port is untouched since step `i`. */
  ghost predicate InForce(states: seq<System>, steps: seq<Step>, i: nat, n: nat, k: nat, link: Link, p: nat,
                          generation: nat)
    requires Run(states, steps) && n < |states| && p < PORTS
  {
    && Known(states[n], k, link, p, generation)
    && (states[n].motors.backend.token[p] == k <==> Untouched(states, steps, i, n, p))
  }

  lemma InForceFirst(states: seq<System>, steps: seq<Step>, i: nat, link: Link, p: nat)
    requires Run(states, steps) && i < |steps| && p < PORTS
    requires Inv(states[i]) && Enabled(states[i], steps[i]) && Grants(states[i], steps[i], link, p)
    ensures InForce(states, steps, i, i + 1, states[i].motors.backend.nextToken + 1, link, p,
                    states[i].motors.backend.Generation(link))
  {
    RunNext(states, steps, i);
    hide Fates, HeldTokens, Touches, MotorsStep, RunsStep, Run, Ownership, Enabled, Grants;
    GrantedToken(states[i], steps[i], link, p);
    InvStep(states[i], steps[i]);
  }

  lemma InForceNext(states: seq<System>, steps: seq<Step>, i: nat, n: nat, k: nat, link: Link, p: nat, generation: nat)
    requires Run(states, steps) && i < n < |steps| && p < PORTS && InForce(states, steps, i, n, k, link, p, generation)
    ensures InForce(states, steps, i, n + 1, k, link, p, generation)
  {
    RunNext(states, steps, n);
    hide Run, Touches, MotorsStep, Apply, RunsStep, Untouched, Enabled, Inv;
    UntouchedNext(states, steps, i, n, p);
    KnownStep(states[n], steps[n], k, link, p, generation);
  }

  /** A token is in force exactly as long as no step has touched its port. */
  lemma {:induction false} TokenInForce(states: seq<System>, steps: seq<Step>, i: nat, n: nat, link: Link, p: nat)
    requires Run(states, steps) && i < n < |states| && p < PORTS
    requires Inv(states[i]) && Grants(states[i], steps[i], link, p)
    ensures InForce(states, steps, i, n, states[i].motors.backend.nextToken + 1, link, p,
                    states[i].motors.backend.Generation(link))
    decreases n
  {
    hide *;
    RunLength(states, steps);
    RunNext(states, steps, i);
    if n == i + 1 {
      InForceFirst(states, steps, i, link, p);
    } else {
      TokenInForce(states, steps, i, n - 1, link, p);
      InForceNext(states, steps, i, n - 1, states[i].motors.backend.nextToken + 1, link, p,
                  states[i].motors.backend.Generation(link));
    }
  }

  lemma RunLength(states: seq<System>, steps: seq<Step>)
    requires Run(states, steps)
    ensures |states| == |steps| + 1
  {
  }

  /** Ending a run acts exactly when nothing has touched its port since the run took it; otherwise
      the call is answered ESTALE and changes nothing. */
  lemma EndActsExactlyWhenUntouched(states: seq<System>, steps: seq<Step>, i: nat, n: nat, link: Link, p: nat, rc: int,
                                    coasted: bool)
    requires Run(states, steps) && i < n < |states| && p < PORTS
    requires Grants(states[i], steps[i], link, p)
    ensures Shaped(states[n])
    ensures var b := states[n].motors.backend;
      var end := EndOwned(b, link, p, states[i].motors.backend.nextToken + 1, rc, coasted);
      if Untouched(states, steps, i, n, p) then end.actuated && end.rc == rc
      else !end.actuated && end.rc == ESTALE && end.backend == b
  {
    RunInv(states, steps, i);
    RunInv(states, steps, n);
    hide Fates, HeldTokens, Touches, MotorsStep, RunsStep, Grants, Ownership;
    TokenInForce(states, steps, i, n, link, p);
    HeldIsToken(states[n], states[i].motors.backend.nextToken + 1, link, p, states[i].motors.backend.Generation(link));
  }

  /** Whatever a Classic thread ends, it ends under token 0, which is refused, or under a token that
      Classic was given for that very port. */
  lemma ThreadsEndTheirOwn(states: seq<System>, steps: seq<Step>, n: nat, t: nat)
    requires Run(states, steps) && n < |states| && t in states[n].runs.threads
      && NextEnd(states[n].runs.threads[t]).Some?
    ensures var args := NextEnd(states[n].runs.threads[t]).value;
      args.port < PORTS && TokenFor(states[n].motors, args.port, args.token)
  {
    RunInv(states, steps, n);
    hide Ownership, Run, Owes;
    assert WellFormed(states[n].runs.threads[t]) && ThreadTokens(states[n].motors, states[n].runs.threads[t]);
  }

  /** Every token is issued at most once in a run. */
  lemma TokensNeverReused(states: seq<System>, steps: seq<Step>, i: nat, j: nat, link: Link, other: Link, p: nat,
                          q: nat)
    requires Run(states, steps) && i < j < |steps| && p < PORTS && q < PORTS
    requires Grants(states[i], steps[i], link, p) && Grants(states[j], steps[j], other, q)
    ensures states[i].motors.backend.nextToken + 1 < states[j].motors.backend.nextToken + 1
  {
    RunInv(states, steps, i);
    hide Fates, HeldTokens, Touches, MotorsStep, RunsStep, Grants, Ownership;
    TokenInForce(states, steps, i, j, link, p);
  }

  /** In every reachable state each port has at most one owner, and a token exactly when owned. */
  lemma OwnersInEveryRun(states: seq<System>, steps: seq<Step>, n: nat, p: nat)
    requires Run(states, steps) && n < |states| && p < PORTS
    ensures Shaped(states[n])
    ensures var b := states[n].motors.backend;
      !(b.classic[p] && b.ble[p]) && (b.token[p] != 0 <==> b.classic[p] || b.ble[p])
  {
    RunInv(states, steps, n);
    hide Fates, HeldTokens, Run, TokensGenuine;
  }

  /** A link report frees exactly the reporting link's ports, and only when the generations say so:
      a disconnect of the current generation, or a connect that replaces a nonzero one. */
  lemma ReportStopsOnlyItsLink(b: Backend, link: Link, connected: bool, generation: nat, p: nat)
    requires OneOwner(b) && p < PORTS
    ensures var c := LinkReport(b, link, connected, generation);
      var stops := if connected then b.Generation(link) != 0 && b.Generation(link) != generation
        else b.Generation(link) == generation;
      && (b.Row(link)[p] ==> (c.Row(link)[p] <==> !stops) && (c.token[p] == b.token[p] <==> !stops))
      && (!b.Row(link)[p] ==> c.token[p] == b.token[p] && c.classic[p] == b.classic[p] && c.ble[p] == b.ble[p])
  {
  }

  /** Ownership taken under a nonzero generation is gone, for good, after a connect of the same
      link with another generation. */
  lemma GenerationNeverSurvives(states: seq<System>, steps: seq<Step>, i: nat, j: nat, n: nat, link: Link, p: nat)
    requires Run(states, steps) && i < j < n < |states| && p < PORTS
    requires Grants(states[i], steps[i], link, p) && states[i].motors.backend.Generation(link) != 0
    requires steps[j].Report? && steps[j].link == link && steps[j].connected
    requires steps[j].generation != states[i].motors.backend.Generation(link)
    ensures Shaped(states[n]) && states[n].motors.backend.token[p] != states[i].motors.backend.nextToken + 1
  {
    RunInv(states, steps, i);
    RunInv(states, steps, n);
    RunInv(states, steps, j + 1);
    var k, generation := states[i].motors.backend.nextToken + 1, states[i].motors.backend.Generation(link);
    assert states[j + 1].motors.backend.Generation(link) == steps[j].generation by { hide Inv, RunsStep; }
    hide Fates, HeldTokens, Touches, Grants, MotorsStep, RunsStep, Ownership;
    TokenInForce(states, steps, i, j + 1, link, p);
    TokenInForce(states, steps, i, n, link, p);
    InForceMeansSameGeneration(states[j + 1], k, link, p, generation);
    var x :| i < x < j + 1 && Touches(states[x], steps[x], p);
    assert !Untouched(states, steps, i, n, p);
  }

  lemma InForceMeansSameGeneration(s: System, k: nat, link: Link, p: nat, generation: nat)
    requires Known(s, k, link, p, generation)
    ensures s.motors.backend.token[p] == k ==> generation == 0 || generation == s.motors.backend.Generation(link)
  {
    hide Fates, HeldTokens;
    assert s.motors.backend.token[p] != 0 ==> Genuine(s.motors, p);
  }
}
