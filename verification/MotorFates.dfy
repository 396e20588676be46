/** Every deferred answer is in exactly one place: on its port, with one thread, sent, or dropped. */
module MotorFates {
  import opened Basics
  import opened MotorModel
  import opened MotorSystem

  /** The list still holds the run of generation `g` at position `from` or later. */
  predicate Listed(list: seq<Pending>, from: nat, g: nat) {
    exists i | from <= i < |list| :: list[i].active && list[i].generation == g
  }

  predicate Distinct(list: seq<Pending>) {
    forall i, j | 0 <= i < j < |list| && list[i].active && list[j].active :: list[i].generation != list[j].generation
  }

  /** The thread has taken this run and has yet to answer it. */
  predicate Owes(th: Thread, g: nat) {
    match th
    case Replying(_, run, _) => run.generation == g
    case Cancelling(run) => run.generation == g
    case Rearming(run) => run.generation == g
    case CancelReply(run, failed, _) => run.generation == g || Listed(failed, 0, g)
    case Aborting(failed, _, port) => Listed(failed, port, g)
    case AbortReply(failed, _, port, _) => Listed(failed, port, g)
    case _ => false
  }

  predicate WellFormed(th: Thread) {
    match th
    case Looking(port) => port <= PORTS
    case Ending(port, _, _) => port < PORTS
    case Claiming(port, _, _) => port < PORTS
    case Replying(port, _, _) => port < PORTS
    case Cancelling(_) => true
    case Rearming(_) => true
    case CancelReply(run, failed, error) =>
      |failed| == PORTS && Distinct(failed) && !Listed(failed, 0, run.generation)
        && (error < 0 || failed == NONE_PENDING)
    case Aborting(failed, error, port) =>
      |failed| == PORTS && port <= PORTS && Distinct(failed) && (error < 0 || failed == NONE_PENDING)
    case AbortReply(failed, error, port, rc) =>
      |failed| == PORTS && port < PORTS && failed[port].active && Distinct(failed) && error < 0 && rc < 0
    case Unhooking(runs) => |runs| == PORTS
    case Dropping(runs, port) => |runs| == PORTS && port <= PORTS
    case FailedStart(port, _, _) => port < PORTS
  }

  ghost predicate Ports(r: Runs) {
    && |r.pending| == PORTS
    && (forall p | 0 <= p < PORTS && r.pending[p].active ::
          r.pending[p].generation in r.fates && r.fates[r.pending[p].generation] == AtPort(p))
    && (forall g | g in r.fates && r.fates[g].AtPort? ::
          r.fates[g].port < PORTS && r.pending[r.fates[g].port].active && r.pending[r.fates[g].port].generation == g)
  }

  ghost predicate Threads(r: Runs) {
    && (forall t | t in r.threads :: t < r.nextThread && WellFormed(r.threads[t]))
    && (forall t, g | t in r.threads && Owes(r.threads[t], g) :: g in r.fates && r.fates[g] == With(t))
    && (forall g | g in r.fates && r.fates[g].With? ::
      r.fates[g].thread in r.threads && Owes(r.threads[r.fates[g].thread], g))
  }

  ghost predicate Replies(r: Runs) {
    && (forall i | 0 <= i < |r.replies| ::
      r.replies[i].generation in r.fates && r.fates[r.replies[i].generation].Answered?)
    && (forall i, j | 0 <= i < j < |r.replies| :: r.replies[i].generation != r.replies[j].generation)
    && (forall g | g in r.fates && r.fates[g].Answered? ::
      exists i | 0 <= i < |r.replies| :: r.replies[i].generation == g)
    && (forall g | g in r.fates :: g <= r.generation)
  }

  ghost predicate Fates(r: Runs) { Ports(r) && Threads(r) && Replies(r) }

  // ---- Lists ------------------------------------------------------------------------------

  lemma NothingListed(g: nat)
    ensures !Listed(NONE_PENDING, 0, g) && Distinct(NONE_PENDING)
  {
  }

  lemma ListedSplit(list: seq<Pending>, from: nat, g: nat)
    requires from < |list| && Distinct(list)
    ensures Listed(list, from, g) <==> (list[from].active && list[from].generation == g) || Listed(list, from + 1, g)
    ensures list[from].active ==> !Listed(list, from + 1, list[from].generation)
  {
  }

  lemma PendingListed(r: Runs, g: nat)
    requires Ports(r)
    ensures Distinct(r.pending)
    ensures Listed(r.pending, 0, g) <==> g in r.fates && r.fates[g].AtPort?
  {
  }

  // ---- Generic changes --------------------------------------------------------------------

  /** A thread moves on without any answer changing hands. */
  lemma Moves(r: Runs, t: nat, th: Thread)
    requires Fates(r) && t in r.threads && WellFormed(th)
    requires forall g :: Owes(th, g) <==> Owes(r.threads[t], g)
    ensures Fates(Move(r, t, th))
  {
    hide Owes, WellFormed;
  }

  lemma Exits(r: Runs, t: nat)
    requires Fates(r) && t in r.threads && forall g :: !Owes(r.threads[t], g)
    ensures Fates(Exit(r, t))
  {
    hide Owes, WellFormed;
  }

  lemma Spawns(r: Runs, th: Thread)
    requires Fates(r) && WellFormed(th) && forall g :: !Owes(th, g)
    ensures Fates(Spawn(r, th))
  {
    hide Owes, WellFormed;
  }

  /** A port's record changes, but neither its activity nor its generation. */
  lemma PortUpdates(r: Runs, port: nat, run: Pending)
    requires Fates(r) && port < PORTS
    requires run.active == r.pending[port].active && run.generation == r.pending[port].generation
    ensures Fates(r.(pending := r.pending[port := run]))
  {
    hide Owes, WellFormed, Replies;
    assert Replies(r.(pending := r.pending[port := run])) by {
      assert Replies(r);
      SameReplies(r, r.(pending := r.pending[port := run]));
    }
  }

  lemma SameReplies(r: Runs, q: Runs)
    requires Replies(r) && q.fates == r.fates && q.replies == r.replies && q.generation >= r.generation
    ensures Replies(q)
  {
  }

  /** Thread `t` answers the one run it hands over; the rest of what it owes stays. */
  lemma Answers(r: Runs, t: nat, th: Thread, run: Pending, result: int)
    requires Fates(r) && t in r.threads && WellFormed(th) && Owes(r.threads[t], run.generation)
    requires forall g :: Owes(th, g) <==> Owes(r.threads[t], g) && g != run.generation
    ensures Fates(Move(Answer(r, run, result), t, th))
  {
    hide Owes, WellFormed;
    var q := Move(Answer(r, run, result), t, th);
    assert r.fates[run.generation] == With(t) by { hide Ports, Replies; }
    assert Ports(q) by { hide Threads, Replies; }
    assert Threads(q) by {
      hide Ports, Replies;
      forall u, g | u in q.threads && Owes(q.threads[u], g) ensures g in q.fates && q.fates[g] == With(u) {
        assert Owes(r.threads[u], g);
      }
    }
    assert Replies(q) by {
      hide Ports, Threads;
      AnswerRecorded(r, run, result);
    }
  }

  lemma AnswerRecorded(r: Runs, run: Pending, result: int)
    requires Replies(r) && run.generation in r.fates && !r.fates[run.generation].Answered?
    ensures Replies(Answer(r, run, result))
  {
    var q := Answer(r, run, result);
    assert q.replies[|r.replies|].generation == run.generation;
    forall g | g in q.fates && q.fates[g].Answered?
      ensures exists i | 0 <= i < |q.replies| :: q.replies[i].generation == g {
      if g != run.generation {
        var i :| 0 <= i < |r.replies| && r.replies[i].generation == g;
        assert q.replies[i].generation == g;
      }
    }
  }

  /** All active runs go to thread `t`, beside what it already owed. */
  lemma Takes(r: Runs, t: nat, th: Thread)
    requires Fates(r) && t in r.threads && WellFormed(th)
    requires forall g :: Owes(th, g) <==> Owes(r.threads[t], g) || (g in r.fates && r.fates[g].AtPort?)
    ensures Fates(Move(TakeAll(r, With(t)), t, th))
  {
    hide Owes, WellFormed;
  }

  lemma Drops(r: Runs)
    requires Fates(r)
    ensures Fates(TakeAll(r, Dropped))
  {
    hide Owes, WellFormed;
  }

  /** The run on `port` passes to thread `t`, which owed nothing or did not exist. */
  lemma TakesOne(r: Runs, port: nat, t: nat, th: Thread)
    requires Fates(r) && port < PORTS && r.pending[port].active && WellFormed(th)
    requires t in r.threads ==> forall g :: !Owes(r.threads[t], g)
    requires forall g :: Owes(th, g) <==> g == r.pending[port].generation
    ensures var run := r.pending[port];
      Fates(Move(r.(pending := r.pending[port := run.(active := false)], fates := r.fates[run.generation := With(t)],
                    nextThread := if t < r.nextThread then r.nextThread else t + 1), t, th))
  {
    hide Owes, WellFormed;
  }

  // ---- Steps ------------------------------------------------------------------------------

  lemma OwesNothing(th: Thread)
    requires th.Looking? || th.Ending? || th.Claiming? || th.Unhooking? || th.Dropping? || th.FailedStart?
    ensures forall g :: !Owes(th, g)
  {
  }

  lemma Admits(r: Runs, port: nat, run: Pending)
    requires Fates(r) && port < PORTS && !r.pending[port].active && run.active && run.generation == r.generation + 1
    ensures Fates(r.(pending := r.pending[port := run], generation := run.generation, armed := true,
                     fates := r.fates[run.generation := AtPort(port)],
                     origins := r.origins[run.generation :=
                                            Origin(port, run.token, run.id, !run.degrees, run.endState)]))
  {
    hide Owes, WellFormed;
    var q := r.(pending := r.pending[port := run], generation := run.generation, armed := true,
                fates := r.fates[run.generation := AtPort(port)],
                origins := r.origins[run.generation := Origin(port, run.token, run.id, !run.degrees, run.endState)]);
    assert run.generation !in r.fates by { hide Ports, Threads; }
    assert Ports(q) by { hide Threads, Replies; }
    assert Threads(q) by { hide Ports, Replies; }
    assert Replies(q) by { hide Ports, Threads; }
  }

  /** A start that could not arm the timer uses up a generation, and nothing else. */
  lemma Wastes(r: Runs, port: nat, run: Pending)
    requires Fates(r) && port < PORTS && !r.pending[port].active && !run.active
    ensures Fates(r.(pending := r.pending[port := run], generation := r.generation + 1, locked := true))
  {
    hide Owes, WellFormed;
    var q := r.(pending := r.pending[port := run], generation := r.generation + 1, locked := true);
    assert Ports(q) by { hide Threads, Replies; }
    assert Threads(q) by { hide Ports, Replies; }
    assert Replies(q) by { hide Ports, Threads; }
  }

  lemma StartFates(r: Runs, port: nat, request: Request, now: nat, token: nat, armRc: int)
    requires Fates(r) && port < PORTS && |r.pending| == PORTS && !r.pending[port].active
    ensures Fates(StartEffect(r, port, request, now, token, armRc))
  {
    hide NewRun, Owes, Fates;
    var g := r.generation + 1;
    var run := NewRun(request, now, g, token);
    if armRc < 0 {
      var q := r.(pending := r.pending[port := run.(active := false)], generation := g, locked := true);
      var th := FailedStart(port, token, if request.Degrees? then 1 else request.endState);
      OwesNothing(th);
      Wastes(r, port, run.(active := false));
      Spawns(q, th);
    } else {
      Admits(r, port, run);
    }
  }

  lemma LookKeepsIdentity(p: Pending, first: nat, now: nat, e: Encoder)
    ensures var look := LookAt(p, first, now, e);
      !look.NotDue? ==>
        && p.active && look.run.active && look.run.generation == p.generation && look.run.token == p.token
        && look.run.id == p.id && look.run.degrees == p.degrees && look.run.endState == p.endState
        && (look.Finish? && !p.degrees ==> look.motion == 0)
  {
    hide RawDelta;
  }

  lemma LookFates(r: Runs, t: nat, port: nat, first: nat, now: nat, e: Encoder)
    requires Fates(r) && t in r.threads && r.threads[t] == Looking(port) && port < PORTS
    ensures Fates(LookEffect(r, t, port, first, now, e))
  {
    hide Owes, Fates, LookAt;
    assert |r.pending| == PORTS by { PortCount(r); }
    LookKeepsIdentity(r.pending[port], first, now, e);
    OwesNothing(r.threads[t]);
    OwesNothing(Looking(port + 1));
    match LookAt(r.pending[port], first, now, e)
    case NotDue =>
      Moves(r, t, Looking(port + 1));
    case Continue(run) =>
      PortUpdates(r, port, run);
      Moves(r.(pending := r.pending[port := run]), t, Looking(port + 1));
    case Finish(run, motion) =>
      OwesNothing(Ending(port, r.pending[port], motion));
      PortUpdates(r, port, run);
      Moves(r.(pending := r.pending[port := run]), t, Ending(port, r.pending[port], motion));
  }

  lemma PortCount(r: Runs)
    requires Fates(r)
    ensures |r.pending| == PORTS
    ensures forall t | t in r.threads :: t < r.nextThread && WellFormed(r.threads[t])
  {
    hide WellFormed, Owes;
  }

  lemma EndFates(r: Runs, t: nat, rc: int)
    requires Fates(r) && t in r.threads
    ensures Fates(EndEffect(r, t, r.threads[t], rc))
  {
    hide Fates, Owes, Distinct;
    PortCount(r);
    var th := r.threads[t];
    match th
    case Ending(port, run, motion) =>
      OwesNothing(th);
      OwesNothing(Claiming(port, run, if rc == 0 then motion else rc));
      Moves(r, t, Claiming(port, run, if rc == 0 then motion else rc));
    case Aborting(failed, error, port) =>
      AbortFates(r, t, rc);
    case Dropping(runs, port) =>
      OwesNothing(th);
      if port >= |runs| {
        Exits(r, t);
      } else {
        OwesNothing(Dropping(runs, port + 1));
        Moves(r, t, Dropping(runs, port + 1));
      }
    case FailedStart(_, _, _) =>
      OwesNothing(th);
      Exits(r, t);
      Unlocks(Exit(r, t));
    case _ => Moves(r, t, th);
  }

  lemma Unlocks(r: Runs)
    requires Fates(r)
    ensures Fates(r.(locked := false))
  {
    hide Owes, WellFormed;
  }

  lemma AbortFates(r: Runs, t: nat, rc: int)
    requires Fates(r) && t in r.threads && r.threads[t].Aborting?
    ensures Fates(EndEffect(r, t, r.threads[t], rc))
  {
    hide Fates, Listed, Distinct;
    PortCount(r);
    var th := r.threads[t];
    if th.port >= |th.failed| {
      forall g ensures !Listed(th.failed, th.port, g) { ListedNowhere(th.failed, th.port, g); }
      Exits(r, t);
    } else if th.failed[th.port].active {
      Moves(r, t, AbortReply(th.failed, th.error, th.port, if rc < 0 then rc else th.error));
    } else {
      forall g ensures Listed(th.failed, th.port, g) <==> Listed(th.failed, th.port + 1, g) {
        ListedSplit(th.failed, th.port, g);
      }
      Moves(r, t, Aborting(th.failed, th.error, th.port + 1));
    }
  }

  lemma ListedNowhere(list: seq<Pending>, from: nat, g: nat)
    requires from >= |list|
    ensures !Listed(list, from, g)
  {
  }

  lemma ClaimFates(r: Runs, t: nat, port: nat, run: Pending, rc: int)
    requires Fates(r) && t in r.threads && r.threads[t] == Claiming(port, run, rc) && port < PORTS
    ensures Fates(ClaimEffect(r, t, port, run, rc))
  {
    PortCount(r);
    OwesNothing(r.threads[t]);
    if r.pending[port].active && r.pending[port].generation == run.generation {
      var th := Replying(port, run, rc);
      assert forall g :: Owes(th, g) <==> g == run.generation;
      hide Fates, Owes;
      TakesOne(r, port, t, th);
    } else {
      OwesNothing(Looking(port + 1));
      hide Fates, Owes;
      Moves(r, t, Looking(port + 1));
    }
  }

  lemma ReplyFates(r: Runs, t: nat)
    requires Fates(r) && t in r.threads
    ensures Fates(ReplyEffect(r, t, r.threads[t]))
  {
    hide Fates, Answer, Move;
    match r.threads[t]
    case Replying(_, _, _) => ReplyingFates(r, t);
    case CancelReply(_, _, _) => CancelReplyFates(r, t);
    case AbortReply(_, _, _, _) => AbortReplyFates(r, t);
    case _ =>
  }

  lemma ReplyingFates(r: Runs, t: nat)
    requires Fates(r) && t in r.threads && r.threads[t].Replying?
    ensures var th := r.threads[t]; Fates(Move(Answer(r, th.run, th.rc), t, Looking(th.port + 1)))
  {
    hide *;
    var th := r.threads[t];
    PortCount(r);
    ReplyingOwes(th.port, th.run, th.rc);
    Answers(r, t, Looking(th.port + 1), th.run, th.rc);
  }

  lemma CancelReplyFates(r: Runs, t: nat)
    requires Fates(r) && t in r.threads && r.threads[t].CancelReply?
    ensures var th := r.threads[t]; Fates(Move(Answer(r, th.run, 0), t, Aborting(th.failed, th.error, 0)))
  {
    hide *;
    var th := r.threads[t];
    PortCount(r);
    CancelOwes(th.run, th.failed, th.error);
    Answers(r, t, Aborting(th.failed, th.error, 0), th.run, 0);
  }

  lemma AbortReplyFates(r: Runs, t: nat)
    requires Fates(r) && t in r.threads && r.threads[t].AbortReply?
    ensures var th := r.threads[t];
      && th.port < |th.failed|
      && Fates(Move(Answer(r, th.failed[th.port], th.rc), t, Aborting(th.failed, th.error, th.port + 1)))
  {
    hide *;
    var th := r.threads[t];
    PortCount(r);
    AbortOwes(th.failed, th.error, th.port, th.rc);
    Answers(r, t, Aborting(th.failed, th.error, th.port + 1), th.failed[th.port], th.rc);
  }

  lemma ReplyingOwes(port: nat, run: Pending, rc: int)
    requires WellFormed(Replying(port, run, rc))
    ensures WellFormed(Looking(port + 1)) && Owes(Replying(port, run, rc), run.generation)
    ensures forall g :: Owes(Looking(port + 1), g) <==> Owes(Replying(port, run, rc), g) && g != run.generation
  {
  }

  lemma CancelOwes(run: Pending, failed: seq<Pending>, error: int)
    requires WellFormed(CancelReply(run, failed, error))
    ensures WellFormed(Aborting(failed, error, 0)) && Owes(CancelReply(run, failed, error), run.generation)
    ensures forall g ::
      Owes(Aborting(failed, error, 0), g) <==> Owes(CancelReply(run, failed, error), g) && g != run.generation
  {
    hide Listed, Distinct;
  }

  lemma AbortOwes(failed: seq<Pending>, error: int, port: nat, rc: int)
    requires WellFormed(AbortReply(failed, error, port, rc))
    ensures port < |failed| && WellFormed(Aborting(failed, error, port + 1))
    ensures Owes(AbortReply(failed, error, port, rc), failed[port].generation)
    ensures forall g ::
      Owes(Aborting(failed, error, port + 1), g) <==>
        Owes(AbortReply(failed, error, port, rc), g) && g != failed[port].generation
  {
    forall g { ListedSplit(failed, port, g); }
    hide Listed, Distinct;
  }

  lemma ArmFates(r: Runs, t: nat, rc: int)
    requires Fates(r) && t in r.threads
    ensures Fates(ArmEffect(r, t, r.threads[t], rc))
  {
    PortCount(r);
    forall g ensures Distinct(r.pending) && (Listed(r.pending, 0, g) <==> g in r.fates && r.fates[g].AtPort?) {
      hide WellFormed, Owes, Threads, Replies;
      PendingListed(r, g);
    }
    var th := r.threads[t];
    match th
    case Looking(_) =>
      OwesNothing(th);
      hide Fates, Listed, Distinct;
      if rc < 0 {
        Takes(r, t, Aborting(r.pending, rc, 0));
      } else {
        Rewinds(r, Rearmed(r).armed);
        Exits(Rearmed(r), t);
      }
    case Rearming(run) =>
      assert Owes(th, run.generation) && r.fates[run.generation] == With(t) by { hide WellFormed, Ports, Replies; }
      hide Fates, Listed, Distinct;
      if rc < 0 {
        Takes(r, t, CancelReply(run, r.pending, rc));
      } else {
        forall g ensures !Listed(NONE_PENDING, 0, g) && Distinct(NONE_PENDING) { NothingListed(g); }
        Rewinds(r, Rearmed(r).armed);
        Moves(Rearmed(r), t, CancelReply(run, NONE_PENDING, rc));
      }
    case _ =>
  }

  /** The timer is no part of the account. */
  lemma Rewinds(r: Runs, armed: bool)
    requires Fates(r)
    ensures Fates(r.(armed := armed))
  {
    hide Owes, WellFormed;
  }

  lemma StopFates(r: Runs, t: nat)
    requires Fates(r) && t in r.threads
    ensures Fates(StopEffect(r, t, r.threads[t]))
  {
    PortCount(r);
    hide Fates;
    var th := r.threads[t];
    match th
    case Cancelling(run) =>
      Rewinds(r, false);
      Moves(r.(armed := false), t, Rearming(run));
    case Unhooking(runs) =>
      OwesNothing(th);
      OwesNothing(Dropping(runs, 0));
      Rewinds(r, false);
      Moves(r.(armed := false), t, Dropping(runs, 0));
    case _ =>
  }

  lemma CancelFates(r: Runs, port: nat)
    requires Fates(r) && port < PORTS && |r.pending| == PORTS
    ensures Fates(CancelEffect(r, port))
  {
    hide Fates, Ports, Threads, Replies;
    PortCount(r);
    var run := r.pending[port];
    if run.active {
      var th := Cancelling(run);
      assert forall g :: Owes(th, g) <==> g == run.generation;
      hide Owes;
      TakesOne(r, port, r.nextThread, th);
    }
  }

  lemma LinkDownFates(r: Runs)
    requires Fates(r)
    ensures Fates(LinkDownEffect(r))
  {
    hide Fates, Owes, TakeAll;
    PortCount(r);
    Drops(r);
    OwesNothing(Unhooking(r.pending));
    Spawns(TakeAll(r, Dropped), Unhooking(r.pending));
  }

  lemma FatesStep(s: System, step: Step)
    requires Shaped(s) && Fates(s.runs) && Enabled(s, step)
    ensures Fates(RunsStep(s, step))
  {
    hide Fates, StartEffect, LookEffect, EndEffect, ClaimEffect, ReplyEffect, ArmEffect, CancelEffect, LinkDownEffect,
         EndAnswer, TakeAll, StopEffect;
    var r := s.runs;
    match step
    case Init => Drops(r);
    case Start(port, request, now, rc, armRc) =>
      if !r.pending[port].active && rc == 0 { StartFates(r, port, request, now, StartToken(s.motors, request), armRc); }
    case Fire =>
      OwesNothing(Looking(0));
      Rewinds(r, false);
      Spawns(r.(armed := false), Looking(0));
    case LookStep(t, first, now, e) => LookFates(r, t, r.threads[t].port, first, now, e);
    case EndStep(t, rc, coasted) => EndFates(r, t, EndAnswer(s, t, rc, coasted));
    case ClaimStep(t) => ClaimFates(r, t, r.threads[t].port, r.threads[t].run, r.threads[t].rc);
    case ReplyStep(t) => ReplyFates(r, t);
    case StopTimer(t) => StopFates(r, t);
    case ArmStep(t, rc) => ArmFates(r, t, rc);
    case Cancel(port) => CancelFates(r, port);
    case LinkDown => LinkDownFates(r);
    case _ =>
  }

  lemma FatesInitial(s: System)
    requires Initial(s)
    ensures Fates(s.runs)
  {
  }
}
