/** The arbiter's guarantees over whole runs. */
module TxTheorems {
  import opened Basics
  import opened Octets
  import opened TxModel
  import opened TxSystem
  import opened TxQueues
  import opened TxDelivery
  import opened TxAccounting
  import opened TxRegistrations

  // ---- No registration is lost; the timer is brought in line ---------------------------------

  /** A discard that leaves the registration armed has discarded nothing. */
  lemma DiscardDrains(c: Core, link: Link)
    requires Drained(DiscardLink(c, link).q) && DiscardLink(c, link).drain.id != 0
    ensures Drained(c.q)
  {
    assert !Holds(c.q.frames, link) && !Holds(c.q.responses, link);
    forall i | 0 <= i < |c.q.frames| ensures !c.q.frames[i].tag.used {
      assert !Discard(c.q.frames, link)[i].tag.used;
    }
    forall i | 0 <= i < |c.q.responses| ensures !c.q.responses[i].tag.used {
      assert !Discard(c.q.responses, link)[i].tag.used;
    }
  }

  /** Only pump `p` changed: an obliged pump remains one. */
  lemma ObligedRemains(s: System, t: System, p: nat)
    requires t.core.lifetime == s.core.lifetime
    requires forall p' | p' in s.pumps && p' != p :: p' in t.pumps && t.pumps[p'] == s.pumps[p']
    requires Obliged(s, p) ==> Obliged(t, p)
    ensures (exists p' :: Obliged(s, p')) ==> exists p' :: Obliged(t, p')
  {
    if exists p' :: Obliged(s, p') {
      var p' :| Obliged(s, p');
      assert Obliged(t, p');
    }
  }

  lemma LinkStateNotLost(s: System, link: Link, connected: bool, generation: nat)
    requires NotLost(s)
    ensures NotLost(LinkStateEffect(s, link, connected, generation))
  {
    var t := LinkStateEffect(s, link, connected, generation);
    if t.core.drain.id != 0 && Drained(t.core.q) {
      if !connected || !s.core.q.online.Get(link) || s.core.q.sessions.Get(link) != generation {
        DiscardDrains(s.core, link);
      }
      ObligedRemains(s, t, s.nextPump);
    }
  }

  lemma SetLinkNotLost(s: System, link: Link, selected: bool)
    requires NotLost(s)
    ensures NotLost(SetLinkEffect(s, link, selected))
  {
    var t := SetLinkEffect(s, link, selected);
    if t.core.drain.id != 0 && Drained(t.core.q) {
      if !selected { DiscardDrains(s.core, link); }
      ObligedRemains(s, t, s.nextPump);
    }
  }

  lemma EnqueueResponseNotLost(s: System, link: Link, line: Bytes, capture: Capture)
    requires NotLost(s) && ValidQueues(s.core.q)
    ensures NotLost(EnqueueResponseEffect(s, link, line, capture))
  {
    ResponseValid(s.core.q, link, line, capture);
    var t := EnqueueResponseEffect(s, link, line, capture);
    if ResponseRegion(s.core.q, link, line, capture).1 == 0 {
      assert t.core.q.responses[LastFree(s.core.q.responses, |s.core.q.responses|)].tag.used;
    }
  }

  lemma EnqueueFrameNotLost(s: System, link: Link, buf: Bytes, capture: Capture)
    requires NotLost(s) && ValidQueues(s.core.q)
    ensures NotLost(EnqueueFrameEffect(s, link, buf, capture))
  {
    FrameValid(s.core.q, link, buf, capture);
    var t := EnqueueFrameEffect(s, link, buf, capture);
    if FrameRegion(s.core.q, link, buf, capture).0.ticket != s.core.q.ticket {
      assert t.core.q.frames[FrameTarget(s.core.q.frames)].tag.used;
    }
  }

  /** The pump itself: in the loop of the current lifetime it stays obliged until its last check. */
  lemma PumpObliged(s: System, step: Step)
    requires Enabled(s, step) && (step.PickStep? || step.SendStep? || step.PostStep?)
    ensures Obliged(s, step.pump) ==> Obliged(Apply(s, step), step.pump)
    ensures (exists p :: Obliged(s, p)) ==> exists p :: Obliged(Apply(s, step), p)
  {
    hide Pick;
    ObligedRemains(s, Apply(s, step), step.pump);
  }

  lemma PostNotLost(s: System, p: nat)
    requires NotLost(s) && p in s.pumps && s.pumps[p].stage.Sent?
    ensures NotLost(PostEffect(s, p))
  {
    PumpObliged(s, PostStep(p));
    if s.pumps[p].lifetime == s.core.lifetime {
      assert Obliged(s, p);
    }
  }

  lemma FinishNotLost(s: System, p: nat)
    requires DrainFields(s.core) && p in s.pumps
    ensures NotLost(FinishEffect(s, p))
  {
  }

  lemma ArmNotLost(s: System, cb: Callback, timeout: nat)
    requires NotLost(s)
    ensures NotLost(ArmEffect(s, cb, timeout))
  {
  }

  lemma NotLostStep(s: System, step: Step)
    requires NotLost(s) && Delivery(s) && Registrations(s) && Enabled(s, step)
    ensures NotLost(Apply(s, step))
  {
    hide InitEffect, DeinitEffect, LinkStateEffect, SetLinkEffect, EnqueueResponseEffect, EnqueueFrameEffect,
         EnterPumpEffect, PickEffect, SendEffect, PostEffect, FinishEffect, SetOpsEffect, ArmEffect, ExpireEffect,
         ClearEffect, EnterReconcileEffect, TopEffect, StartReturnsEffect, Drained;
    match step {
      case Init => ClearedNotLost(s);
      case Deinit => ClearedNotLost(s);
      case LinkState(link, connected, generation) => LinkStateNotLost(s, link, connected, generation);
      case SetLink(link, selected) => SetLinkNotLost(s, link, selected);
      case EnqueueResponse(link, line, capture) => EnqueueResponseNotLost(s, link, line, capture);
      case EnqueueFrame(link, buf, capture) => EnqueueFrameNotLost(s, link, buf, capture);
      case EnterPump => EnterPumpObliged(s);
      case PickStep(_) => PumpObliged(s, step);
      case SendStep(_, _) => PumpObliged(s, step);
      case PostStep(p) => PostNotLost(s, p);
      case FinishStep(p) => FinishNotLost(s, p);
      case Arm(cb, timeout) => ArmNotLost(s, cb, timeout);
      case _ =>
        TimerFrame(s, step);
        UnarmedStep(s, step);
        ObligedRemains(s, Apply(s, step), s.nextPump);
    }
  }

  lemma ClearedNotLost(s: System)
    ensures NotLost(InitEffect(s)) && NotLost(DeinitEffect(s))
  {
  }

  lemma EnterPumpObliged(s: System)
    requires s.pumpCalls > 0 && PumpsOk(s)
    ensures (exists p :: Obliged(s, p)) ==> exists p :: Obliged(EnterPumpEffect(s), p)
    ensures (exists p :: Obliged(EnterPumpEffect(s), p)) || Stranded(EnterPumpEffect(s))
  {
    var t := EnterPumpEffect(s);
    assert s.nextPump !in s.pumps;
    ObligedRemains(s, t, s.nextPump);
    if !s.core.pumping {
      assert Obliged(t, s.nextPump);
    } else if !Stranded(s) {
      var w :| w in s.pumps && InLoop(s.pumps[w]) && s.pumps[w].lifetime == s.core.lifetime;
      assert Obliged(t, w);
    }
  }

  /** Other than by arming, no registration appears. */
  lemma UnarmedStep(s: System, step: Step)
    requires Enabled(s, step) && TimerStep(step) && !step.Arm?
    ensures Apply(s, step).core.drain.id != 0 ==> s.core.drain.id != 0
    ensures Apply(s, step).core.drain.counter == s.core.drain.counter
  {
    hide InitEffect, DeinitEffect, LinkStateEffect, SetLinkEffect, EnqueueResponseEffect, EnqueueFrameEffect,
         EnterPumpEffect, PickEffect, SendEffect, PostEffect, FinishEffect, ArmEffect, TopEffect, EnterReconcileEffect,
         StartReturnsEffect;
    match step
    case EnterReconcile => EnterUnarmed(s);
    case CancelReturns(r) => TopUnarmed(s, r);
    case StartReturns(r, rc) => StartUnarmed(s, r, rc);
    case ReportReturns(r) => TopUnarmed(s, r);
    case _ =>
  }

  lemma TopUnarmed(s: System, r: nat)
    ensures TopEffect(s, r).core.drain == s.core.drain
  {
  }

  lemma EnterUnarmed(s: System)
    requires s.reconcileCalls > 0
    ensures EnterReconcileEffect(s).core.drain == s.core.drain
  {
    hide TopEffect;
    TopUnarmed(s.(reconcileCalls := s.reconcileCalls - 1, nextReconciler := s.nextReconciler + 1), s.nextReconciler);
  }

  lemma StartUnarmed(s: System, r: nat, rc: int)
    requires r in s.reconcilers && s.reconcilers[r].Starting?
    ensures var d := StartReturnsEffect(s, r, rc).core.drain;
      (d.id != 0 ==> s.core.drain.id != 0) && d.counter == s.core.drain.counter
  {
    hide TopEffect;
    TopUnarmed(s.(core := StartReturnRegion(s.core, s.reconcilers[r].id, rc)), r);
  }

  lemma LinkSynchronised(s: System, step: Step)
    requires Enabled(s, step) && (step.Init? || step.Deinit? || step.LinkState? || step.SetLink?)
    ensures Synchronised(Apply(s, step))
  {
    hide LinkStateRegion, SetLinkRegion, DeinitRegion, InitRegion;
  }

  lemma FinishSynchronised(s: System, p: nat)
    requires p in s.pumps
    ensures Synchronised(FinishEffect(s, p))
  {
    hide FinalRegion;
  }

  lemma ClientSynchronised(s: System, step: Step)
    requires Synchronised(s) && Enabled(s, step) && (step.SetOps? || step.Arm? || step.Expire? || step.Clear?)
    ensures Synchronised(Apply(s, step))
  {
    TimerFrame(s, step);
    ObligedRemains(s, Apply(s, step), s.nextPump);
  }

  /** Leaving the reconciler means that the timers agree; staying in it means that it is busy. */
  lemma TopSynchronised(s: System, r: nat)
    ensures Synchronised(TopEffect(s, r))
  {
  }

  lemma EnterReconcileSynchronised(s: System)
    requires s.reconcileCalls > 0
    ensures Synchronised(EnterReconcileEffect(s))
  {
    if !s.core.timer.busy {
      TopSynchronised(s.(reconcileCalls := s.reconcileCalls - 1, nextReconciler := s.nextReconciler + 1),
                      s.nextReconciler);
    }
  }

  lemma StartReturnsSynchronised(s: System, r: nat, rc: int)
    requires r in s.reconcilers && s.reconcilers[r].Starting? && s.core.timer.busy
    ensures Synchronised(StartReturnsEffect(s, r, rc))
  {
    var id := s.reconcilers[r].id;
    if !StartFailureClaims(s.core, id, rc) { TopSynchronised(s.(core := StartReturnRegion(s.core, id, rc)), r); }
  }

  lemma SynchronisedStep(s: System, step: Step)
    requires Synchronised(s) && Delivery(s) && Registrations(s) && Enabled(s, step)
    ensures Synchronised(Apply(s, step))
  {
    hide InitEffect, DeinitEffect, LinkStateEffect, SetLinkEffect, EnqueueResponseEffect, EnqueueFrameEffect,
         EnterPumpEffect, PickEffect, SendEffect, PostEffect, FinishEffect, SetOpsEffect, ArmEffect, ExpireEffect,
         ClearEffect, EnterReconcileEffect, TopEffect, StartReturnsEffect;
    match step {
      case Init => LinkSynchronised(s, step);
      case Deinit => LinkSynchronised(s, step);
      case LinkState(_, _, _) => LinkSynchronised(s, step);
      case SetLink(_, _) => LinkSynchronised(s, step);
      case EnqueueResponse(_, _, _) => ObligedRemains(s, Apply(s, step), s.nextPump);
      case EnqueueFrame(_, _, _) => ObligedRemains(s, Apply(s, step), s.nextPump);
      case CallPump =>
      case EnterPump => EnterPumpObliged(s);
      case PickStep(p) => PumpObliged(s, step); PumpCalls(s, step);
      case SendStep(p, _) => PumpObliged(s, step); PumpCalls(s, step);
      case PostStep(p) => PumpObliged(s, step); PumpCalls(s, step);
      case FinishStep(p) => FinishSynchronised(s, p);
      case EnterReconcile => EnterReconcileSynchronised(s);
      case CancelReturns(r) => TopSynchronised(s, r);
      case StartReturns(r, rc) => StartReturnsSynchronised(s, r, rc);
      case ReportReturns(r) => TopSynchronised(s, r);
      case _ => ClientSynchronised(s, step);
    }
  }

  lemma PumpCalls(s: System, step: Step)
    requires Enabled(s, step) && (step.PickStep? || step.SendStep? || step.PostStep?)
    ensures var t := Apply(s, step);
      t.pumpCalls == s.pumpCalls && t.reconcileCalls == s.reconcileCalls && (Stranded(s) ==> Stranded(t))
  {
    hide Pick, PostRegion;
  }

  // ---- Runs ----------------------------------------------------------------------------------

  ghost predicate Inv(s: System) {
    Delivery(s) && Conserved(s) && PumpWork(s) && Registrations(s) && NotLost(s) && Synchronised(s)
  }

  lemma InvInitial(s: System)
    requires Initial(s)
    ensures Inv(s)
  {
    InitialDelivery(s);
    InitialRegistrations(s);
    CountBounds(s.core.q.frames);
  }

  lemma InvStep(s: System, step: Step)
    requires Inv(s) && Enabled(s, step)
    ensures Inv(Apply(s, step))
  {
    hide Apply, Delivery, Conserved, PumpWork, Registrations, NotLost, Synchronised;
    DeliveryStep(s, step);
    ConservedStep(s, step);
    PumpWorkStep(s, step);
    RegistrationsStep(s, step);
    NotLostStep(s, step);
    SynchronisedStep(s, step);
  }

  lemma StepTaken(states: seq<System>, steps: seq<Step>, n: nat)
    requires Run(states, steps) && n < |steps|
    ensures n + 1 < |states| && Enabled(states[n], steps[n]) && states[n + 1] == Apply(states[n], steps[n])
  {
    hide Enabled, Apply, Initial;
  }

  lemma {:induction false} RunInv(states: seq<System>, steps: seq<Step>, n: nat)
    requires Run(states, steps) && n < |states|
    ensures Inv(states[n])
  {
    hide Apply, Inv;
    if n == 0 {
      InvInitial(states[0]);
    } else {
      RunInv(states, steps, n - 1);
      InvStep(states[n - 1], steps[n - 1]);
    }
  }

  /** In every reachable state no ticket has been sent twice, and every send carried what was
      admitted under its ticket, to the link it was admitted for. */
  lemma SentAtMostOnce(states: seq<System>, steps: seq<Step>, n: nat)
    requires Run(states, steps) && n < |states|
    ensures forall i, j | 0 <= i < j < |states[n].sends| :: states[n].sends[i].ticket != states[n].sends[j].ticket
    ensures forall i | 0 <= i < |states[n].sends| ::
      var send := states[n].sends[i];
      && send.ticket in states[n].admitted
      && states[n].admitted[send.ticket].payload == send.payload
      && states[n].admitted[send.ticket].link == send.link
      && states[n].admitted[send.ticket].kind == send.kind
      && states[n].admitted[send.ticket].identity == send.identity
  {
    RunInv(states, steps, n);
    assert SendsRecorded(states[n]) && SendsOrdered(states[n]);
  }

  /** Two successful sends from one queue to one link are in ticket order exactly when their
      pumps' lifetimes are: always within one lifetime, never when a pump that an init left
      behind finishes its send after a send of the new lifetime. */
  lemma SendOrder(states: seq<System>, steps: seq<Step>, n: nat, i: nat, j: nat)
    requires Run(states, steps) && n < |states|
    requires i < j < |states[n].sends|
    requires states[n].sends[i].kind == states[n].sends[j].kind && states[n].sends[i].link == states[n].sends[j].link
    ensures states[n].sends[i].ticket < states[n].sends[j].ticket <==>
      states[n].sends[i].lifetime <= states[n].sends[j].lifetime
  {
    RunInv(states, steps, n);
    var s := states[n];
    SentAtMostOnce(states, steps, n);
    assert SendsRecorded(s) && SendsOrdered(s) && HistoryOk(s);
    var a, b := s.sends[i], s.sends[j];
    assert a.lifetime == s.admitted[a.ticket].lifetime && b.lifetime == s.admitted[b.ticket].lifetime;
  }

  /** Accounting since the last init, occupancy, and validity of what is queued. */
  lemma FrameAccounting(states: seq<System>, steps: seq<Step>, n: nat)
    requires Run(states, steps) && n < |states|
    ensures var s := states[n];
      && s.framesAdmitted == s.core.sent + s.core.droppedOldest + s.framesDiscarded + Count(s.core.q.frames)
      && Count(s.core.q.frames) <= |s.core.q.frames| - 1
      && Count(s.core.q.responses) <= RESP_DEPTH - 1
      && forall kind: Kind, i | Entry(s.core.q, kind, i) ::
           var tag := TagAt(s.core.q, kind, i);
           s.core.q.online.Get(tag.link) && s.core.q.sessions.Get(tag.link) == tag.session
  {
    RunInv(states, steps, n);
    forall kind: Kind, i | Entry(states[n].core.q, kind, i)
      ensures ValidTag(states[n].core.q, TagAt(states[n].core.q, kind, i)) {}
  }

  /** When a pump leaves its loop, every message still queued is for a link whose latest attempt
      in that pump was refused, or holds the one ticket that no scan can pick. */
  lemma PumpLeavesOnlyRefused(states: seq<System>, steps: seq<Step>, n: nat, p: nat)
    requires Run(states, steps) && n < |steps| && steps[n] == PickStep(p)
    requires p in states[n + 1].pumps && states[n + 1].pumps[p].stage.Finishing?
    ensures var t := states[n + 1]; forall kind: Kind, i | Entry(t.core.q, kind, i) ::
      var tag := TagAt(t.core.q, kind, i);
      t.pumps[p].last.Get(tag.link).Refused? || tag.ticket == UINT64_MAX
  {
    var s, t := states[n], states[n + 1];
    RunInv(states, steps, n);
    assert t == PickEffect(s, p);
    assert BlockedOk(s.pumps[p]);
    forall kind: Kind, i | Entry(t.core.q, kind, i)
      ensures var tag := TagAt(t.core.q, kind, i); t.pumps[p].last.Get(tag.link).Refused? || tag.ticket == UINT64_MAX
    {
      assert Entry(s.core.q, kind, i) && ValidTag(s.core.q, TagAt(s.core.q, kind, i));
      assert !Eligible(s.core.q.Slots(kind)[i], s.pumps[p].blocked);
    }
  }

  predicate PumpStep(step: Step) {
    step.EnterPump? || step.PickStep? || step.SendStep? || step.PostStep? || step.FinishStep?
  }

  lemma PumpsUnmoved(s: System, step: Step)
    requires Enabled(s, step) && !PumpStep(step)
    ensures Apply(s, step).pumps == s.pumps && Apply(s, step).nextPump == s.nextPump
  {
    if TimerStep(step) { TimerFrame(s, step); }
    hide InitEffect, DeinitEffect, LinkStateEffect, SetLinkEffect, EnqueueResponseEffect, EnqueueFrameEffect,
         SetOpsEffect, ArmEffect, ExpireEffect, ClearEffect, EnterReconcileEffect, TopEffect, StartReturnsEffect;
  }

  lemma QueueUntouched(s: System, step: Step)
    requires Enabled(s, step) && !step.Init? && !step.Deinit? && !step.LinkState? && !step.SetLink?
    requires !step.EnqueueResponse? && !step.EnqueueFrame? && !step.PostStep?
    ensures Apply(s, step).core.q == s.core.q
  {
    if TimerStep(step) { TimerFrame(s, step); }
    hide EnterPumpEffect, PickEffect, SendEffect, FinishEffect, SetOpsEffect, ArmEffect, ExpireEffect, ClearEffect,
         EnterReconcileEffect, TopEffect, StartReturnsEffect;
  }

  lemma AllowanceFixed(s: System, step: Step, p: nat)
    requires Enabled(s, step) && p in Apply(s, step).pumps && p < s.nextPump
    ensures p in s.pumps && Apply(s, step).pumps[p].allowance == s.pumps[p].allowance
  {
    if PumpStep(step) { PumpMoves(s, step); } else { PumpsUnmoved(s, step); }
    hide Apply;
  }

  /** One pump at most has moved on; only a send changes what it holds about the links, and only a pick
      spends its retry. */
  ghost predicate OneMoves(s: System, t: System, p: nat, sends: bool, picks: bool) {
    && (forall q | q in t.pumps && q != p :: q in s.pumps && t.pumps[q] == s.pumps[q])
    && (p in t.pumps ==>
          && p in s.pumps && t.pumps[p].allowance == s.pumps[p].allowance
          && t.pumps[p].lifetime == s.pumps[p].lifetime && (InLoop(t.pumps[p]) ==> InLoop(s.pumps[p]))
          && (sends || t.pumps[p].last == s.pumps[p].last) && (picks || t.pumps[p].retry == s.pumps[p].retry))
  }

  /** A pump step moves its own pump, or starts a new one. */
  lemma PumpMoves(s: System, step: Step)
    requires Enabled(s, step) && PumpStep(step)
    ensures var t := Apply(s, step);
      if step.EnterPump? then
        && t.nextPump >= s.nextPump
        && (forall q | q in t.pumps && q != s.nextPump :: q in s.pumps && t.pumps[q] == s.pumps[q])
        && (s.nextPump in t.pumps ==> s.nextPump in s.pumps || t.pumps[s.nextPump] == FreshPump(s.core))
      else t.nextPump == s.nextPump && OneMoves(s, t, step.pump, step.SendStep?, step.PickStep?)
  {
    hide PickEffect, SendEffect, PostEffect, FinishEffect;
    match step
    case EnterPump => hide Count;
    case PickStep(p) => PickMoves(s, p);
    case SendStep(p, rc) => SendMoves(s, p, rc);
    case PostStep(p) => PostMoves(s, p);
    case FinishStep(p) => FinishMoves(s, p);
  }

  lemma PickMoves(s: System, p: nat)
    requires p in s.pumps && s.pumps[p].stage.Picking?
    ensures PickEffect(s, p).nextPump == s.nextPump && OneMoves(s, PickEffect(s, p), p, false, true)
  {
    hide Pick;
  }

  lemma SendMoves(s: System, p: nat, rc: int)
    requires p in s.pumps && s.pumps[p].stage.Sending?
    ensures SendEffect(s, p, rc).nextPump == s.nextPump && OneMoves(s, SendEffect(s, p, rc), p, true, false)
  {
    hide SendOutcome;
  }

  lemma PostMoves(s: System, p: nat)
    requires p in s.pumps && s.pumps[p].stage.Sent?
    ensures PostEffect(s, p).nextPump == s.nextPump && OneMoves(s, PostEffect(s, p), p, false, false)
  {
    hide PostRegion, SendOutcome;
  }

  lemma FinishMoves(s: System, p: nat)
    requires p in s.pumps
    ensures FinishEffect(s, p).nextPump == s.nextPump && OneMoves(s, FinishEffect(s, p), p, false, false)
  {
    hide FinalRegion, ReconcileNeeded, Claimed;
  }

  lemma NextPumpGrows(s: System, step: Step)
    requires Enabled(s, step)
    ensures Apply(s, step).nextPump >= s.nextPump
  {
    hide InitEffect, DeinitEffect, LinkStateEffect, SetLinkEffect, EnqueueResponseEffect, EnqueueFrameEffect,
         SetOpsEffect, ArmEffect, ExpireEffect, ClearEffect, EnterReconcileEffect, TopEffect, StartReturnsEffect, Pick,
         PostRegion, Count, FinalRegion;
  }

  lemma AllowanceStart(s: System, step: Step)
    requires Enabled(s, step) && step.EnterPump? && !s.core.pumping
    ensures var t := Apply(s, step);
      t.nextPump > s.nextPump && s.nextPump in t.pumps
      && t.pumps[s.nextPump].allowance == Queued(s.core.q) + 4 - s.core.q.ticket
  {
    assert Apply(s, step) == EnterPumpEffect(s);
  }

  lemma {:induction false} AllowanceSince(states: seq<System>, steps: seq<Step>, i: nat, n: nat)
    requires Run(states, steps) && i < n < |states| && steps[i].EnterPump? && !states[i].core.pumping
    ensures states[n].nextPump > states[i].nextPump
    ensures var p := states[i].nextPump;
      p in states[n].pumps ==> states[n].pumps[p].allowance == Queued(states[i].core.q) + 4 - states[i].core.q.ticket
  {
    hide Apply;
    if n == i + 1 {
      AllowanceStart(states[i], steps[i]);
    } else {
      AllowanceSince(states, steps, i, n - 1);
      RunInv(states, steps, n - 1);
      NextPumpGrows(states[n - 1], steps[n - 1]);
      if states[i].nextPump in states[n].pumps {
        AllowanceFixed(states[n - 1], steps[n - 1], states[i].nextPump);
      }
    }
  }

  /** A pump makes at most as many send attempts as messages were queued when it started, plus
      the messages admitted since, plus 4. */
  lemma PumpAttemptsBounded(states: seq<System>, steps: seq<Step>, i: nat, n: nat)
    requires Run(states, steps) && i < n < |states| && steps[i].EnterPump? && !states[i].core.pumping
    requires states[i].nextPump in states[n].pumps
    ensures states[n].pumps[states[i].nextPump].attempts <=
            Queued(states[i].core.q) + (states[n].core.q.ticket - states[i].core.q.ticket) + 4
  {
    RunInv(states, steps, n);
    AllowanceSince(states, steps, i, n);
    assert WithinAllowance(states[n], states[n].pumps[states[i].nextPump]);
  }

  /** Ids 1..counter are each claimed exactly once, the armed one excepted, which is unclaimed. */
  lemma ClaimedExactlyOnce(states: seq<System>, steps: seq<Step>, n: nat)
    requires Run(states, steps) && n < |states|
    ensures var s := states[n];
      && (forall i, j | 0 <= i < j < |s.claims| :: s.claims[i].id != s.claims[j].id)
      && (forall id: nat :: IsClaimed(s, id) <==> 1 <= id <= s.core.drain.counter && id != s.core.drain.id)
  {
    RunInv(states, steps, n);
  }

  lemma {:induction false} CounterGrows(states: seq<System>, steps: seq<Step>, i: nat, j: nat)
    requires Run(states, steps) && i <= j < |states|
    ensures states[i].core.drain.counter <= states[j].core.drain.counter
  {
    hide Apply;
    if i < j {
      CounterGrows(states, steps, i, j - 1);
      CounterStep(states[j - 1], steps[j - 1]);
    }
  }

  lemma CounterStep(s: System, step: Step)
    requires Enabled(s, step)
    ensures s.core.drain.counter <= Apply(s, step).core.drain.counter
  {
    if TimerStep(step) && !step.Arm? {
      UnarmedStep(s, step);
    } else if step.Init? || step.Deinit? || step.LinkState? || step.SetLink? {
      LinkCounter(s, step);
    } else {
      hide InitEffect, DeinitEffect, LinkStateEffect, SetLinkEffect, EnqueueResponseEffect, EnqueueFrameEffect,
           EnterPumpEffect, PickEffect, SendEffect, PostEffect, SetOpsEffect, ExpireEffect, ClearEffect,
           EnterReconcileEffect, TopEffect, StartReturnsEffect;
    }
  }

  lemma LinkCounter(s: System, step: Step)
    requires Enabled(s, step) && (step.Init? || step.Deinit? || step.LinkState? || step.SetLink?)
    ensures s.core.drain.counter == Apply(s, step).core.drain.counter
  {
    if step.LinkState? || step.SetLink? { DiscardCounter(s.core, step.link); }
    hide DiscardLink, Count, Claimed, ReconcileNeeded;
  }

  lemma DiscardCounter(c: Core, link: Link)
    ensures DiscardLink(c, link).drain.counter == c.drain.counter
  {
    hide Discard, Holds;
  }

  /** A registration id is never given out again. */
  lemma IdsNeverReused(states: seq<System>, steps: seq<Step>, i: nat, j: nat)
    requires Run(states, steps) && i < j < |steps| && steps[i].Arm? && steps[j].Arm?
    ensures var (_, a) := ArmRegion(states[i].core, steps[i].cb, steps[i].timeout);
            var (_, b) := ArmRegion(states[j].core, steps[j].cb, steps[j].timeout);
            a.Ok? && b.Ok? ==> a.value.0 < b.value.0
  {
    CounterGrows(states, steps, i + 1, j);
  }

  /** An armed registration whose queues are empty has a pump that will still make its final check. */
  lemma RegistrationNotLost(states: seq<System>, steps: seq<Step>, n: nat)
    requires Run(states, steps) && n < |states| && states[n].core.drain.id != 0 && Drained(states[n].core.q)
    ensures exists p :: p in states[n].pumps &&
              (states[n].pumps[p].stage.Finishing? || states[n].pumps[p].lifetime == states[n].core.lifetime)
  {
    RunInv(states, steps, n);
    var p :| Obliged(states[n], p);
  }

  /** Back-end calls never overlap; each id is started at most once and cancelled at most once,
      and only after a start by the same provider. */
  lemma TimerCallsSerialised(states: seq<System>, steps: seq<Step>, n: nat)
    requires Run(states, steps) && n < |states|
    ensures var s := states[n];
      && (forall r, r' | r in s.reconcilers && r' in s.reconcilers :: r == r')
      && (forall i, j | 0 <= i < j < |s.starts| :: s.starts[i].id != s.starts[j].id)
      && (forall i, j | 0 <= i < j < |s.cancels| :: s.cancels[i].id != s.cancels[j].id)
      && (forall i | 0 <= i < |s.cancels| :: s.cancels[i] in s.starts)
  {
    RunInv(states, steps, n);
  }

  /** In every run, with or without a deinit: once no pump, reconciler or pending call remains and
      the flag of a running pump is clear, the installed timer is the one the current registration
      wants. */
  lemma QuietMeansSynchronised(states: seq<System>, steps: seq<Step>, n: nat)
    requires Run(states, steps) && n < |states|
    requires states[n].pumps == map[] && states[n].reconcilers == map[] && !states[n].core.pumping
    requires states[n].pumpCalls == 0 && states[n].reconcileCalls == 0
    ensures var drain := states[n].core.drain;
      states[n].core.timer.id == if drain.timeout != 0 then drain.id else 0
  {
    RunInv(states, steps, n);
  }

  /** Between an init and the next deinit the flag tells the truth: a pump is in its loop. */
  lemma FlagMeansPump(states: seq<System>, steps: seq<Step>, n: nat)
    requires Run(states, steps) && n < |states| && states[n].up
    ensures states[n].core.pumping <==>
      exists p :: p in states[n].pumps && InLoop(states[n].pumps[p])
        && states[n].pumps[p].lifetime == states[n].core.lifetime
  {
    RunInv(states, steps, n);
    assert PumpsOk(states[n]);
  }
}
