/** No wake-up is lost: what is queued while nobody pumps is what the last pump was refused. */
module TxWakeUp {
  import opened Basics
  import opened Octets
  import opened TxModel
  import opened TxSystem
  import opened TxQueues
  import opened TxDelivery
  import opened TxAccounting
  import opened TxTheorems

  /** The link was refused in the last pump that left its loop, or the ticket cannot be picked. */
  predicate Excused(departed: PerLink<Attempt>, tag: Tag) {
    departed.Get(tag.link).Refused? || tag.ticket == UINT64_MAX
  }

  ghost predicate AllExcused(q: Queues, departed: PerLink<Attempt>) {
    forall kind: Kind, i | Entry(q, kind, i) :: Excused(departed, TagAt(q, kind, i))
  }

  /** No pump is running and none has been called. */
  ghost predicate Awake(s: System) {
    !s.core.pumping && s.pumpCalls == 0 ==> AllExcused(s.core.q, s.departed)
  }

  lemma ShrinkExcused(before: Queues, after: Queues, departed: PerLink<Attempt>)
    requires Shrinks(before, after) && AllExcused(before, departed)
    ensures AllExcused(after, departed)
  {
    hide Excused;
    forall kind: Kind, i | Entry(after, kind, i) ensures Excused(departed, TagAt(after, kind, i)) {
      assert Entry(before, kind, i);
    }
  }

  lemma InitAwake(s: System)
    ensures Awake(InitEffect(s))
  {
    hide Excused;
    assert forall kind: Kind, i :: !Entry(InitEffect(s).core.q, kind, i) by {
      forall kind: Kind, i ensures !Entry(InitEffect(s).core.q, kind, i) { if kind.Frame? {} else {} }
    }
  }

  lemma DeinitAwake(s: System)
    ensures Awake(DeinitEffect(s))
  {
    hide Excused;
    assert forall kind: Kind, i :: !Entry(DeinitEffect(s).core.q, kind, i) by {
      forall kind: Kind, i ensures !Entry(DeinitEffect(s).core.q, kind, i) { if kind.Frame? {} else {} }
    }
  }

  lemma SetLinkAwake(s: System, link: Link, selected: bool)
    requires Awake(s) && ValidQueues(s.core.q)
    ensures Awake(SetLinkEffect(s, link, selected))
  {
    SetLinkValid(s.core, link, selected);
    var t := SetLinkEffect(s, link, selected);
    assert t.core == SetLinkRegion(s.core, link, selected);
    if !selected && !s.core.pumping && s.pumpCalls == 0 { ShrinkExcused(s.core.q, t.core.q, s.departed); }
    hide Shrinks, ValidQueues, SetLinkRegion, AllExcused;
    assert t.core.pumping == s.core.pumping by { SetLinkKeepsFlag(s.core, link, selected); }
  }

  lemma SetLinkKeepsFlag(c: Core, link: Link, selected: bool)
    ensures SetLinkRegion(c, link, selected).pumping == c.pumping
  {
  }

  /** Leaving the loop: nothing eligible is left, so every message is excused. */
  lemma DepartAwake(s: System, p: nat)
    requires Awake(s) && ValidQueues(s.core.q) && PumpWork(s) && PumpsOk(s) && p in s.pumps && s.pumps[p].stage.Picking?
    ensures Awake(PickEffect(s, p))
  {
    var pump := s.pumps[p];
    assert BlockedOk(pump);
    if pump.lifetime == s.core.lifetime && Pick(s.core, pump).Done? {
      forall kind: Kind, i | Entry(s.core.q, kind, i) ensures Excused(pump.last, TagAt(s.core.q, kind, i)) {
        assert ValidTag(s.core.q, TagAt(s.core.q, kind, i));
        assert !Eligible(s.core.q.Slots(kind)[i], pump.blocked);
      }
      assert AllExcused(s.core.q, pump.last);
    }
    hide Pick, PumpWork, ValidQueues, AllExcused;
  }

  lemma PostAwake(s: System, p: nat)
    requires Awake(s) && p in s.pumps && s.pumps[p].stage.Sent?
    ensures Awake(PostEffect(s, p))
  {
    var t := PostEffect(s, p);
    if s.pumps[p].lifetime == s.core.lifetime {
      PostShrinks(s.core, s.pumps[p].stage.msg, s.pumps[p].stage.rc);
      if !s.core.pumping && s.pumpCalls == 0 { ShrinkExcused(s.core.q, t.core.q, s.departed); }
    }
    hide Shrinks, AllExcused, StillThere;
  }

  lemma PostShrinks(c: Core, m: Message, rc: int)
    ensures Shrinks(c.q, PostRegion(c, m, rc).q)
  {
    hide StillThere;
    if !SendOutcome(m.Tag().link, rc).Refused? && StillThere(c.q, m) {
      assert m.slot < |c.q.Slots(m.kind)| by { InSlots(c.q, m); }
      var after := PostRegion(c, m, rc).q;
      forall kind: Kind, i | Entry(after, kind, i)
        ensures Entry(c.q, kind, i) && after.Slots(kind)[i] == c.q.Slots(kind)[i]
      {
      }
    }
  }

  lemma InSlots(q: Queues, m: Message)
    requires StillThere(q, m)
    ensures m.slot < |q.Slots(m.kind)|
  {
  }

  /** Steps that leave the queue, the flag and the departed pump alone, and take no pump call away. */
  lemma FrameAwake(s: System, step: Step)
    requires Awake(s) && Enabled(s, step)
    requires step.SendStep? || step.FinishStep? || TimerStep(step)
    ensures Awake(Apply(s, step))
  {
    hide AllExcused;
    if TimerStep(step) {
      TimerFrame(s, step);
      TimerCalls(s, step);
    }
    hide Count, SetOpsEffect, ArmEffect, ExpireEffect, ClearEffect, EnterReconcileEffect, TopEffect, StartReturnsEffect;
  }

  lemma TimerCalls(s: System, step: Step)
    requires Enabled(s, step) && TimerStep(step)
    ensures Apply(s, step).pumpCalls >= s.pumpCalls
  {
    hide Count, Drained;
  }

  lemma AwakeStep(s: System, step: Step)
    requires Awake(s) && TxTheorems.Inv(s) && Enabled(s, step)
    ensures Awake(Apply(s, step))
  {
    assert ValidQueues(s.core.q) && PumpsOk(s) && PumpWork(s);
    hide TxTheorems.Inv, Delivery, AllExcused, ValidQueues, PumpsOk, PumpWork;
    hide InitEffect, DeinitEffect, SetLinkEffect, PickEffect, PostEffect, SendEffect, FinishEffect, SetOpsEffect,
         ArmEffect, ExpireEffect, ClearEffect, EnterReconcileEffect, TopEffect, StartReturnsEffect, EnqueueFrameEffect,
         EnqueueResponseEffect;
    match step
    case Init => InitAwake(s);
    case Deinit => DeinitAwake(s);
    case LinkState(_, _, _) =>
    case SetLink(link, selected) => SetLinkAwake(s, link, selected);
    case EnqueueResponse(link, line, capture) => ResponseAwake(s, link, line, capture);
    case EnqueueFrame(link, buf, capture) => FrameEnqueueAwake(s, link, buf, capture);
    case CallPump =>
    case EnterPump =>
    case PickStep(p) => DepartAwake(s, p);
    case PostStep(p) => PostAwake(s, p);
    case _ => FrameAwake(s, step);
  }

  lemma ResponseAwake(s: System, link: Link, line: Bytes, capture: Capture)
    requires Awake(s)
    ensures Awake(EnqueueResponseEffect(s, link, line, capture))
  {
    hide AllExcused, ResponseRegion;
  }

  lemma FrameEnqueueAwake(s: System, link: Link, buf: Bytes, capture: Capture)
    requires Awake(s)
    ensures Awake(EnqueueFrameEffect(s, link, buf, capture))
  {
    hide AllExcused, FrameRegion;
  }

  lemma {:induction false} RunAwake(states: seq<System>, steps: seq<Step>, n: nat)
    requires Run(states, steps) && n < |states|
    ensures Awake(states[n])
    decreases n
  {
    hide Apply, Awake, TxTheorems.Inv, Enabled;
    if n == 0 {
      InitialAwake(states[0]);
    } else {
      RunAwake(states, steps, n - 1);
      RunInv(states, steps, n - 1);
      AwakeStep(states[n - 1], steps[n - 1]);
    }
  }

  lemma InitialAwake(s: System)
    requires Initial(s)
    ensures Awake(s)
  {
    hide Excused;
    forall kind: Kind, i ensures !Entry(s.core.q, kind, i) { if kind.Frame? {} else {} }
  }

  /** In every state of every run in which no pump is running and no pump call is pending, every queued
      message is for a link that the last pump to leave its loop was refused on, or holds the last
      ticket; between an init and the next deinit "no pump is running" may be read off the pumps. */
  lemma NoLostWakeUp(states: seq<System>, steps: seq<Step>, n: nat)
    requires Run(states, steps) && n < |states| && states[n].pumpCalls == 0
    requires !states[n].core.pumping || (states[n].up && forall p | p in states[n].pumps :: !InLoop(states[n].pumps[p]))
    ensures forall kind: Kind, i | Entry(states[n].core.q, kind, i) ::
      var tag := TagAt(states[n].core.q, kind, i);
      states[n].departed.Get(tag.link).Refused? || tag.ticket == UINT64_MAX
  {
    RunAwake(states, steps, n);
    if states[n].up { FlagMeansPump(states, steps, n); }
    hide Run;
  }

  // ---- Calls that find a pump running -----------------------------------------------------------

  /** The pump of the current lifetime, in its loop. */
  predicate Pumps(s: System, p: nat) {
    p in s.pumps && InLoop(s.pumps[p]) && s.pumps[p].lifetime == s.core.lifetime
  }

  /** The pump looks again: both links are open to it once more, and its one retry is spent. */
  predicate LooksAgain(s: System, step: Step, t: System, p: nat) {
    && step == PickStep(p) && p in s.pumps && p in t.pumps && s.pumps[p].retry && !t.pumps[p].retry
    && t.pumps[p].blocked == PerLink(false, false) && t.pumps[p].stage.Picking?
  }

  lemma LifetimeGrows(s: System, step: Step)
    requires Enabled(s, step)
    ensures s.core.lifetime <= Apply(s, step).core.lifetime
  {
    if TimerStep(step) { TimerFrame(s, step); }
    hide Count, Pick, PostRegion, DiscardLink, FinalRegion, ReconcileNeeded, Claimed, ResponseRegion, FrameRegion,
         SetOpsEffect, ArmEffect, ExpireEffect, ClearEffect, EnterReconcileEffect, TopEffect, StartReturnsEffect;
  }

  /** A pump's retry is spent only by looking again, and never comes back. */
  lemma RetryStep(s: System, step: Step, p: nat)
    requires Enabled(s, step) && PumpsOk(s) && p in Apply(s, step).pumps && p in s.pumps
    ensures Apply(s, step).pumps[p].retry ==> s.pumps[p].retry
    ensures s.pumps[p].retry && !Apply(s, step).pumps[p].retry <==> LooksAgain(s, step, Apply(s, step), p)
  {
    assert p < s.nextPump;
    if step == PickStep(p) {
      PickRetry(s, p);
    } else if PumpStep(step) {
      PumpMoves(s, step);
    } else {
      PumpsUnmoved(s, step);
    }
    hide Apply, PumpsOk;
  }

  lemma PickRetry(s: System, p: nat)
    requires p in s.pumps && s.pumps[p].stage.Picking? && p in PickEffect(s, p).pumps
    ensures var t := PickEffect(s, p);
      && (t.pumps[p].retry ==> s.pumps[p].retry)
      && (s.pumps[p].retry && !t.pumps[p].retry <==> LooksAgain(s, PickStep(p), t, p))
  {
    hide Pick;
  }

  /** The request to look again stands until the pump does. */
  lemma AskedStep(s: System, step: Step, p: nat)
    requires Enabled(s, step) && PumpsOk(s) && Pumps(s, p) && Pumps(Apply(s, step), p)
    requires s.core.repoll || !s.pumps[p].retry || step.EnterPump?
    ensures Apply(s, step).core.repoll || !Apply(s, step).pumps[p].retry
  {
    RetryStep(s, step, p);
    assert s.core.pumping;
    if step.PickStep? {
      AskedPick(s, step.pump, p);
    } else if !step.EnterPump? {
      FlagStays(s, step);
      hide Apply;
    }
    hide PumpsOk, Count, PickEffect;
  }

  lemma AskedPick(s: System, q: nat, p: nat)
    requires PumpsOk(s) && Pumps(s, p) && q in s.pumps && s.pumps[q].stage.Picking? && Pumps(PickEffect(s, q), p)
    requires s.core.repoll || !s.pumps[p].retry
    ensures PickEffect(s, q).core.repoll || !PickEffect(s, q).pumps[p].retry
  {
    hide Pick;
  }

  lemma FlagStays(s: System, step: Step)
    requires Enabled(s, step) && !step.EnterPump? && !step.PickStep?
    ensures Apply(s, step).core.repoll == s.core.repoll
  {
    if step.EnterReconcile? || step.CancelReturns? || step.ReportReturns? || step.StartReturns? {
      ReconcilerFlag(s, step);
      hide Apply;
    } else if PumpStep(step) {
      PumpFlag(s, step);
      hide Apply;
    } else if step.LinkState? || step.SetLink? {
      hide Count, Discard, Holds, Claimed;
    } else {
      hide Count, Drained, ResponseRegion, FrameRegion, ReconcileNeeded, Claimed, Recorded;
    }
  }

  lemma PumpFlag(s: System, step: Step)
    requires Enabled(s, step) && (step.SendStep? || step.PostStep? || step.FinishStep?)
    ensures Apply(s, step).core.repoll == s.core.repoll
  {
    hide Drained, StillThere, SendOutcome, ReconcileNeeded, Claimed;
  }

  lemma ReconcilerFlag(s: System, step: Step)
    requires Enabled(s, step)
    requires step.EnterReconcile? || step.CancelReturns? || step.ReportReturns? || step.StartReturns?
    ensures Apply(s, step).core.repoll == s.core.repoll
  {
    hide ReconcileTop, StartReturnRegion;
    forall c: Core ensures ReconcileTop(c).0.repoll == c.repoll { TopFlag(c); }
    forall c: Core, id: nat, rc: int ensures StartReturnRegion(c, id, rc).repoll == c.repoll { StartFlag(c, id, rc); }
  }

  lemma TopFlag(c: Core)
    ensures ReconcileTop(c).0.repoll == c.repoll
  {
  }

  lemma StartFlag(c: Core, id: nat, rc: int)
    ensures StartReturnRegion(c, id, rc).repoll == c.repoll
  {
  }

  /** One step back, a pump in its loop was there, if it existed. */
  lemma PumpedBefore(s: System, step: Step, p: nat)
    requires Enabled(s, step) && PumpsOk(s) && p < s.nextPump && Pumps(Apply(s, step), p)
    ensures Pumps(s, p)
  {
    LifetimeGrows(s, step);
    if PumpStep(step) { PumpMoves(s, step); } else { PumpsUnmoved(s, step); }
    hide Apply, PumpsOk;
  }

  /** In step `k` the pump looks again. */
  predicate LooksAgainAt(states: seq<System>, steps: seq<Step>, k: nat, p: nat) {
    k < |steps| && k + 1 < |states| && LooksAgain(states[k], steps[k], states[k + 1], p)
  }

  /** From a call that finds pump `p` running on: as long as the pump is in its loop it has been asked to
      look again, or has spent its retry; and it has looked again since exactly if its retry, available
      at the call, is spent. */
  lemma {:induction false} AskedSince(states: seq<System>, steps: seq<Step>, i: nat, n: nat, p: nat)
    requires Run(states, steps) && i < n < |states| && steps[i] == EnterPump && Pumps(states[i], p)
    requires Pumps(states[n], p)
    ensures states[n].core.repoll || !states[n].pumps[p].retry
    ensures states[n].pumps[p].retry ==> states[i].pumps[p].retry
    ensures (exists k | i < k < n :: LooksAgainAt(states, steps, k, p)) <==>
      states[i].pumps[p].retry && !states[n].pumps[p].retry
    decreases n
  {
    hide Apply, Enabled, Pumps, LooksAgain, TxTheorems.Inv;
    PumpsOkAt(states, steps, i);
    PumpsOkAt(states, steps, n - 1);
    StepTaken(states, steps, n - 1);
    InMap(states[i], p);
    PumpNumber(states, steps, i, n - 1, p);
    PumpedBefore(states[n - 1], steps[n - 1], p);
    InMap(states[n - 1], p);
    InMap(states[n], p);
    RetryStep(states[n - 1], steps[n - 1], p);
    hide Run;
    if n > i + 1 {
      AskedSince(states, steps, i, n - 1, p);
      assert LooksAgainAt(states, steps, n - 1, p) <==> LooksAgain(states[n - 1], steps[n - 1], states[n], p);
    } else {
      assert !LooksAgain(states[i], steps[i], states[i + 1], p) by { NotByEntering(states[i], states[i + 1], p); }
    }
    AskedStep(states[n - 1], steps[n - 1], p);
  }

  lemma NotByEntering(s: System, t: System, p: nat)
    ensures !LooksAgain(s, EnterPump, t, p)
  {
  }

  lemma InMap(s: System, p: nat)
    requires Pumps(s, p)
    ensures p in s.pumps
  {
  }

  lemma PumpsOkAt(states: seq<System>, steps: seq<Step>, n: nat)
    requires Run(states, steps) && n < |states|
    ensures PumpsOk(states[n])
  {
    RunInv(states, steps, n);
  }

  lemma {:induction false} PumpNumber(states: seq<System>, steps: seq<Step>, i: nat, n: nat, p: nat)
    requires Run(states, steps) && i <= n < |states| && p in states[i].pumps
    ensures p < states[n].nextPump
    decreases n
  {
    hide Apply, Enabled;
    if i < n {
      PumpNumber(states, steps, i, n - 1, p);
      NextPumpGrows(states[n - 1], steps[n - 1]);
    } else {
      PumpsOkAt(states, steps, i);
    }
  }

  /** A pump call that finds another pump running hands its wish over: before that pump leaves its loop
      it looks at both links once more, if and only if it still has its retry at the call. */
  lemma LooksAgainExactly(states: seq<System>, steps: seq<Step>, i: nat, n: nat, p: nat)
    requires Run(states, steps) && i < n < |steps| && steps[i] == EnterPump && Pumps(states[i], p)
    requires Pumps(states[n], p) && steps[n] == PickStep(p)
    requires p in states[n + 1].pumps && states[n + 1].pumps[p].stage.Finishing?
    ensures (exists k | i < k < n :: LooksAgainAt(states, steps, k, p)) <==> states[i].pumps[p].retry
  {
    AskedSince(states, steps, i, n, p);
    StepTaken(states, steps, n);
    hide Run, LooksAgainAt;
  }
}
