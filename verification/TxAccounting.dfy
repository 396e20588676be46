/** Frame accounting, and how much work one pump can do. */
module TxAccounting {
  import opened Basics
  import opened Octets
  import opened TxModel
  import opened TxSystem
  import opened TxQueues
  import opened TxDelivery

  // ---- Conservation of frames --------------------------------------------------------------

  ghost predicate Conserved(s: System) {
    s.framesAdmitted == s.core.sent + s.core.droppedOldest + s.framesDiscarded + Count(s.core.q.frames)
  }

  lemma InitConserved(s: System)
    requires Delivery(s)
    ensures Conserved(InitEffect(s))
  {
    ClearedValid(s.core.q, InitEffect(s).core.q);
  }

  lemma DiscardConserved(s: System, after: Core)
    requires Conserved(s) && Count(after.q.frames) <= Count(s.core.q.frames)
    requires after.sent == s.core.sent && after.droppedOldest == s.core.droppedOldest
    ensures Conserved(DiscardEffect(s, after))
  {
  }

  lemma DeinitConserved(s: System)
    requires Delivery(s) && Conserved(s)
    ensures Conserved(DeinitEffect(s))
  {
    ClearedValid(s.core.q, DeinitRegion(s.core).q);
    DiscardConserved(s, DeinitRegion(s.core));
  }

  lemma LinkStateConserved(s: System, link: Link, connected: bool, generation: nat)
    requires Delivery(s) && Conserved(s)
    ensures Conserved(LinkStateEffect(s, link, connected, generation))
  {
    var after := LinkStateRegion(s.core, link, connected, generation);
    LinkStateValid(s.core, link, connected, generation);
    ShrinkCount(s.core.q, after.q, Frame);
    DiscardConserved(s, after);
  }

  lemma SetLinkConserved(s: System, link: Link, selected: bool)
    requires Delivery(s) && Conserved(s)
    ensures Conserved(SetLinkEffect(s, link, selected))
  {
    var after := SetLinkRegion(s.core, link, selected);
    SetLinkValid(s.core, link, selected);
    ShrinkCount(s.core.q, after.q, Frame);
    DiscardConserved(s, after);
  }

  lemma EnqueueResponseConserved(s: System, link: Link, line: Bytes, capture: Capture)
    requires Delivery(s) && Conserved(s)
    ensures Conserved(EnqueueResponseEffect(s, link, line, capture))
  {
    ResponseValid(s.core.q, link, line, capture);
  }

  lemma EnqueueFrameConserved(s: System, link: Link, buf: Bytes, capture: Capture)
    requires Delivery(s) && Conserved(s)
    ensures Conserved(EnqueueFrameEffect(s, link, buf, capture))
  {
    FrameValid(s.core.q, link, buf, capture);
  }

  lemma PickConserved(s: System, p: nat)
    requires Conserved(s) && p in s.pumps
    ensures Conserved(PickEffect(s, p))
  {
  }

  lemma FinishConserved(s: System, p: nat)
    requires Conserved(s) && p in s.pumps
    ensures Conserved(FinishEffect(s, p))
  {
  }

  /** Admitted since the last init == sent + dropped oldest + discarded + still queued. */
  lemma ConservedStep(s: System, step: Step)
    requires Delivery(s) && Enabled(s, step) && Conserved(s)
    ensures Conserved(Apply(s, step))
  {
    hide InitEffect, DeinitEffect, LinkStateEffect, SetLinkEffect, EnqueueResponseEffect, EnqueueFrameEffect,
         EnterPumpEffect, PickEffect, SendEffect, PostEffect, FinishEffect, SetOpsEffect, ArmEffect, ExpireEffect,
         ClearEffect, EnterReconcileEffect, TopEffect, StartReturnsEffect, Delivery, Count;
    match step {
      case Init => InitConserved(s);
      case Deinit => DeinitConserved(s);
      case LinkState(link, connected, generation) => LinkStateConserved(s, link, connected, generation);
      case SetLink(link, selected) => SetLinkConserved(s, link, selected);
      case EnqueueResponse(link, line, capture) => EnqueueResponseConserved(s, link, line, capture);
      case EnqueueFrame(link, buf, capture) => EnqueueFrameConserved(s, link, buf, capture);
      case EnterPump => EnterConserved(s);
      case PickStep(p) => PickConserved(s, p);
      case SendStep(p, rc) => SendConserved(s, p, rc);
      case PostStep(p) => PostConserved(s, p);
      case FinishStep(p) => FinishConserved(s, p);
      case _ => TimerFrame(s, step);
    }
  }

  lemma EnterConserved(s: System)
    requires Conserved(s) && s.pumpCalls > 0
    ensures Conserved(EnterPumpEffect(s))
  {
  }

  lemma SendConserved(s: System, p: nat, rc: int)
    requires Conserved(s) && p in s.pumps && s.pumps[p].stage.Sending?
    ensures Conserved(SendEffect(s, p, rc))
  {
  }

  lemma PostConserved(s: System, p: nat)
    requires Delivery(s) && Conserved(s) && p in s.pumps && s.pumps[p].stage.Sent?
    ensures Conserved(PostEffect(s, p))
  {
    var m, rc := s.pumps[p].stage.msg, s.pumps[p].stage.rc;
    if s.pumps[p].lifetime == s.core.lifetime {
      PostValid(s.core, m, rc);
      var after := PostRegion(s.core, m, rc);
      assert after.q.Slots(Frame) == after.q.frames && s.core.q.Slots(Frame) == s.core.q.frames;
      if !SendOutcome(m.Tag().link, rc).Refused? && StillThere(s.core.q, m) {
        assert after.q.Slots(m.kind)[m.slot] != s.core.q.Slots(m.kind)[m.slot];
      }
    }
  }

  // ---- The work of one pump ----------------------------------------------------------------

  function Queued(q: Queues): nat { Count(q.responses) + Count(q.frames) }

  ghost predicate InQueue(q: Queues, m: Message) {
    Entry(q, m.kind, m.slot) && TagAt(q, m.kind, m.slot).ticket == m.Tag().ticket
  }

  function Unblocked(p: Pump): nat { (if p.blocked.classic then 0 else 1) + (if p.blocked.ble then 0 else 1) }

  /** Refusals still possible: one for each open link, and one more for each link after a retry. */
  function Room(p: Pump): nat { Unblocked(p) + if p.retry then 2 else 0 }

  /** A link is blocked only by a refusal that is this pump's latest attempt on it. */
  ghost predicate BlockedOk(p: Pump) {
    && (forall link: Link :: p.blocked.Get(link) ==> p.last.Get(link).Refused?)
    && (Carries(p) ==> !p.blocked.Get(p.stage.msg.Tag().link))
    && (p.stage.Sent? ==> p.last.Get(p.stage.msg.Tag().link) == SendOutcome(p.stage.msg.Tag().link, p.stage.rc))
  }

  /** Attempts made, plus those that queued messages and open links can still cause, stay within
      what was queued when the pump started, plus 4, plus what was admitted since. */
  ghost predicate WithinAllowance(s: System, p: Pump) {
    var limit := p.allowance + s.core.q.ticket;
    && p.attempts + (if p.stage.Sending? then 1 else 0) <= limit
    && (p.lifetime == s.core.lifetime && InLoop(p) ==>
          p.attempts + Queued(s.core.q) + Room(p)
          + (if Carries(p) && !InQueue(s.core.q, p.stage.msg) then 1 else 0)
          - (if p.stage.Sent? then 1 else 0) <= limit)
  }

  ghost predicate PumpWork(s: System) {
    forall p | p in s.pumps :: BlockedOk(s.pumps[p]) && WithinAllowance(s, s.pumps[p])
  }

  lemma CountLoss(before: Queues, after: Queues, kind: Kind, i: nat)
    requires Shrinks(before, after) && Entry(before, kind, i) && !Entry(after, kind, i)
    ensures Count(after.Slots(kind)) < Count(before.Slots(kind))
  {
    var small, large := after.Slots(kind), before.Slots(kind);
    var freed := large[i := Release(large[i])];
    CountUpdate(large, i, Release(large[i]));
    forall j | 0 <= j < |small| && small[j].tag.used ensures freed[j].tag.used {
      assert Entry(after, kind, j);
    }
    CountMonotone(small, freed);
  }

  /** Messages leaving the queues never enlarge the work that is left. */
  lemma ShrinkWork(s: System, t: System, p: Pump)
    requires Shrinks(s.core.q, t.core.q) && BlockedOk(p) && WithinAllowance(s, p)
    requires t.core.lifetime == s.core.lifetime || p.lifetime != t.core.lifetime
    ensures WithinAllowance(t, p)
  {
    ShrinkCount(s.core.q, t.core.q, Frame);
    ShrinkCount(s.core.q, t.core.q, Response);
    if Carries(p) && InQueue(s.core.q, p.stage.msg) && !InQueue(t.core.q, p.stage.msg) {
      CountLoss(s.core.q, t.core.q, p.stage.msg.kind, p.stage.msg.slot);
    }
  }

  lemma InsertWork(s: System, t: System, kind: Kind, slot: nat, msg: Slot, p: Pump)
    requires Inserts(s, t, kind, slot, msg) && WithinAllowance(s, p)
    ensures WithinAllowance(t, p)
  {
    CountUpdate(s.core.q.Slots(kind), slot, msg);
    if Carries(p) && InQueue(s.core.q, p.stage.msg) && !InQueue(t.core.q, p.stage.msg) {
      assert kind == p.stage.msg.kind && slot == p.stage.msg.slot;
      assert s.core.q.Slots(kind)[slot].tag.used;
    }
  }

  lemma InQueueCounted(q: Queues, m: Message)
    requires InQueue(q, m)
    ensures Queued(q) >= 1
  {
    CountBounds(q.Slots(m.kind));
  }

  lemma PickWork(s: System, p: nat)
    requires Delivery(s) && PumpWork(s) && p in s.pumps && s.pumps[p].stage.Picking?
    ensures PumpWork(PickEffect(s, p))
  {
    var t, pump := PickEffect(s, p), s.pumps[p];
    forall p' | p' in t.pumps ensures BlockedOk(t.pumps[p']) && WithinAllowance(t, t.pumps[p']) {
      assert BlockedOk(s.pumps[p']) && WithinAllowance(s, s.pumps[p']);
      if p' == p {
        PickOwnWork(s, p);
      } else {
        assert t.pumps[p'] == s.pumps[p'];
      }
    }
  }

  lemma PickOwnWork(s: System, p: nat)
    requires p in s.pumps && s.pumps[p].stage.Picking? && BlockedOk(s.pumps[p]) && WithinAllowance(s, s.pumps[p])
    requires p in PickEffect(s, p).pumps
    ensures BlockedOk(PickEffect(s, p).pumps[p]) && WithinAllowance(PickEffect(s, p), PickEffect(s, p).pumps[p])
  {
    var r := Pick(s.core, s.pumps[p]);
    if r.Chosen? {
      assert InQueue(s.core.q, r.msg);
      InQueueCounted(s.core.q, r.msg);
    }
  }

  lemma SendWork(s: System, p: nat, rc: int)
    requires Delivery(s) && PumpWork(s) && p in s.pumps && s.pumps[p].stage.Sending?
    ensures PumpWork(SendEffect(s, p, rc))
  {
    hide Delivery, Queued;
    var t, pump := SendEffect(s, p, rc), s.pumps[p];
    forall p' | p' in t.pumps ensures BlockedOk(t.pumps[p']) && WithinAllowance(t, t.pumps[p']) {
      assert BlockedOk(s.pumps[p']) && WithinAllowance(s, s.pumps[p']);
    }
  }

  /** While it is still queued, the carried message passes the pump's comparison. */
  lemma CarriedStillThere(s: System, p: nat)
    requires Delivery(s) && p in s.pumps && s.pumps[p].stage.Sent? && s.pumps[p].lifetime == s.core.lifetime
    ensures InQueue(s.core.q, s.pumps[p].stage.msg) <==> StillThere(s.core.q, s.pumps[p].stage.msg)
  {
    var m := s.pumps[p].stage.msg;
    assert CarriedOk(s, s.pumps[p]) && HasRecord(s, m.kind, m.slotCopy, s.core.lifetime);
    if InQueue(s.core.q, m) {
      assert HasRecord(s, m.kind, s.core.q.Slots(m.kind)[m.slot], s.core.lifetime);
      assert ValidTag(s.core.q, TagAt(s.core.q, m.kind, m.slot));
    }
  }

  lemma PostOwnWork(s: System, p: nat)
    requires Delivery(s) && PumpWork(s) && p in s.pumps && s.pumps[p].stage.Sent?
      && s.pumps[p].lifetime == s.core.lifetime
    ensures var t := PostEffect(s, p); BlockedOk(t.pumps[p]) && WithinAllowance(t, t.pumps[p])
  {
    var pump := s.pumps[p];
    var m, rc := pump.stage.msg, pump.stage.rc;
    assert BlockedOk(pump) && WithinAllowance(s, pump);
    CarriedStillThere(s, p);
    PostValid(s.core, m, rc);
    var q := PostRegion(s.core, m, rc).q;
    assert Count(q.Slots(Frame)) == Count(q.frames) && Count(q.Slots(Response)) == Count(q.responses);
    assert s.core.q.Slots(Frame) == s.core.q.frames && s.core.q.Slots(Response) == s.core.q.responses;
  }

  lemma PostWork(s: System, p: nat)
    requires Delivery(s) && PumpWork(s) && p in s.pumps && s.pumps[p].stage.Sent?
    ensures PumpWork(PostEffect(s, p))
  {
    var t := PostEffect(s, p);
    if s.pumps[p].lifetime == s.core.lifetime {
      PostOwnWork(s, p);
      forall p' | p' in t.pumps && p' != p ensures BlockedOk(t.pumps[p']) && WithinAllowance(t, t.pumps[p']) {
        assert t.pumps[p'] == s.pumps[p'];
        assert BlockedOk(s.pumps[p']) && WithinAllowance(s, s.pumps[p']);
        assert InLoop(s.pumps[p']) ==> s.pumps[p'].lifetime != s.core.lifetime;
        PostValid(s.core, s.pumps[p].stage.msg, s.pumps[p].stage.rc);
        ShrinkWork(s, t, s.pumps[p']);
      }
    }
  }

  lemma ShrinkAllWork(s: System, t: System)
    requires PumpWork(s) && Shrinks(s.core.q, t.core.q) && t.pumps == s.pumps
    requires t.core.lifetime == s.core.lifetime || (t.core.lifetime > s.core.lifetime && PumpsOk(s))
    ensures PumpWork(t)
  {
    forall p | p in t.pumps ensures BlockedOk(t.pumps[p]) && WithinAllowance(t, t.pumps[p]) {
      ShrinkWork(s, t, s.pumps[p]);
    }
  }

  lemma InitWork(s: System)
    requires Delivery(s) && PumpWork(s)
    ensures PumpWork(InitEffect(s))
  {
    ClearedValid(s.core.q, InitEffect(s).core.q);
    ShrinkAllWork(s, InitEffect(s));
  }

  lemma DeinitWork(s: System)
    requires Delivery(s) && PumpWork(s)
    ensures PumpWork(DeinitEffect(s))
  {
    ClearedValid(s.core.q, DeinitEffect(s).core.q);
    ShrinkAllWork(s, DeinitEffect(s));
  }

  lemma LinkStateWork(s: System, link: Link, connected: bool, generation: nat)
    requires Delivery(s) && PumpWork(s)
    ensures PumpWork(LinkStateEffect(s, link, connected, generation))
  {
    LinkStateValid(s.core, link, connected, generation);
    hide Delivery, ValidQueues, Shrinks, PumpWork;
    ShrinkAllWork(s, LinkStateEffect(s, link, connected, generation));
  }

  lemma SetLinkWork(s: System, link: Link, selected: bool)
    requires Delivery(s) && PumpWork(s)
    ensures PumpWork(SetLinkEffect(s, link, selected))
  {
    SetLinkValid(s.core, link, selected);
    hide Delivery, ValidQueues, Shrinks, PumpWork;
    ShrinkAllWork(s, SetLinkEffect(s, link, selected));
  }

  lemma InsertAllWork(s: System, t: System, kind: Kind, slot: nat, msg: Slot)
    requires PumpWork(s) && Inserts(s, t, kind, slot, msg)
    ensures PumpWork(t)
  {
    forall p | p in t.pumps ensures BlockedOk(t.pumps[p]) && WithinAllowance(t, t.pumps[p]) {
      InsertWork(s, t, kind, slot, msg, s.pumps[p]);
    }
  }

  lemma EnqueueResponseWork(s: System, link: Link, line: Bytes, capture: Capture)
    requires Delivery(s) && PumpWork(s)
    ensures PumpWork(EnqueueResponseEffect(s, link, line, capture))
  {
    ResponseValid(s.core.q, link, line, capture);
    if ResponseRegion(s.core.q, link, line, capture).1 == 0 {
      InsertAllWork(s, EnqueueResponseEffect(s, link, line, capture), Response,
                    LastFree(s.core.q.responses, |s.core.q.responses|),
                    Slot(line, Admission(s.core.q, link, capture).value));
    }
  }

  lemma EnqueueFrameWork(s: System, link: Link, buf: Bytes, capture: Capture)
    requires Delivery(s) && PumpWork(s)
    ensures PumpWork(EnqueueFrameEffect(s, link, buf, capture))
  {
    FrameValid(s.core.q, link, buf, capture);
    if FrameRegion(s.core.q, link, buf, capture).0.ticket != s.core.q.ticket {
      InsertAllWork(s, EnqueueFrameEffect(s, link, buf, capture), Frame, FrameTarget(s.core.q.frames),
                    Slot(buf, Admission(s.core.q, link, capture).value));
    }
  }

  lemma SameWork(s: System, t: System)
    requires PumpWork(s) && t.core.q == s.core.q && t.core.lifetime == s.core.lifetime
    requires forall p | p in t.pumps :: p in s.pumps && t.pumps[p] == s.pumps[p]
    ensures PumpWork(t)
  {
    forall p | p in t.pumps ensures BlockedOk(t.pumps[p]) && WithinAllowance(t, t.pumps[p]) {
      assert BlockedOk(s.pumps[p]) && WithinAllowance(s, s.pumps[p]);
    }
  }

  lemma EnterWork(s: System)
    requires PumpWork(s) && s.pumpCalls > 0
    ensures PumpWork(EnterPumpEffect(s))
  {
    var t := EnterPumpEffect(s);
    forall p | p in t.pumps ensures BlockedOk(t.pumps[p]) && WithinAllowance(t, t.pumps[p]) {
      if p in s.pumps { assert BlockedOk(s.pumps[p]) && WithinAllowance(s, s.pumps[p]); }
    }
  }

  lemma FinishWork(s: System, p: nat)
    requires PumpWork(s) && p in s.pumps
    ensures PumpWork(FinishEffect(s, p))
  {
    SameWork(s, FinishEffect(s, p));
  }

  /** Every step keeps every pump within its allowance. */
  lemma PumpWorkStep(s: System, step: Step)
    requires Delivery(s) && PumpWork(s) && Enabled(s, step)
    ensures PumpWork(Apply(s, step))
  {
    hide InitEffect, DeinitEffect, LinkStateEffect, SetLinkEffect, EnqueueResponseEffect, EnqueueFrameEffect,
         EnterPumpEffect, PickEffect, SendEffect, PostEffect, FinishEffect, SetOpsEffect, ArmEffect, ExpireEffect,
         ClearEffect, EnterReconcileEffect, TopEffect, StartReturnsEffect, Delivery, PumpWork;
    match step {
      case Init => InitWork(s);
      case Deinit => DeinitWork(s);
      case LinkState(link, connected, generation) => LinkStateWork(s, link, connected, generation);
      case SetLink(link, selected) => SetLinkWork(s, link, selected);
      case EnqueueResponse(link, line, capture) => EnqueueResponseWork(s, link, line, capture);
      case EnqueueFrame(link, buf, capture) => EnqueueFrameWork(s, link, buf, capture);
      case EnterPump => EnterWork(s);
      case PickStep(p) => PickWork(s, p);
      case SendStep(p, rc) => SendWork(s, p, rc);
      case PostStep(p) => PostWork(s, p);
      case FinishStep(p) => FinishWork(s, p);
      case _ =>
        TimerFrame(s, step);
        SameWork(s, Apply(s, step));
    }
  }
}
