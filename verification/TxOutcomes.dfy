/** What becomes of everything the arbiter takes in, read off the raw results of the transport, the
    timers and the callers. */
module TxOutcomes {
  import opened Basics
  import opened Octets
  import opened TxModel
  import opened TxSystem
  import opened TxQueues
  import opened TxDelivery
  import opened TxAccounting
  import opened TxRegistrations
  import opened TxTheorems
  import opened TxLastTicket

  // ---- How a message leaves its queue ---------------------------------------------------------

  /** The transport took the message, or the BLE connection it was meant for is gone for good. */
  predicate Settles(link: Link, rc: int) { rc == 0 || (link.Ble? && rc == -116) }

  /** A pump of the current lifetime learns that. */
  predicate Settled(s: System, step: Step, ticket: nat) {
    && step.PostStep? && step.pump in s.pumps && s.pumps[step.pump].stage.Sent?
    && s.pumps[step.pump].lifetime == s.core.lifetime
    && var m := s.pumps[step.pump].stage.msg;
       m.Tag().ticket == ticket && Settles(m.Tag().link, s.pumps[step.pump].stage.rc)
  }

  /** What the arbiter needs to give out a ticket. */
  predicate Admissible(q: Queues, link: Link, capture: Capture) {
    q.online.Get(link) && q.ticket < UINT64_MAX && (link.Ble? ==> capture.rc == 0)
  }

  /** The oldest frame of a full ring makes room for a new one. */
  ghost predicate Displaced(s: System, step: Step, kind: Kind, ticket: nat) {
    && kind.Frame? && step.EnqueueFrame? && Admissible(s.core.q, step.link, step.capture)
    && Count(s.core.q.frames) == |s.core.q.frames| - 1
    && forall i | Entry(s.core.q, Frame, i) :: ticket <= TagAt(s.core.q, Frame, i).ticket
  }

  lemma ResponseLeaves(s: System, link: Link, line: Bytes, capture: Capture, kind: Kind, i: int)
    requires ValidQueues(s.core.q) && Entry(s.core.q, kind, i)
    ensures HoldsTicket(EnqueueResponseEffect(s, link, line, capture), kind, i, TagAt(s.core.q, kind, i).ticket)
  {
    ResponseValid(s.core.q, link, line, capture);
    hide ResponseRegion, ValidQueues, Admission;
  }

  /** The ring is full exactly when the target holds a frame, which then is the oldest. */
  lemma TargetIsOldest(s: System, i: int)
    requires ValidQueues(s.core.q) && s.core.q.ticket < UINT64_MAX && Entry(s.core.q, Frame, i)
    ensures i == FrameTarget(s.core.q.frames) <==>
      && Count(s.core.q.frames) == |s.core.q.frames| - 1
      && forall j | Entry(s.core.q, Frame, j) :: TagAt(s.core.q, Frame, i).ticket <= TagAt(s.core.q, Frame, j).ticket
  {
    FrameTargetFound(s.core.q);
    var target := FrameTarget(s.core.q.frames);
    if Count(s.core.q.frames) == |s.core.q.frames| - 1 { assert Entry(s.core.q, Frame, target); }
    hide FrameTarget, Count;
  }

  lemma FrameAccepted(q: Queues, link: Link, buf: Bytes, capture: Capture)
    requires ValidQueues(q)
    ensures FrameRegion(q, link, buf, capture).0.ticket != q.ticket <==> Admissible(q, link, capture)
  {
    if q.ticket < UINT64_MAX { FrameTargetFound(q); }
    hide ValidQueues, FrameTarget, Count;
  }

  /** Exactly the target slot gets another message, and only when the frame is admitted. */
  lemma FrameSlots(s: System, step: Step, kind: Kind, i: int)
    requires ValidQueues(s.core.q) && Entry(s.core.q, kind, i) && step.EnqueueFrame?
    ensures !HoldsTicket(EnqueueFrameEffect(s, step.link, step.buf, step.capture), kind, i,
                         TagAt(s.core.q, kind, i).ticket)
      <==> Admissible(s.core.q, step.link, step.capture) && kind.Frame? && i == FrameTarget(s.core.q.frames)
  {
    assert ValidTag(s.core.q, TagAt(s.core.q, kind, i));
    FrameValid(s.core.q, step.link, step.buf, step.capture);
    FrameAccepted(s.core.q, step.link, step.buf, step.capture);
    hide ValidQueues, FrameTarget, Count, FrameRegion, Admissible, Recorded;
  }

  lemma FrameLeaves(s: System, step: Step, kind: Kind, i: int)
    requires ValidQueues(s.core.q) && Entry(s.core.q, kind, i) && step.EnqueueFrame?
    ensures var ticket := TagAt(s.core.q, kind, i).ticket;
      !HoldsTicket(EnqueueFrameEffect(s, step.link, step.buf, step.capture), kind, i, ticket) <==>
        Displaced(s, step, kind, ticket)
  {
    FrameSlots(s, step, kind, i);
    if Admissible(s.core.q, step.link, step.capture) && kind.Frame? { TargetIsOldest(s, i); }
    hide ValidQueues, FrameTarget, Count, EnqueueFrameEffect, HoldsTicket;
  }

  lemma ResetLeaves(s: System, kind: Kind, i: int, ticket: nat)
    ensures !HoldsTicket(InitEffect(s), kind, i, ticket) && !HoldsTicket(DeinitEffect(s), kind, i, ticket)
  {
    hide Count;
  }

  lemma DiscardLeaves(s: System, step: Step, kind: Kind, i: int)
    requires Entry(s.core.q, kind, i) && Enabled(s, step) && (step.LinkState? || step.SetLink?)
    requires Discards(s, step, TagAt(s.core.q, kind, i).link)
    ensures !Entry(Apply(s, step).core.q, kind, i)
  {
    DiscardKeeps(s.core, step.link);
    assert Apply(s, step).core.q.Slots(kind) == DiscardLink(s.core, step.link).q.Slots(kind) by {
      hide Count, DiscardLink;
    }
    hide Apply, DiscardLink;
  }

  lemma LinkLeaves(s: System, step: Step, kind: Kind, i: int)
    requires Entry(s.core.q, kind, i) && Enabled(s, step)
    requires step.Init? || step.Deinit? || step.LinkState? || step.SetLink?
    ensures var tag := TagAt(s.core.q, kind, i);
      !HoldsTicket(Apply(s, step), kind, i, tag.ticket) <==> Discards(s, step, tag.link)
  {
    var tag := TagAt(s.core.q, kind, i);
    if step.Init? || step.Deinit? {
      ResetLeaves(s, kind, i, tag.ticket);
      hide InitEffect, DeinitEffect, HoldsTicket;
    } else if Discards(s, step, tag.link) {
      DiscardLeaves(s, step, kind, i);
      hide Apply, Discards;
    } else {
      LinkStepKeeps(s, step, kind, i);
      hide Apply, Discards;
    }
  }

  /** While the lifetime is current, the message a pump carries can only be queued in its own slot. */
  lemma CarriedInPlace(s: System, p: nat, kind: Kind, i: int)
    requires Delivery(s) && Entry(s.core.q, kind, i) && p in s.pumps && s.pumps[p].stage.Sent?
    requires s.pumps[p].lifetime == s.core.lifetime
    ensures var m := s.pumps[p].stage.msg;
      TagAt(s.core.q, kind, i).ticket == m.Tag().ticket <==> StillThere(s.core.q, m) && kind == m.kind && i == m.slot
  {
    var m := s.pumps[p].stage.msg;
    assert CarriedOk(s, s.pumps[p]);
    assert HasRecord(s, kind, s.core.q.Slots(kind)[i], s.core.lifetime);
    assert ValidTag(s.core.q, TagAt(s.core.q, kind, i));
  }

  lemma PostLeaves(s: System, p: nat, kind: Kind, i: int)
    requires Delivery(s) && Entry(s.core.q, kind, i) && p in s.pumps && s.pumps[p].stage.Sent?
    ensures var ticket := TagAt(s.core.q, kind, i).ticket;
      !HoldsTicket(PostEffect(s, p), kind, i, ticket) <==> Settled(s, PostStep(p), ticket)
  {
    assert ValidQueues(s.core.q);
    if s.pumps[p].lifetime == s.core.lifetime {
      CarriedInPlace(s, p, kind, i);
      PostValid(s.core, s.pumps[p].stage.msg, s.pumps[p].stage.rc);
      hide ValidQueues, Delivery, StillThere, PostRegion;
    }
  }

  lemma StepLeaves(s: System, step: Step, kind: Kind, i: int)
    requires Delivery(s) && Enabled(s, step) && Entry(s.core.q, kind, i)
    ensures var tag := TagAt(s.core.q, kind, i);
      !HoldsTicket(Apply(s, step), kind, i, tag.ticket) <==>
        Settled(s, step, tag.ticket) || Displaced(s, step, kind, tag.ticket) || Discards(s, step, tag.link)
  {
    assert ValidQueues(s.core.q);
    hide Delivery, ValidQueues;
    if step.Init? || step.Deinit? || step.LinkState? || step.SetLink? {
      LinkLeaves(s, step, kind, i);
      hide Discards, Apply, HoldsTicket;
    } else if step.EnqueueResponse? {
      ResponseLeaves(s, step.link, step.line, step.capture, kind, i);
      hide EnqueueResponseEffect, HoldsTicket;
    } else if step.EnqueueFrame? {
      FrameLeaves(s, step, kind, i);
      hide EnqueueFrameEffect, Displaced, HoldsTicket;
    } else if step.PostStep? {
      PostLeaves(s, step.pump, kind, i);
      hide PostEffect, Settled, HoldsTicket;
    } else {
      QueueUntouched(s, step);
      hide Apply;
    }
  }

  /** In every step of every run a queued message leaves its queue exactly if the transport has taken
      it or found its BLE connection gone, a newer frame takes the oldest one's place in a full ring,
      or its link is discarded. Any other answer of the transport leaves it queued. */
  lemma LeavesQueueExactly(states: seq<System>, steps: seq<Step>, n: nat, kind: Kind, i: int)
    requires Run(states, steps) && n < |steps| && Entry(states[n].core.q, kind, i)
    ensures var tag := TagAt(states[n].core.q, kind, i);
      !HoldsTicket(states[n + 1], kind, i, tag.ticket) <==>
        || Settled(states[n], steps[n], tag.ticket)
        || Displaced(states[n], steps[n], kind, tag.ticket)
        || Discards(states[n], steps[n], tag.link)
  {
    RunInv(states, steps, n);
    StepLeaves(states[n], steps[n], kind, i);
  }

  // ---- How a message enters -------------------------------------------------------------------

  /** The result of an enqueue call, as the source's checks come in turn. */
  function AnswerTo(q: Queues, step: Step): int
    requires step.EnqueueResponse? || step.EnqueueFrame?
  {
    if step.EnqueueResponse? && Count(q.responses) == 3 then -28
    else if !q.online.Get(step.link) then -107
    else if q.ticket == UINT64_MAX then -75
    else if step.link.Ble? && step.capture.rc != 0 then step.capture.rc
    else if step.EnqueueFrame? && Count(q.frames) == |q.frames| - 1 then -28
    else 0
  }

  /** The slot holds this very message. */
  predicate HoldsMessage(s: System, kind: Kind, i: int, slot: Slot) {
    Entry(s.core.q, kind, i) && s.core.q.Slots(kind)[i] == slot
  }

  lemma ResponseEnters(s: System, step: Step)
    requires ValidQueues(s.core.q) && step.EnqueueResponse?
    ensures var q, slot := s.core.q, NewSlot(s.core.q, step);
      var t := EnqueueResponseEffect(s, step.link, step.line, step.capture);
      && ResponseRegion(q, step.link, step.line, step.capture).1 == AnswerTo(q, step)
      && (if Admissible(q, step.link, step.capture) && Count(q.responses) < 3 then
            Accepts(s, t, Response, slot) && exists i :: HoldsMessage(t, Response, i, slot)
          else t == s)
  {
    var q := s.core.q;
    ResponseValid(q, step.link, step.line, step.capture);
    CountBounds(q.responses);
    var i := LastFree(q.responses, |q.responses|);
    if Admissible(q, step.link, step.capture) && Count(q.responses) < 3 {
      assert HoldsMessage(EnqueueResponseEffect(s, step.link, step.line, step.capture), Response, i, NewSlot(q, step));
    }
    hide ValidQueues, LastFree, Count;
  }

  lemma FrameEnters(s: System, step: Step)
    requires ValidQueues(s.core.q) && step.EnqueueFrame?
    ensures var q, slot := s.core.q, NewSlot(s.core.q, step);
      var t := EnqueueFrameEffect(s, step.link, step.buf, step.capture);
      && FrameRegion(q, step.link, step.buf, step.capture).1 == AnswerTo(q, step)
      && (if Admissible(q, step.link, step.capture) then
            Accepts(s, t, Frame, slot) && exists i :: HoldsMessage(t, Frame, i, slot)
          else t == s)
  {
    var q := s.core.q;
    FrameValid(q, step.link, step.buf, step.capture);
    FrameAccepted(q, step.link, step.buf, step.capture);
    if Admissible(q, step.link, step.capture) {
      var i := FrameTarget(q.frames);
      assert HoldsMessage(EnqueueFrameEffect(s, step.link, step.buf, step.capture), Frame, i, NewSlot(q, step));
    }
    hide ValidQueues, FrameTarget, Count;
  }

  /** The message of an enqueue call under the next ticket, for the link's current session. */
  function NewSlot(q: Queues, step: Step): Slot
    requires step.EnqueueResponse? || step.EnqueueFrame?
  {
    Slot(if step.EnqueueResponse? then step.line else step.buf,
         Tag(q.ticket + 1, if step.link.Ble? then step.capture.identity else 0, q.sessions.Get(step.link), step.link,
             true))
  }

  /** The next ticket is given out and recorded, and the pump is called. */
  predicate Accepts(s: System, t: System, kind: Kind, slot: Slot) {
    && t.core.q.ticket == s.core.q.ticket + 1 == slot.tag.ticket && t.pumpCalls == s.pumpCalls + 1
    && t.admitted == s.admitted[slot.tag.ticket := RecordOf(kind, slot, s.core.lifetime)]
  }

  /** In every step of every run an enqueue call is accepted exactly if the link is online, tickets
      remain, the BLE host named its connection, and, for a response, a slot beside the spare one is
      free. What is then queued carries the caller's bytes, link and connection under the next ticket. */
  lemma EntersQueueExactly(states: seq<System>, steps: seq<Step>, n: nat)
    requires Run(states, steps) && n < |steps| && (steps[n].EnqueueResponse? || steps[n].EnqueueFrame?)
    ensures var s, t, step := states[n], states[n + 1], steps[n];
      var kind := if step.EnqueueResponse? then Response else Frame;
      var slot, rc := NewSlot(s.core.q, step), AnswerTo(s.core.q, step);
      && (if step.EnqueueResponse? then ResponseRegion(s.core.q, step.link, step.line, step.capture).1
          else FrameRegion(s.core.q, step.link, step.buf, step.capture).1) == rc
      && (if rc == 0 || (kind.Frame? && Admissible(s.core.q, step.link, step.capture)) then
            Accepts(s, t, kind, slot) && exists i :: HoldsMessage(t, kind, i, slot)
          else t == s)
  {
    RunInv(states, steps, n);
    var s, step := states[n], steps[n];
    assert states[n + 1] == Apply(s, step);
    assert ValidQueues(s.core.q);
    CountBounds(s.core.q.responses);
    if step.EnqueueResponse? { ResponseEnters(s, step); } else { FrameEnters(s, step); }
    hide Run, TxTheorems.Inv, ValidQueues, Count, EnqueueResponseEffect, EnqueueFrameEffect, Accepts, HoldsMessage,
         ResponseRegion, FrameRegion, NewSlot;
  }

  // ---- What a pump has been answered ----------------------------------------------------------

  /** The step is pump `p`'s attempt on the link. */
  predicate Attempts(s: System, step: Step, p: nat, link: Link) {
    && step.SendStep? && step.pump == p && p in s.pumps && s.pumps[p].stage.Sending?
    && s.pumps[p].stage.msg.Tag().link == link
  }

  /** The transport's answer to pump `p`'s latest attempt on the link, if it has made one. */
  ghost function LatestAnswer(states: seq<System>, steps: seq<Step>, n: nat, p: nat, link: Link): Option<int>
    requires n <= |steps| && n < |states|
  {
    if n == 0 then None
    else if Attempts(states[n - 1], steps[n - 1], p, link) then Some(steps[n - 1].rc)
    else LatestAnswer(states, steps, n - 1, p, link)
  }

  predicate Follows(last: Attempt, answer: Option<int>, link: Link) {
    match answer
    case None => last.NotTried?
    case Some(rc) => (last.Delivered? <==> rc == 0) && (last.Refused? <==> !Settles(link, rc)) && !last.NotTried?
  }

  lemma AttemptStep(s: System, step: Step, p: nat, link: Link)
    requires Enabled(s, step) && PumpsOk(s) && p in Apply(s, step).pumps
    ensures p in s.pumps || (step.EnterPump? && p == s.nextPump)
    ensures var last := Apply(s, step).pumps[p].last.Get(link);
      if p !in s.pumps then last.NotTried?
      else if Attempts(s, step, p, link) then Follows(last, Some(step.rc), link)
      else last == s.pumps[p].last.Get(link)
  {
    if PumpStep(step) { PumpMoves(s, step); } else { PumpsUnmoved(s, step); }
    if step.SendStep? { SendAttempts(s, step, link); }
    hide Apply, Attempts, Count, Follows;
  }

  lemma SendAttempts(s: System, step: Step, link: Link)
    requires Enabled(s, step) && step.SendStep?
    ensures var t := Apply(s, step);
      && step.pump in t.pumps
      && (forall p | p != step.pump :: !Attempts(s, step, p, link))
      && (if Attempts(s, step, step.pump, link) then Follows(t.pumps[step.pump].last.Get(link), Some(step.rc), link)
          else t.pumps[step.pump].last.Get(link) == s.pumps[step.pump].last.Get(link))
  {
  }

  /** A pump that does not exist yet has made no attempt. */
  lemma {:induction false} NoAnswerYet(states: seq<System>, steps: seq<Step>, n: nat, p: nat, link: Link)
    requires Run(states, steps) && n < |states| && p >= states[n].nextPump
    ensures LatestAnswer(states, steps, n, p, link).None?
    decreases n
  {
    hide Apply, Enabled;
    if n > 0 {
      NextPumpGrows(states[n - 1], steps[n - 1]);
      RunInv(states, steps, n - 1);
      assert PumpsOk(states[n - 1]);
      NoAnswerYet(states, steps, n - 1, p, link);
    }
  }

  /** In every run: what a pump holds about a link is the transport's latest answer to it. It counts
      as a refusal exactly if that answer was an error other than a stale BLE connection. */
  lemma {:induction false} RefusedExactly(states: seq<System>, steps: seq<Step>, n: nat, p: nat, link: Link)
    requires Run(states, steps) && n < |states| && p in states[n].pumps
    ensures var answer := LatestAnswer(states, steps, n, p, link);
      && Follows(states[n].pumps[p].last.Get(link), answer, link)
      && (states[n].pumps[p].last.Get(link).Refused? <==>
            answer.Some? && answer.value != 0 && !(link.Ble? && answer.value == -116))
    decreases n
  {
    hide Apply, Enabled, Attempts;
    if n > 0 {
      RunInv(states, steps, n - 1);
      assert PumpsOk(states[n - 1]);
      AttemptStep(states[n - 1], steps[n - 1], p, link);
      if p in states[n - 1].pumps {
        RefusedExactly(states, steps, n - 1, p, link);
      } else {
        NoAnswerYet(states, steps, n - 1, p, link);
        assert !Attempts(states[n - 1], steps[n - 1], p, link) by { NotThere(states[n - 1], steps[n - 1], p, link); }
      }
    }
  }

  lemma NotThere(s: System, step: Step, p: nat, link: Link)
    requires p !in s.pumps
    ensures !Attempts(s, step, p, link)
  {
  }

  /** What a pump takes up next: the oldest message it may send, responses before frames. Whatever it
      passes over is for a link that refused its latest attempt, or holds the last ticket. */
  lemma PicksResponsesThenOldest(states: seq<System>, steps: seq<Step>, n: nat, p: nat, kind: Kind, i: int)
    requires Run(states, steps) && n < |steps| && steps[n] == PickStep(p)
    requires p in states[n + 1].pumps && states[n + 1].pumps[p].stage.Sending? && Entry(states[n].core.q, kind, i)
    ensures var m, tag := states[n + 1].pumps[p].stage.msg, TagAt(states[n].core.q, kind, i);
      && HoldsMessage(states[n], m.kind, m.slot, m.slotCopy)
      && ((kind.Response? && m.kind.Frame?) || (kind == m.kind && tag.ticket < m.Tag().ticket) ==>
            states[n].pumps[p].last.Get(tag.link).Refused? || tag.ticket == UINT64_MAX)
  {
    RunInv(states, steps, n);
    var s := states[n];
    assert states[n + 1] == PickEffect(s, p);
    assert BlockedOk(s.pumps[p]);
    assert ValidTag(s.core.q, TagAt(s.core.q, kind, i));
    hide Run, TxTheorems.Inv;
  }

  // ---- Which links are up ---------------------------------------------------------------------

  /** The links as their owner has reported and selected them. */
  datatype Links = Links(online: PerLink<bool>, sessions: PerLink<nat>, selected: Option<Link>)

  function LinksOf(c: Core): Links { Links(c.q.online, c.q.sessions, if c.selected then Some(c.link) else None) }

  function Deselected(selected: Option<Link>, link: Link): Option<Link> {
    if selected == Some(link) then None else selected
  }

  /** What a lifecycle call says about the links; all other calls say nothing. */
  function Reported(v: Links, step: Step): Links {
    match step
    case Init => v.(online := PerLink(false, false), selected := None)
    case Deinit => v.(online := PerLink(false, false), selected := None)
    case LinkState(link, connected, generation) =>
      Links(v.online.Set(link, connected), v.sessions.Set(link, generation),
            if connected then v.selected else Deselected(v.selected, link))
    case SetLink(link, true) => v.(online := v.online.Set(link, true), selected := Some(link))
    case SetLink(link, false) =>
      Links(v.online.Set(link, false), v.sessions.Set(link, (v.sessions.Get(link) + 1) % 0x1_0000_0000),
            Deselected(v.selected, link))
    case _ => v
  }

  function ReportedSo(v: Links, steps: seq<Step>): Links {
    if steps == [] then v else Reported(ReportedSo(v, steps[..|steps| - 1]), steps[|steps| - 1])
  }

  lemma LinksStep(s: System, step: Step)
    requires Enabled(s, step)
    ensures LinksOf(Apply(s, step).core) == Reported(LinksOf(s.core), step)
  {
    if step.LinkState? || step.SetLink? {
      hide DiscardLink, Count, Claimed;
      DiscardLinks(s.core, step.link);
    } else if step.Init? || step.Deinit? {
      hide Count;
    } else {
      OthersKeepLinks(s, step);
      hide Apply;
    }
  }

  lemma DiscardLinks(c: Core, link: Link)
    ensures LinksOf(DiscardLink(c, link)) == LinksOf(c)
  {
    hide Discard, Holds;
  }

  lemma OthersKeepLinks(s: System, step: Step)
    requires Enabled(s, step) && !step.Init? && !step.Deinit? && !step.LinkState? && !step.SetLink?
    ensures LinksOf(Apply(s, step).core) == LinksOf(s.core)
  {
    if step.EnterReconcile? || step.CancelReturns? || step.ReportReturns? || step.StartReturns? {
      ReconcilerLinks(s, step);
    } else if PumpStep(step) {
      PumpLinks(s, step);
    } else if TimerStep(step) {
      TimerLinks(s, step);
    } else {
      EnqueueLinks(s, step);
    }
    hide Apply, LinksOf;
  }

  lemma PumpLinks(s: System, step: Step)
    requires Enabled(s, step) && PumpStep(step)
    ensures LinksOf(Apply(s, step).core) == LinksOf(s.core)
  {
    match step
    case EnterPump => hide Count;
    case PickStep(_) => hide Pick;
    case SendStep(_, _) => hide SendOutcome;
    case PostStep(_) => hide StillThere, SendOutcome;
    case FinishStep(_) => hide Drained, ReconcileNeeded, Claimed;
  }

  lemma TimerLinks(s: System, step: Step)
    requires Enabled(s, step) && (step.SetOps? || step.Arm? || step.Expire? || step.Clear? || step.CallPump?)
    ensures LinksOf(Apply(s, step).core) == LinksOf(s.core)
  {
    hide Drained, ReconcileNeeded, Claimed;
  }

  lemma EnqueueLinks(s: System, step: Step)
    requires step.EnqueueResponse? || step.EnqueueFrame?
    ensures Enabled(s, step) ==> LinksOf(Apply(s, step).core) == LinksOf(s.core)
  {
    hide Count, LastFree, FrameTarget, Recorded;
  }

  lemma ReconcilerLinks(s: System, step: Step)
    requires Enabled(s, step)
    requires step.EnterReconcile? || step.CancelReturns? || step.ReportReturns? || step.StartReturns?
    ensures LinksOf(Apply(s, step).core) == LinksOf(s.core)
  {
    hide ReconcileTop, StartReturnRegion;
    forall c: Core ensures LinksOf(ReconcileTop(c).0) == LinksOf(c) { TopLinks(c); }
    forall c: Core, id: nat, rc: int ensures LinksOf(StartReturnRegion(c, id, rc)) == LinksOf(c) {
      StartLinks(c, id, rc);
    }
  }

  lemma TopLinks(c: Core)
    ensures LinksOf(ReconcileTop(c).0) == LinksOf(c)
  {
  }

  lemma StartLinks(c: Core, id: nat, rc: int)
    ensures LinksOf(StartReturnRegion(c, id, rc)) == LinksOf(c)
  {
  }

  /** In every run: which links are online, their sessions and the selected link are what the
      lifecycle calls so far have said, and nothing else. */
  lemma {:induction false} LinksAreAsReported(states: seq<System>, steps: seq<Step>, n: nat)
    requires Run(states, steps) && n < |states|
    ensures LinksOf(states[n].core) == ReportedSo(LinksOf(states[0].core), steps[..n])
    decreases n
  {
    hide Apply, Enabled, LinksOf, Reported;
    if n > 0 {
      LinksAreAsReported(states, steps, n - 1);
      assert steps[..n][..n - 1] == steps[..n - 1];
      LinksStep(states[n - 1], steps[n - 1]);
    }
  }

  // ---- How a registration ends ----------------------------------------------------------------

  /** What this step makes of the armed registration, None when it stays. */
  ghost function Ending(s: System, step: Step): Option<Outcome>
    requires Enabled(s, step)
  {
    match step
    case Init => Some(ByDiscard)
    case Deinit => Some(ByDiscard)
    case LinkState(link, _, _) => if DiscardsSome(s, step, link) then Some(ByDiscard) else None
    case SetLink(link, _) => if DiscardsSome(s, step, link) then Some(ByDiscard) else None
    case FinishStep(_) => if forall kind: Kind, i :: !Entry(s.core.q, kind, i) then Some(ByDrain) else None
    case Expire(id) => if id == s.core.drain.id && id == s.core.timer.id then Some(ByTimeout) else None
    case Clear(id) => if id == s.core.drain.id then Some(ByCancel) else None
    case StartReturns(r, rc) => if rc < 0 && s.reconcilers[r].id == s.core.drain.id then Some(ByStartFailure) else None
    case _ => None
  }

  ghost predicate DiscardsSome(s: System, step: Step, link: Link) {
    Discards(s, step, link) && exists kind: Kind, i :: Entry(s.core.q, kind, i) && TagAt(s.core.q, kind, i).link == link
  }

  /** The registration and its log are as they were, or it is gone and logged with its callback. */
  predicate EndsWith(s: System, t: System, ending: Option<Outcome>) {
    match ending
    case None => t.core.drain == s.core.drain && t.claims == s.claims
    case Some(outcome) =>
      && t.core.drain == Drain(0, None, 0, s.core.drain.counter)
      && t.claims == s.claims + [Claim(s.core.drain.id, s.core.drain.cb, outcome)]
  }

  lemma LinkEnds(s: System, step: Step)
    requires Enabled(s, step) && s.core.drain.id != 0 && (step.LinkState? || step.SetLink?)
    ensures EndsWith(s, Apply(s, step), Ending(s, step))
  {
    HoldsExactly(s.core, step.link);
    LinkDrain(s, step);
    DiscardDrain(s.core, step.link);
    hide Apply, DiscardLink, Holds;
  }

  /** What a link report or a (de)selection does to the registration. */
  lemma LinkDrain(s: System, step: Step)
    requires Enabled(s, step) && (step.LinkState? || step.SetLink?)
    ensures var t := Apply(s, step);
      && t.core.drain == (if Discards(s, step, step.link) then DiscardLink(s.core, step.link).drain else s.core.drain)
      && t.claims == s.claims + Claimed(s.core, t.core, ByDiscard)
  {
    hide DiscardLink, Count, Claimed;
  }

  lemma DiscardDrain(c: Core, link: Link)
    ensures DiscardLink(c, link).drain ==
      if Holds(c.q.frames, link) || Holds(c.q.responses, link) then ClearDrain(c.drain) else c.drain
  {
    hide Holds, Discard;
  }

  lemma HoldsExactly(c: Core, link: Link)
    ensures Holds(c.q.frames, link) || Holds(c.q.responses, link) <==>
      exists kind: Kind, i :: Entry(c.q, kind, i) && TagAt(c.q, kind, i).link == link
  {
    if Holds(c.q.frames, link) {
      var i :| 0 <= i < |c.q.frames| && c.q.frames[i].tag.used && c.q.frames[i].tag.link == link;
      assert Entry(c.q, Frame, i);
    }
    if Holds(c.q.responses, link) {
      var i :| 0 <= i < |c.q.responses| && c.q.responses[i].tag.used && c.q.responses[i].tag.link == link;
      assert Entry(c.q, Response, i);
    }
  }

  lemma FinishEnds(s: System, p: nat)
    requires p in s.pumps && s.pumps[p].stage.Finishing? && s.core.drain.id != 0 && DrainFields(s.core)
    ensures EndsWith(s, FinishEffect(s, p), Ending(s, FinishStep(p)))
  {
    DrainedExactly(s.core.q);
    hide Drained;
  }

  lemma DrainedExactly(q: Queues)
    ensures Drained(q) <==> forall kind: Kind, i :: !Entry(q, kind, i)
  {
    if forall kind: Kind, i :: !Entry(q, kind, i) {
      forall i | 0 <= i < |q.frames| ensures !q.frames[i].tag.used { assert !Entry(q, Frame, i); }
      forall i | 0 <= i < |q.responses| ensures !q.responses[i].tag.used { assert !Entry(q, Response, i); }
    }
  }

  lemma StartReturnEnds(s: System, r: nat, rc: int)
    requires r in s.reconcilers && s.reconcilers[r].Starting? && s.core.drain.id != 0
    ensures EndsWith(s, StartReturnsEffect(s, r, rc), Ending(s, StartReturns(r, rc)))
  {
    TopEnds(s.(core := StartReturnRegion(s.core, s.reconcilers[r].id, rc)), r);
    hide TopEffect;
  }

  lemma TopEnds(s: System, r: nat)
    ensures TopEffect(s, r).core.drain == s.core.drain && TopEffect(s, r).claims == s.claims
  {
  }

  lemma TimerEnds(s: System, step: Step)
    requires Enabled(s, step) && s.core.drain.id != 0 && TimerStep(step) && !step.StartReturns?
    ensures EndsWith(s, Apply(s, step), Ending(s, step))
  {
    if step.EnterReconcile? || step.CancelReturns? || step.ReportReturns? {
      ReconcilerEnds(s, step);
      hide Apply;
    } else if step.Arm? {
      ArmsExactly(s, step);
      hide Apply, Drained;
    } else if step.Expire? {
      ExpireEnds(s, step.id);
      hide ExpireEffect;
    } else {
      hide ReconcileNeeded;
    }
  }

  /** Whatever is queued. */
  lemma ExpireEnds(s: System, id: nat)
    requires s.core.drain.id != 0
    ensures EndsWith(s, ExpireEffect(s, id), Ending(s, Expire(id)))
  {
  }

  lemma ReconcilerEnds(s: System, step: Step)
    requires Enabled(s, step) && (step.EnterReconcile? || step.CancelReturns? || step.ReportReturns?)
    ensures Apply(s, step).core.drain == s.core.drain && Apply(s, step).claims == s.claims
  {
    hide TopEffect;
    forall q, r ensures TopEffect(q, r).core.drain == q.core.drain && TopEffect(q, r).claims == q.claims {
      TopEnds(q, r);
    }
  }

  /** In every step of every run an armed registration stays as it is, unless it is discarded by an
      init, a deinit or the loss of a queued message's link, or a pump's final check finds both queues
      empty, or its own timer expires (whatever is queued), or its caller cancels it, or its timer
      cannot be started; then it is gone, and logged once, with its own id and callback. */
  lemma RegistrationEndsExactly(states: seq<System>, steps: seq<Step>, n: nat)
    requires Run(states, steps) && n < |steps| && states[n].core.drain.id != 0
    ensures Enabled(states[n], steps[n]) && EndsWith(states[n], states[n + 1], Ending(states[n], steps[n]))
  {
    RunInv(states, steps, n);
    var s, step := states[n], steps[n];
    assert Enabled(s, step) && states[n + 1] == Apply(s, step);
    assert DrainFields(s.core);
    hide Run, TxTheorems.Inv;
    StepEnds(s, step);
  }

  lemma StepEnds(s: System, step: Step)
    requires Enabled(s, step) && s.core.drain.id != 0 && DrainFields(s.core)
    ensures EndsWith(s, Apply(s, step), Ending(s, step))
  {
    hide InitEffect, DeinitEffect, LinkStateEffect, SetLinkEffect, EnqueueResponseEffect, EnqueueFrameEffect,
         EnterPumpEffect, PickEffect, SendEffect, PostEffect, FinishEffect, SetOpsEffect, ArmEffect, ExpireEffect,
         ClearEffect, EnterReconcileEffect, TopEffect, StartReturnsEffect, DiscardsSome;
    if step.Init? || step.Deinit? {
      ResetEnds(s);
    } else if step.LinkState? || step.SetLink? {
      LinkEnds(s, step);
    } else if step.FinishStep? {
      FinishEnds(s, step.pump);
    } else if step.StartReturns? {
      StartReturnEnds(s, step.thread, step.rc);
    } else if TimerStep(step) {
      TimerEnds(s, step);
    }
  }

  lemma ResetEnds(s: System)
    requires s.core.drain.id != 0
    ensures EndsWith(s, InitEffect(s), Some(ByDiscard)) && EndsWith(s, DeinitEffect(s), Some(ByDiscard))
  {
    hide Count;
  }

  // ---- Whose callback it is -------------------------------------------------------------------

  /** As long as it is armed the registration is the one that was handed in, and whatever ends it is
      logged with that callback. */
  predicate KeepsCallback(s: System, id: nat, cb: Callback, timeout: nat) {
    && (s.core.drain.id == id ==> s.core.drain.cb == Some(cb) && s.core.drain.timeout == timeout)
    && (forall k | 0 <= k < |s.claims| && s.claims[k].id == id :: s.claims[k].cb == Some(cb))
    && id <= s.core.drain.counter
  }

  /** Other steps neither arm nor log anything while nothing is armed. */
  lemma UnarmedStays(s: System, step: Step)
    requires Enabled(s, step) && s.core.drain.id == 0 && !step.Arm? && DrainFields(s.core)
    requires step.StartReturns? ==> s.reconcilers[step.thread].id != 0
    ensures var t := Apply(s, step);
      t.core.drain.id == 0 && t.core.drain.counter == s.core.drain.counter && t.claims == s.claims
  {
    hide LinkStateEffect, SetLinkEffect, StartReturnsEffect, TopEffect, EnqueueResponseEffect, EnqueueFrameEffect,
         EnterPumpEffect, PickEffect, SendEffect, PostEffect;
    if step.LinkState? || step.SetLink? {
      UnarmedLink(s, step);
    } else if step.StartReturns? {
      UnarmedStart(s, step.thread, step.rc);
    } else if step.EnterReconcile? || step.CancelReturns? || step.ReportReturns? {
      ReconcilerEnds(s, step);
    }
    hide Count, Drained, FreeSlots, ReleaseAll, ReconcileNeeded;
  }

  lemma UnarmedLink(s: System, step: Step)
    requires Enabled(s, step) && s.core.drain.id == 0 && (step.LinkState? || step.SetLink?)
    ensures var t := Apply(s, step);
      t.core.drain.id == 0 && t.core.drain.counter == s.core.drain.counter && t.claims == s.claims
  {
    LinkDrain(s, step);
    DiscardDrain(s.core, step.link);
    hide Apply, DiscardLink, Holds;
  }

  lemma UnarmedStart(s: System, r: nat, rc: int)
    requires r in s.reconcilers && s.reconcilers[r].Starting? && s.core.drain.id == 0 && s.reconcilers[r].id != 0
    ensures var t := StartReturnsEffect(s, r, rc);
      t.core.drain.id == 0 && t.core.drain.counter == s.core.drain.counter && t.claims == s.claims
  {
    TopEnds(s.(core := StartReturnRegion(s.core, s.reconcilers[r].id, rc)), r);
    hide TopEffect;
  }

  /** Arming gives out the next id exactly if nothing is armed, ids remain, and, unless the queues are
      empty already or no timeout is asked for, there is a timer provider. On empty queues the callback
      is due at once; otherwise the registration is armed as it was handed in. */
  predicate Arms(s: System, step: Step, t: System, drained: bool)
    requires step.Arm?
  {
    var id := s.core.drain.counter + 1;
    if s.core.drain.id != 0 || s.core.drain.counter == UINT64_MAX
       || (!drained && step.timeout != 0 && s.core.timer.provider.None?) then
      t.core.drain == s.core.drain && t.claims == s.claims
    else if drained then
      t.core.drain == s.core.drain.(counter := id) && t.claims == s.claims + [Claim(id, Some(step.cb), ByDrain)]
    else t.core.drain == Drain(id, Some(step.cb), step.timeout, id) && t.claims == s.claims
  }

  lemma ArmsExactly(s: System, step: Step)
    requires step.Arm?
    ensures Arms(s, step, Apply(s, step), Drained(s.core.q))
  {
    hide Drained;
  }

  lemma RegistrationBeginsExactly(states: seq<System>, steps: seq<Step>, n: nat)
    requires Run(states, steps) && n < |steps| && steps[n].Arm?
    ensures Arms(states[n], steps[n], states[n + 1], forall kind: Kind, i :: !Entry(states[n].core.q, kind, i))
  {
    var s, step := states[n], steps[n];
    assert states[n + 1] == Apply(s, step);
    hide Run, Drained, Arms, Apply;
    DrainedExactly(s.core.q);
    ArmsExactly(s, step);
  }

  lemma CallbackStep(s: System, step: Step, id: nat, cb: Callback, timeout: nat)
    requires KeepsCallback(s, id, cb, timeout) && Enabled(s, step) && Registrations(s) && id != 0
    ensures KeepsCallback(Apply(s, step), id, cb, timeout)
  {
    assert DrainFields(s.core) && ReconcilersOk(s);
    hide Registrations, DrainFields, Apply, Ending, KeepsCallback, Enabled, Arms;
    if s.core.drain.id != 0 {
      StepEnds(s, step);
      EndKeeps(s, Apply(s, step), Ending(s, step), id, cb, timeout);
    } else if step.Arm? {
      ArmsExactly(s, step);
      OtherArmKeeps(s, step, Apply(s, step), Drained(s.core.q), id, cb, timeout);
    } else {
      if step.StartReturns? { StartIdNonzero(s, step); }
      UnarmedStays(s, step);
      UnarmedKeeps(s, Apply(s, step), id, cb, timeout);
    }
  }

  lemma EndKeeps(s: System, t: System, ending: Option<Outcome>, id: nat, cb: Callback, timeout: nat)
    requires KeepsCallback(s, id, cb, timeout) && EndsWith(s, t, ending) && id != 0
    ensures KeepsCallback(t, id, cb, timeout)
  {
  }

  lemma OtherArmKeeps(s: System, step: Step, t: System, drained: bool, id: nat, cb: Callback, timeout: nat)
    requires KeepsCallback(s, id, cb, timeout) && step.Arm? && Arms(s, step, t, drained) && s.core.drain.id == 0
    ensures KeepsCallback(t, id, cb, timeout)
  {
  }

  lemma UnarmedKeeps(s: System, t: System, id: nat, cb: Callback, timeout: nat)
    requires KeepsCallback(s, id, cb, timeout) && id != 0 && t.core.drain.id == 0
    requires t.core.drain.counter == s.core.drain.counter && t.claims == s.claims
    ensures KeepsCallback(t, id, cb, timeout)
  {
  }

  lemma StartIdNonzero(s: System, step: Step)
    requires ReconcilersOk(s) && Enabled(s, step) && step.StartReturns?
    ensures step.thread in s.reconcilers && s.reconcilers[step.thread].Starting? && s.reconcilers[step.thread].id != 0
  {
  }

  lemma ArmKeeps(s: System, step: Step)
    requires Registrations(s) && step.Arm? && Apply(s, step).core.drain.counter != s.core.drain.counter
    ensures KeepsCallback(Apply(s, step), s.core.drain.counter + 1, step.cb, step.timeout)
  {
    assert ClaimsOk(s) && DrainFields(s.core);
    forall k | 0 <= k < |s.claims| ensures s.claims[k].id <= s.core.drain.counter {
      assert IsClaimed(s, s.claims[k].id);
    }
    hide Registrations, ClaimsOk, Drained;
  }

  lemma RunRegistrations(states: seq<System>, steps: seq<Step>, n: nat)
    requires Run(states, steps) && n < |states|
    ensures Registrations(states[n])
  {
    RunInv(states, steps, n);
    hide Run, Delivery, PumpWork, Registrations, NotLost, Synchronised;
  }

  /** A registration's callback and timeout are, from the step that armed it to the one that ends it,
      those its caller handed in. */
  lemma {:induction false} CallbackIsTheArmedOne(states: seq<System>, steps: seq<Step>, i: nat, n: nat)
    requires Run(states, steps) && i < n < |states| && steps[i].Arm?
    requires states[i + 1].core.drain.counter != states[i].core.drain.counter
    ensures KeepsCallback(states[n], states[i].core.drain.counter + 1, steps[i].cb, steps[i].timeout)
    decreases n
  {
    hide Apply, Enabled, TxTheorems.Inv;
    if n == i + 1 {
      RunRegistrations(states, steps, i);
      ArmKeeps(states[i], steps[i]);
    } else {
      CallbackIsTheArmedOne(states, steps, i, n - 1);
      RunRegistrations(states, steps, n - 1);
      CallbackStep(states[n - 1], steps[n - 1], states[i].core.drain.counter + 1, steps[i].cb, steps[i].timeout);
    }
  }

  // ---- Timers that could not be started -------------------------------------------------------

  /** A start call under way was logged, and its timer has not been cancelled. */
  ghost predicate StartsFresh(s: System) {
    forall r | r in s.reconcilers && s.reconcilers[r].Starting? ::
      WasStarted(s, s.reconcilers[r].id) && !WasCancelled(s, s.reconcilers[r].id)
  }

  /** The timer is not installed, not wanted and not cancelled, now or later. */
  ghost predicate NoTimer(s: System, id: nat) {
    && s.core.timer.id != id && s.core.drain.id != id && 1 <= id <= s.core.drain.counter && !WasCancelled(s, id)
  }

  lemma TopFresh(s: System, r: nat)
    requires CallsOk(s) && InstalledOk(s) && (forall q | q in s.reconcilers :: q == r)
    ensures StartsFresh(TopEffect(s, r))
  {
    var t := TopEffect(s, r);
    if t.starts != s.starts {
      assert t.starts[|s.starts|].id == s.core.drain.id;
      assert WasStarted(t, s.core.drain.id);
    }
  }

  lemma TopNoTimer(s: System, r: nat, id: nat)
    requires NoTimer(s, id)
    ensures NoTimer(TopEffect(s, r), id)
  {
  }

  predicate ReconcilerStep(step: Step) {
    step.EnterReconcile? || step.CancelReturns? || step.ReportReturns? || step.StartReturns?
  }

  lemma ReconcilersUnmoved(s: System, step: Step)
    requires Enabled(s, step) && !ReconcilerStep(step)
    ensures var t := Apply(s, step);
      t.reconcilers == s.reconcilers && t.starts == s.starts && t.cancels == s.cancels
  {
    hide Count, InitRegion, DeinitRegion, LinkStateRegion, SetLinkRegion, EnqueueResponseEffect, EnqueueFrameEffect,
         EnterPumpEffect, PickEffect, SendEffect, PostEffect, FinishEffect, Claimed, ReconcileNeeded, Drained;
  }

  lemma StartReturnCalls(c: Core, s: System, id: nat, rc: int)
    requires CallsOk(s) && InstalledOk(s) && DrainFields(s.core)
    ensures var t := s.(core := StartReturnRegion(s.core, id, rc)); CallsOk(t) && InstalledOk(t)
  {
  }

  lemma FreshStep(s: System, step: Step)
    requires Registrations(s) && StartsFresh(s) && Enabled(s, step)
    ensures StartsFresh(Apply(s, step))
  {
    assert CallsOk(s) && InstalledOk(s) && ReconcilersOk(s) && DrainFields(s.core);
    hide Registrations, CallsOk, InstalledOk, DrainFields, TopEffect, EnterReconcileEffect, StartReturnsEffect,
         StartsFresh;
    match step
    case EnterReconcile => EnterFresh(s);
    case CancelReturns(r) => TopFresh(s, r);
    case ReportReturns(r) => TopFresh(s, r);
    case StartReturns(r, rc) => ReturnFresh(s, r, rc);
    case _ => UnmovedFresh(s, step);
  }

  lemma UnmovedFresh(s: System, step: Step)
    requires Enabled(s, step) && !ReconcilerStep(step) && StartsFresh(s)
    ensures StartsFresh(Apply(s, step))
  {
    ReconcilersUnmoved(s, step);
    hide Apply;
  }

  lemma EnterFresh(s: System)
    requires CallsOk(s) && InstalledOk(s) && ReconcilersOk(s) && StartsFresh(s) && s.reconcileCalls > 0
    ensures StartsFresh(EnterReconcileEffect(s))
  {
    if !s.core.timer.busy {
      var t := s.(reconcileCalls := s.reconcileCalls - 1, nextReconciler := s.nextReconciler + 1);
      SameCallsOk(s, t);
      TopFresh(t, s.nextReconciler);
    }
    hide CallsOk, InstalledOk, TopEffect;
  }

  lemma ReturnFresh(s: System, r: nat, rc: int)
    requires CallsOk(s) && InstalledOk(s) && ReconcilersOk(s) && DrainFields(s.core)
    requires r in s.reconcilers && s.reconcilers[r].Starting?
    ensures StartsFresh(StartReturnsEffect(s, r, rc))
  {
    hide CallsOk, InstalledOk, DrainFields, TopEffect, StartReturnRegion;
    StartReturnCalls(s.core, s, s.reconcilers[r].id, rc);
    TopFresh(s.(core := StartReturnRegion(s.core, s.reconcilers[r].id, rc)), r);
  }

  lemma SameCallsOk(s: System, t: System)
    requires CallsOk(s) && InstalledOk(s) && t.core == s.core && t.starts == s.starts && t.cancels == s.cancels
    ensures CallsOk(t) && InstalledOk(t)
  {
  }

  lemma {:induction false} RunFresh(states: seq<System>, steps: seq<Step>, n: nat)
    requires Run(states, steps) && n < |states|
    ensures StartsFresh(states[n])
    decreases n
  {
    hide Apply, Enabled, Registrations;
    if n > 0 {
      RunFresh(states, steps, n - 1);
      RunRegistrations(states, steps, n - 1);
      hide StartsFresh;
      FreshStep(states[n - 1], steps[n - 1]);
    }
  }

  lemma OthersNoTimer(s: System, step: Step, id: nat)
    requires Enabled(s, step) && !ReconcilerStep(step) && NoTimer(s, id)
    ensures var t := Apply(s, step);
      t.core.timer.id != id && t.core.drain.id != id && s.core.drain.counter <= t.core.drain.counter
  {
    if step.LinkState? || step.SetLink? {
      DiscardDrain(s.core, step.link);
      LinkDrain(s, step);
      LinkTimer(s, step);
      hide Apply, DiscardLink, Holds, WasCancelled;
    } else {
      hide Count, LinkStateRegion, SetLinkRegion, Pick, StillThere, SendOutcome, ResponseRegion, FrameRegion, Drained,
           ReconcileNeeded, WasCancelled, Claimed, Recorded, FreeSlots, ReleaseAll;
    }
  }

  lemma LinkTimer(s: System, step: Step)
    requires Enabled(s, step) && (step.LinkState? || step.SetLink?)
    ensures Apply(s, step).core.timer == s.core.timer
  {
    hide Discard, Holds, Count, Claimed;
  }

  lemma NoTimerStep(s: System, step: Step, id: nat)
    requires Enabled(s, step) && NoTimer(s, id)
    ensures NoTimer(Apply(s, step), id)
  {
    match step
    case EnterReconcile =>
      hide TopEffect;
      TopNoTimer(s.(reconcileCalls := s.reconcileCalls - 1, nextReconciler := s.nextReconciler + 1), s.nextReconciler,
                 id);
    case CancelReturns(r) => TopNoTimer(s, r, id);
    case ReportReturns(r) => TopNoTimer(s, r, id);
    case StartReturns(r, rc) =>
      hide TopEffect;
      TopNoTimer(s.(core := StartReturnRegion(s.core, s.reconcilers[r].id, rc)), r, id);
    case _ =>
      OthersNoTimer(s, step, id);
      ReconcilersUnmoved(s, step);
      hide Apply;
  }

  lemma FailedStart(s: System, r: nat, rc: int)
    requires Registrations(s) && StartsFresh(s) && Enabled(s, StartReturns(r, rc)) && rc < 0
    ensures NoTimer(Apply(s, StartReturns(r, rc)), s.reconcilers[r].id)
  {
    var id := s.reconcilers[r].id;
    assert CallsOk(s) && ReconcilersOk(s) && DrainFields(s.core);
    assert WasStarted(s, id) && !WasCancelled(s, id);
    hide Registrations, InstalledOk, TopEffect, StartsFresh;
    TopNoTimer(s.(core := StartReturnRegion(s.core, id, rc)), r, id);
  }

  lemma RunCount(states: seq<System>, steps: seq<Step>)
    requires Run(states, steps)
    ensures |states| == |steps| + 1
  {
    hide Apply, Enabled, Initial;
  }

  /** In every run: a timer that the back end refused to start is never taken for installed again, and
      never cancelled. */
  lemma {:induction false} FailedStartLeavesNoTimer(states: seq<System>, steps: seq<Step>, i: nat, n: nat)
    requires Run(states, steps) && i < n < |states| && steps[i].StartReturns? && steps[i].rc < 0
    ensures steps[i].thread in states[i].reconcilers && states[i].reconcilers[steps[i].thread].Starting?
    ensures NoTimer(states[n], states[i].reconcilers[steps[i].thread].id)
    decreases n
  {
    hide Run, Registrations, StartsFresh, NoTimer, Apply;
    RunCount(states, steps);
    StepTaken(states, steps, i);
    if n == i + 1 {
      RunRegistrations(states, steps, i);
      RunFresh(states, steps, i);
      FailedStart(states[i], steps[i].thread, steps[i].rc);
    } else {
      FailedStartLeavesNoTimer(states, steps, i, n - 1);
      StepTaken(states, steps, n - 1);
      hide Enabled;
      NoTimerStep(states[n - 1], steps[n - 1], states[i].reconcilers[steps[i].thread].id);
    }
  }

  // ---- Which timers are started ---------------------------------------------------------------

  lemma TopStarts(s: System, r: nat)
    requires DrainFields(s.core)
    ensures var t := TopEffect(s, r);
      t.starts != s.starts ==>
        && t.core.drain.timeout != 0 && t.core.timer.provider.Some? && t.core.timer.id == t.core.drain.id
        && t.starts == s.starts + [TimerCall(t.core.drain.id, t.core.timer.provider.value)]
  {
  }

  /** In every step of every run, a timer is started only for the registration that is armed, which has
      a timeout, and at the provider that is set. */
  lemma StartsTheArmedTimer(states: seq<System>, steps: seq<Step>, n: nat)
    requires Run(states, steps) && n < |steps|
    ensures var s, t := states[n], states[n + 1];
      t.starts != s.starts ==>
        && t.core.drain.timeout != 0 && t.core.timer.provider.Some? && t.core.timer.id == t.core.drain.id
        && t.starts == s.starts + [TimerCall(t.core.drain.id, t.core.timer.provider.value)]
  {
    RunRegistrations(states, steps, n);
    StepTaken(states, steps, n);
    assert DrainFields(states[n].core);
    hide Run, Registrations, Apply, Enabled, DrainFields;
    StepStarts(states[n], steps[n]);
  }

  lemma StepStarts(s: System, step: Step)
    requires DrainFields(s.core) && Enabled(s, step)
    ensures var t := Apply(s, step);
      t.starts != s.starts ==>
        && t.core.drain.timeout != 0 && t.core.timer.provider.Some? && t.core.timer.id == t.core.drain.id
        && t.starts == s.starts + [TimerCall(t.core.drain.id, t.core.timer.provider.value)]
  {
    hide TopEffect, DrainFields, StartReturnRegion;
    match step
    case EnterReconcile =>
      var t := s.(reconcileCalls := s.reconcileCalls - 1, nextReconciler := s.nextReconciler + 1);
      assert DrainFields(t.core);
      TopStarts(t, s.nextReconciler);
    case CancelReturns(r) => TopStarts(s, r);
    case ReportReturns(r) => TopStarts(s, r);
    case StartReturns(r, rc) =>
      ReturnFields(s.core, s.reconcilers[r].id, rc);
      TopStarts(s.(core := StartReturnRegion(s.core, s.reconcilers[r].id, rc)), r);
    case _ =>
      ReconcilersUnmoved(s, step);
      hide Apply;
  }

  lemma ReturnFields(c: Core, id: nat, rc: int)
    requires DrainFields(c)
    ensures DrainFields(StartReturnRegion(c, id, rc))
  {
  }
}
