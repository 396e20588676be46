/** The last ticket, 2^64-1: it is admitted like any other, and never sent. */
module TxLastTicket {
  import opened Basics
  import opened Octets
  import opened TxModel
  import opened TxSystem
  import opened TxQueues
  import opened TxDelivery
  import opened TxTheorems
  import opened TxWitness

  // ---- Never sent -------------------------------------------------------------------------

  predicate CarriesLast(p: Pump) {
    || (p.stage.Sending? && p.stage.msg.Tag().ticket >= UINT64_MAX)
    || (p.stage.Sent? && p.stage.msg.Tag().ticket >= UINT64_MAX)
  }

  /** No pump has picked up the last ticket, and no send has carried it. */
  ghost predicate NeverLast(s: System) {
    && (forall p | p in s.pumps :: !CarriesLast(s.pumps[p]))
    && (forall i | 0 <= i < |s.sends| :: s.sends[i].ticket < UINT64_MAX)
  }

  lemma UpdateNeverLast(s: System, t: System, p: nat)
    requires NeverLast(s) && t.sends == s.sends && (p in t.pumps ==> !CarriesLast(t.pumps[p]))
    requires forall q | q in t.pumps && q != p :: q in s.pumps && t.pumps[q] == s.pumps[q]
    ensures NeverLast(t)
  {
    hide CarriesLast;
  }

  lemma PickNeverLast(s: System, p: nat)
    requires NeverLast(s) && p in s.pumps
    ensures NeverLast(PickEffect(s, p))
  {
    assert !CarriesLast(s.pumps[p]);
    hide NeverLast, Pick, Count;
    UpdateNeverLast(s, PickEffect(s, p), p);
  }

  lemma SendNeverLast(s: System, p: nat, rc: int)
    requires NeverLast(s) && p in s.pumps && s.pumps[p].stage.Sending?
    ensures NeverLast(SendEffect(s, p, rc))
  {
    assert !CarriesLast(s.pumps[p]);
  }

  lemma OthersNeverLast(s: System, step: Step)
    requires NeverLast(s) && Enabled(s, step) && !step.PickStep? && !step.SendStep?
    ensures NeverLast(Apply(s, step))
  {
    hide InitEffect, DeinitEffect, LinkStateEffect, SetLinkEffect, EnqueueResponseEffect, EnqueueFrameEffect,
         EnterPumpEffect, PostEffect, FinishEffect, SetOpsEffect, ArmEffect, ExpireEffect, ClearEffect,
         EnterReconcileEffect, TopEffect, StartReturnsEffect;
    if TimerStep(step) {
      TimerFrame(s, step);
      UnchangedNeverLast(s, Apply(s, step));
    } else if step.EnterPump? || step.PostStep? || step.FinishStep? {
      hide NeverLast;
      PumpNeverLast(s, step);
    } else {
      UnchangedNeverLast(s, Apply(s, step));
    }
  }

  lemma UnchangedNeverLast(s: System, t: System)
    requires NeverLast(s) && t.pumps == s.pumps && t.sends == s.sends
    ensures NeverLast(t)
  {
    hide CarriesLast;
  }

  lemma PumpNeverLast(s: System, step: Step)
    requires NeverLast(s) && Enabled(s, step) && (step.EnterPump? || step.PostStep? || step.FinishStep?)
    ensures NeverLast(Apply(s, step))
  {
    var p := if step.EnterPump? then s.nextPump else step.pump;
    assert p in s.pumps ==> !CarriesLast(s.pumps[p]);
    hide NeverLast, PostRegion, FinalRegion, Count;
    UpdateNeverLast(s, Apply(s, step), p);
  }

  lemma NeverLastStep(s: System, step: Step)
    requires NeverLast(s) && Enabled(s, step)
    ensures NeverLast(Apply(s, step))
  {
    if step.PickStep? {
      hide NeverLast, PickEffect;
      PickNeverLast(s, step.pump);
    } else if step.SendStep? {
      hide NeverLast, SendEffect;
      SendNeverLast(s, step.pump, step.rc);
    } else {
      OthersNeverLast(s, step);
    }
  }

  /** In no run is the last ticket sent, successfully or not: no pump ever picks it up. */
  lemma {:induction false} LastTicketNeverSent(states: seq<System>, steps: seq<Step>, n: nat)
    requires Run(states, steps) && n < |states|
    ensures NeverLast(states[n])
    decreases n
  {
    hide Apply, Enabled, NeverLast;
    if n == 0 {
      NothingSentYet(states[0]);
    } else {
      LastTicketNeverSent(states, steps, n - 1);
      NeverLastStep(states[n - 1], steps[n - 1]);
    }
  }

  lemma NothingSentYet(s: System)
    requires Initial(s)
    ensures NeverLast(s)
  {
  }

  // ---- Never let go -------------------------------------------------------------------------

  /** The step discards what is queued for the link: an init, a deinit, a report that is stale, or the
      link's deselection. */
  predicate Discards(s: System, step: Step, link: Link) {
    match step
    case Init => true
    case Deinit => true
    case LinkState(l, connected, generation) =>
      l == link && (!connected || !s.core.q.online.Get(l) || s.core.q.sessions.Get(l) != generation)
    case SetLink(l, selected) => l == link && !selected
    case _ => false
  }

  /** The slot holds a message with this ticket. */
  predicate HoldsTicket(s: System, kind: Kind, i: int, ticket: nat) {
    Entry(s.core.q, kind, i) && TagAt(s.core.q, kind, i).ticket == ticket
  }

  /** Slot `i` of queue `kind` is as it was. */
  predicate SameSlot(q: Queues, r: Queues, kind: Kind, i: int)
    requires Entry(q, kind, i)
  {
    i < |r.Slots(kind)| && r.Slots(kind)[i] == q.Slots(kind)[i]
  }

  lemma LinksKeep(c: Core, link: Link, kind: Kind, i: int)
    requires Entry(c.q, kind, i) && TagAt(c.q, kind, i).link != link
    ensures SameSlot(c.q, DiscardLink(c, link).q, kind, i)
  {
    assert DiscardLink(c, link).q.Slots(kind) == Discard(c.q.Slots(kind), link);
  }

  lemma ReportKeeps(c: Core, link: Link, connected: bool, generation: nat, kind: Kind, i: int)
    requires Entry(c.q, kind, i)
    requires TagAt(c.q, kind, i).link == link ==>
      connected && c.q.online.Get(link) && c.q.sessions.Get(link) == generation
    ensures SameSlot(c.q, LinkStateRegion(c, link, connected, generation).q, kind, i)
  {
    hide Discard, Holds;
    if link != TagAt(c.q, kind, i).link { LinksKeep(c, link, kind, i); }
  }

  lemma SelectKeeps(c: Core, link: Link, selected: bool, kind: Kind, i: int)
    requires Entry(c.q, kind, i) && (TagAt(c.q, kind, i).link == link ==> selected)
    ensures SameSlot(c.q, SetLinkRegion(c, link, selected).q, kind, i)
  {
    hide Discard, Holds;
    if link != TagAt(c.q, kind, i).link { LinksKeep(c, link, kind, i); }
  }

  lemma LinkStepKeeps(s: System, step: Step, kind: Kind, i: int)
    requires Entry(s.core.q, kind, i) && (step.LinkState? || step.SetLink?) && Enabled(s, step)
    requires !Discards(s, step, TagAt(s.core.q, kind, i).link)
    ensures SameSlot(s.core.q, Apply(s, step).core.q, kind, i)
  {
    hide LinkStateRegion, SetLinkRegion, SameSlot;
    if step.LinkState? {
      ReportKeeps(s.core, step.link, step.connected, step.generation, kind, i);
    } else {
      SelectKeeps(s.core, step.link, step.selected, kind, i);
    }
  }

  /** Once the last ticket is out, nothing more is admitted. */
  lemma NothingAdmitted(s: System, step: Step, kind: Kind, i: int)
    requires ValidQueues(s.core.q) && HoldsTicket(s, kind, i, UINT64_MAX)
    requires step.EnqueueResponse? || step.EnqueueFrame?
    requires Enabled(s, step)
    ensures Apply(s, step).core.q == s.core.q
  {
    assert ValidTag(s.core.q, TagAt(s.core.q, kind, i));
    hide Count, ValidQueues;
  }

  /** A pump carries other tickets only, so it releases other slots only. */
  lemma PostKeeps(s: System, p: nat, kind: Kind, i: int)
    requires NeverLast(s) && HoldsTicket(s, kind, i, UINT64_MAX) && p in s.pumps && s.pumps[p].stage.Sent?
    ensures SameSlot(s.core.q, PostEffect(s, p).core.q, kind, i)
  {
    assert !CarriesLast(s.pumps[p]);
  }

  lemma LastTicketKept(s: System, step: Step, kind: Kind, i: int)
    requires TxTheorems.Inv(s) && NeverLast(s) && Enabled(s, step) && HoldsTicket(s, kind, i, UINT64_MAX)
    requires !Discards(s, step, TagAt(s.core.q, kind, i).link)
    ensures SameSlot(s.core.q, Apply(s, step).core.q, kind, i)
  {
    assert ValidQueues(s.core.q);
    hide TxTheorems.Inv, NeverLast, ValidQueues;
    if step.LinkState? || step.SetLink? {
      LinkStepKeeps(s, step, kind, i);
    } else if step.EnqueueResponse? || step.EnqueueFrame? {
      NothingAdmitted(s, step, kind, i);
    } else if step.PostStep? {
      PostKeeps(s, step.pump, kind, i);
    } else {
      QueueUntouched(s, step);
      hide Apply;
    }
  }

  lemma {:induction false} KeptUntil(states: seq<System>, steps: seq<Step>, k: nat, n: nat, kind: Kind, i: int)
    requires Run(states, steps) && k <= n < |states| && HoldsTicket(states[k], kind, i, UINT64_MAX)
    requires forall j | k <= j < n :: !Discards(states[j], steps[j], TagAt(states[k].core.q, kind, i).link)
    ensures Entry(states[n].core.q, kind, i) && TagAt(states[n].core.q, kind, i) == TagAt(states[k].core.q, kind, i)
    decreases n
  {
    hide Apply, Enabled, TxTheorems.Inv, NeverLast, Discards;
    if k < n {
      KeptUntil(states, steps, k, n - 1, kind, i);
      RunInv(states, steps, n - 1);
      LastTicketNeverSent(states, steps, n - 1);
      LastTicketKept(states[n - 1], steps[n - 1], kind, i);
    }
  }

  /** A message that is queued in some state and not discarded before a pump leaves its loop: if its
      link did not refuse in that pump, it is still queued then if and only if it holds the last
      ticket. Every other one has been sent, found stale or, as a frame, made room. */
  lemma LeftBehindExactly(states: seq<System>, steps: seq<Step>, k: nat, n: nat, p: nat, kind: Kind, i: int)
    requires Run(states, steps) && k <= n < |steps| && steps[n] == PickStep(p)
    requires p in states[n + 1].pumps && states[n + 1].pumps[p].stage.Finishing?
    requires Entry(states[k].core.q, kind, i)
    requires forall j | k <= j < n :: !Discards(states[j], steps[j], TagAt(states[k].core.q, kind, i).link)
    requires !states[n + 1].pumps[p].last.Get(TagAt(states[k].core.q, kind, i).link).Refused?
    ensures var tag := TagAt(states[k].core.q, kind, i);
      HoldsTicket(states[n + 1], kind, i, tag.ticket) <==> tag.ticket == UINT64_MAX
  {
    hide Apply, Enabled, Initial;
    var tag := TagAt(states[k].core.q, kind, i);
    if tag.ticket == UINT64_MAX {
      assert !Discards(states[n], steps[n], tag.link);
      hide Run, Discards;
      KeptUntil(states, steps, k, n + 1, kind, i);
    } else if HoldsTicket(states[n + 1], kind, i, tag.ticket) {
      hide Discards;
      SameMessage(states, steps, k, n + 1, kind, i);
      PumpLeavesOnlyRefused(states, steps, n, p);
    }
  }

  /** A ticket belongs to one message for good, and so to one link. */
  lemma SameMessage(states: seq<System>, steps: seq<Step>, k: nat, n: nat, kind: Kind, i: int)
    requires Run(states, steps) && k <= n < |states| && Entry(states[k].core.q, kind, i)
    requires HoldsTicket(states[n], kind, i, TagAt(states[k].core.q, kind, i).ticket)
    ensures TagAt(states[n].core.q, kind, i).link == TagAt(states[k].core.q, kind, i).link
  {
    var ticket := TagAt(states[k].core.q, kind, i).ticket;
    RunInv(states, steps, k);
    RunInv(states, steps, n);
    assert HasRecord(states[k], kind, states[k].core.q.Slots(kind)[i], states[k].core.lifetime);
    assert HasRecord(states[n], kind, states[n].core.q.Slots(kind)[i], states[n].core.lifetime);
    hide Run, TxTheorems.Inv;
    RecordsKept(states, steps, k, n, ticket);
  }

  lemma RecordStep(s: System, step: Step, ticket: nat)
    requires TxTheorems.Inv(s) && Enabled(s, step) && ticket in s.admitted
    ensures ticket in Apply(s, step).admitted && Apply(s, step).admitted[ticket] == s.admitted[ticket]
  {
    assert HistoryOk(s);
    assert ticket <= s.core.q.ticket;
    hide TxTheorems.Inv, HistoryOk, Apply;
    if TimerStep(step) {
      TimerFrame(s, step);
    } else if step.EnqueueResponse? || step.EnqueueFrame? {
      EnqueueRecords(s, step, ticket);
    } else {
      OthersRecordNothing(s, step);
    }
  }

  lemma EnqueueRecords(s: System, step: Step, ticket: nat)
    requires Enabled(s, step) && (step.EnqueueResponse? || step.EnqueueFrame?) && ticket in s.admitted
      && ticket <= s.core.q.ticket
    ensures ticket in Apply(s, step).admitted && Apply(s, step).admitted[ticket] == s.admitted[ticket]
  {
    hide ResponseRegion, FrameRegion;
  }

  lemma OthersRecordNothing(s: System, step: Step)
    requires Enabled(s, step) && !TimerStep(step) && !step.EnqueueResponse? && !step.EnqueueFrame?
    ensures Apply(s, step).admitted == s.admitted
  {
    hide EnqueueResponseEffect, EnqueueFrameEffect, SetOpsEffect, ArmEffect, ExpireEffect, ClearEffect,
         EnterReconcileEffect, TopEffect, StartReturnsEffect, Count, Pick, PostRegion, InitRegion, DeinitRegion,
         LinkStateRegion, SetLinkRegion;
  }

  lemma {:induction false} RecordsKept(states: seq<System>, steps: seq<Step>, k: nat, n: nat, ticket: nat)
    requires Run(states, steps) && k <= n < |states| && ticket in states[k].admitted
    ensures ticket in states[n].admitted && states[n].admitted[ticket] == states[k].admitted[ticket]
    decreases n
  {
    hide Apply, Enabled, TxTheorems.Inv;
    if k < n {
      RecordsKept(states, steps, k, n - 1, ticket);
      RunInv(states, steps, n - 1);
      RecordStep(states[n - 1], steps[n - 1], ticket);
    }
  }

  // ---- A run that leaves it behind -------------------------------------------------------------

  /** The link is up, both queues are empty and `k` tickets have been given out. */
  predicate Spent(s: System, k: nat) {
    && s.core.q.ticket == k && |s.core.q.frames| >= 2 && |s.core.q.responses| == RESP_DEPTH
    && (forall i | 0 <= i < RESP_DEPTH :: !s.core.q.responses[i].tag.used)
    && (forall i | 0 <= i < |s.core.q.frames| :: !s.core.q.frames[i].tag.used)
    && s.core.q.online.classic && !s.core.pumping && s.pumpCalls > 0
  }

  /** The same with one response waiting, under ticket `k`. */
  predicate Waiting(s: System, k: nat) {
    && s.core.q.ticket == k && |s.core.q.frames| >= 2 && |s.core.q.responses| == RESP_DEPTH
    && (forall i | 0 <= i < 3 :: !s.core.q.responses[i].tag.used)
    && (forall i | 0 <= i < |s.core.q.frames| :: !s.core.q.frames[i].tag.used)
    && s.core.q.responses[3].tag == Tag(k, 0, s.core.q.sessions.classic, Classic, true)
    && s.core.q.online.classic && !s.core.pumping && s.pumpCalls > 0
  }

  lemma SpendOne(s: System, k: nat) returns (t: System)
    requires Spent(s, k) && k < UINT64_MAX
    ensures Next(s, EnqueueResponse(Classic, [], ANY), t) && Waiting(t, k + 1)
  {
    NothingCounted(s.core.q.responses);
    assert LastFree(s.core.q.responses, 4) == 3;
    t := EnqueueResponseEffect(s, Classic, [], ANY);
    hide Count, LastFree;
  }

  lemma DropLink(s: System, k: nat) returns (t: System, u: System)
    requires Waiting(s, k)
    ensures Next(s, SetLink(Classic, false), t) && Next(t, SetLink(Classic, true), u) && Spent(u, k)
  {
    hide Count, Holds;
    t := SetLinkEffect(s, Classic, false);
    u := SetLinkEffect(t, Classic, true);
  }

  /** For every k a run that gives out exactly k tickets and discards what it admitted. */
  lemma {:induction false} SpendUpTo(start: System, k: nat) returns (states: seq<System>, steps: seq<Step>)
    requires Initial(start) && k < UINT64_MAX
    ensures Run(states, steps) && |states| == |steps| + 1 && Spent(states[|steps|], k)
    decreases k
  {
    hide *;
    if k == 0 {
      var t := LinkUp(start);
      RunStarts(start);
      states, steps := Extend([start], [], SetLink(Classic, true), t);
    } else {
      LessThanLast(k);
      states, steps := SpendUpTo(start, k - 1);
      var t := SpendOne(states[|steps|], k - 1);
      var u, v := DropLink(t, k);
      states, steps := Extend(states, steps, EnqueueResponse(Classic, [], ANY), t);
      states, steps := Extend(states, steps, SetLink(Classic, false), u);
      states, steps := Extend(states, steps, SetLink(Classic, true), v);
    }
  }

  lemma LessThanLast(k: nat)
    requires 0 < k < UINT64_MAX
    ensures k - 1 < UINT64_MAX
  {
  }

  lemma LinkUp(s: System) returns (t: System)
    requires Initial(s)
    ensures Next(s, SetLink(Classic, true), t) && Spent(t, 0)
  {
    hide Count;
    t := SetLinkEffect(s, Classic, true);
  }

  /** Two more steps: a pump starts, finds nothing it may pick, and leaves its loop. */
  lemma PumpPassesOver(s: System) returns (t: System, u: System)
    requires Waiting(s, UINT64_MAX)
    ensures Next(s, EnterPump, t) && Next(t, PickStep(s.nextPump), u)
    ensures s.nextPump in u.pumps && u.pumps[s.nextPump].stage.Finishing? && u.pumps[s.nextPump].attempts == 0
    ensures u.core.q == s.core.q
  {
    hide Count;
    t := EnterPumpEffect(s);
    assert forall i | 0 <= i < 4 :: !Eligible(s.core.q.responses[i], NO_LINKS);
    assert forall i | 0 <= i < |s.core.q.frames| :: !Eligible(s.core.q.frames[i], NO_LINKS);
    u := PickEffect(t, s.nextPump);
  }

  /** For a ring of any depth, a run in which the last ticket is admitted and left behind by a pump that
      no link refused. */
  lemma LastTicketLeftBehind(start: System) returns (states: seq<System>, steps: seq<Step>, p: nat)
    requires Initial(start)
    ensures Run(states, steps) && |states| == |steps| + 1
    ensures var s := states[|steps|];
      && HoldsTicket(s, Response, 3, UINT64_MAX)
      && p in s.pumps && s.pumps[p].stage.Finishing? && s.pumps[p].attempts == 0
  {
    states, steps := SpendUpTo(start, UINT64_MAX - 1);
    var r := SpendOne(states[|steps|], UINT64_MAX - 1);
    p := r.nextPump;
    var t, u := PumpPassesOver(r);
    hide Run, Next, Apply;
    states, steps := Extend(states, steps, EnqueueResponse(Classic, [], ANY), r);
    states, steps := Extend(states, steps, EnterPump, t);
    states, steps := Extend(states, steps, PickStep(p), u);
  }
}
