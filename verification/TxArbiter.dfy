/** The arbiter in the source's own form: static slot arrays, counters and flags that locked
    regions update in place. Each method is one region (the lock is held throughout it) and is
    proved to have exactly the effect of the function that the transition system uses. */
module TxArbiter {
  import opened Basics
  import opened Octets
  import opened TxModel
  import opened TxQueues

  /** The enumeration value a caller passes; anything else is refused. */
  function DecodeLink(code: int): Option<Link> {
    if code == 0 then Some(Classic) else if code == 1 then Some(Ble) else None
  }

  class Arbiter {
    const frames: array<Slot>
    const responses: array<Slot>
    var link: Link
    var selected: bool
    var pumping: bool
    var repoll: bool
    var online: PerLink<bool>
    var sessions: PerLink<nat>
    var lifetime: nat
    var sent: nat
    var droppedOldest: nat
    var ticket: nat
    var drainId: nat
    var drainCb: Option<Callback>
    var drainTimeout: nat
    var drainCounter: nat
    var timerId: nat
    var timerBusy: bool
    var timerProvider: Option<nat>
    var timerInstalled: nat

    ghost predicate Valid()
      reads this
    {
      frames != responses && frames.Length >= 2 && responses.Length == RESP_DEPTH
    }

    ghost function Queues(): Queues
      reads this, frames, responses
    {
      TxModel.Queues.Queues(frames[..], responses[..], online, sessions, ticket)
    }

    ghost function Value(): Core
      reads this, frames, responses
    {
      Core(Queues(), link, selected, pumping, repoll, lifetime, sent, droppedOldest,
           Drain(drainId, drainCb, drainTimeout, drainCounter),
           Timer(timerId, timerBusy, timerProvider, timerInstalled))
    }

    constructor (depth: nat)
      requires depth >= 2
      ensures Valid() && fresh(frames) && fresh(responses) && frames.Length == depth
      ensures Drained(Queues()) && ticket == 0 && !pumping && !timerBusy
      ensures Value().drain == Drain(0, None, 0, 0) && timerId == 0
    {
      frames := new Slot[depth](_ => FREE_SLOT);
      responses := new Slot[RESP_DEPTH](_ => FREE_SLOT);
      link, selected, pumping, repoll := Classic, false, false, false;
      online, sessions := NO_LINKS, PerLink(0, 0);
      lifetime, sent, droppedOldest, ticket := 0, 0, 0, 0;
      drainId, drainCb, drainTimeout, drainCounter := 0, None, 0, 0;
      timerId, timerBusy, timerProvider, timerInstalled := 0, false, None, 0;
    }

    // ---- Scans ---------------------------------------------------------------------------

    static method CountUsed(slots: array<Slot>) returns (n: nat)
      ensures n == Count(slots[..])
    {
      n := 0;
      for i := 0 to slots.Length
        invariant n == Count(slots[..i])
      {
        assert slots[..i + 1][..i] == slots[..i];
        if slots[i].tag.used { n := n + 1; }
      }
      assert slots[..slots.Length] == slots[..];
    }

    static method IsEmpty(slots: array<Slot>) returns (empty: bool)
      ensures empty <==> Empty(slots[..])
    {
      for i := 0 to slots.Length
        invariant forall k :: 0 <= k < i ==> !slots[k].tag.used
      {
        if slots[i].tag.used {
          assert slots[..][i].tag.used;
          return false;
        }
      }
      return true;
    }

    /** The oldest message whose link is not blocked: its index, or -1. */
    static method FindOldest(slots: array<Slot>, blocked: PerLink<bool>) returns (slot: int)
      ensures slot == Oldest(slots[..], slots.Length, blocked)
    {
      slot := -1;
      var oldest := UINT64_MAX;
      for i := 0 to slots.Length
        invariant slot == Oldest(slots[..], i, blocked)
        invariant oldest == if slot < 0 then UINT64_MAX else slots[slot].tag.ticket
      {
        var tag := slots[i].tag;
        if tag.used && !blocked.Get(tag.link) && tag.ticket < oldest {
          oldest, slot := tag.ticket, i;
        }
      }
    }

    static method ChooseFrameSlot(slots: array<Slot>) returns (slot: int, full: bool)
      ensures slot == FrameTarget(slots[..])
      ensures full == (Count(slots[..]) == slots.Length - 1)
    {
      var count := CountUsed(slots);
      full := count == slots.Length - 1;
      if full {
        slot := FindOldest(slots, NO_LINKS);
      } else {
        slot := -1;
        var i := 0;
        while i < slots.Length && slot < 0
          invariant 0 <= i <= slots.Length && slot == FirstFree(slots[..], i)
        {
          if !slots[i].tag.used { slot := i; }
          i := i + 1;
        }
        FirstFreeStable(slots[..], i);
      }
    }

    static method DiscardIn(slots: array<Slot>, link: Link) returns (hit: bool)
      modifies slots
      ensures slots[..] == Discard(old(slots[..]), link)
      ensures hit <==> Holds(old(slots[..]), link)
    {
      hit := false;
      for i := 0 to slots.Length
        invariant hit <==> exists k :: 0 <= k < i && old(slots[..])[k].tag.used && old(slots[..])[k].tag.link == link
        invariant forall k :: 0 <= k < i ==> slots[k] == Discard(old(slots[..]), link)[k]
        invariant forall k :: i <= k < slots.Length ==> slots[k] == old(slots[..])[k]
      {
        if slots[i].tag.link == link {
          hit := hit || slots[i].tag.used;
          slots[i] := Release(slots[i]);
        }
      }
    }

    static method Reset(slots: array<Slot>)
      modifies slots
      ensures slots[..] == FreeSlots(slots.Length)
    {
      for i := 0 to slots.Length
        invariant forall k :: 0 <= k < i ==> slots[k] == FREE_SLOT
      {
        slots[i] := FREE_SLOT;
      }
    }

    static method ReleaseIn(slots: array<Slot>)
      modifies slots
      ensures slots[..] == ReleaseAll(old(slots[..]))
    {
      for i := 0 to slots.Length
        invariant forall k :: 0 <= k < i ==> slots[k] == Release(old(slots[..])[k])
        invariant forall k :: i <= k < slots.Length ==> slots[k] == old(slots[..])[k]
      {
        slots[i] := Release(slots[i]);
      }
    }

    // ---- Lifecycle and links -------------------------------------------------------------

    method ClearDrain()
      modifies this
      ensures Value() == old(Value()).(drain := TxModel.ClearDrain(old(Value()).drain))
    {
      drainId, drainCb, drainTimeout := 0, None, 0;
    }

    method DiscardLink(target: Link)
      requires Valid()
      modifies this, frames, responses
      ensures Valid() && Value() == TxModel.DiscardLink(old(Value()), target)
    {
      var a := DiscardIn(frames, target);
      var b := DiscardIn(responses, target);
      if a || b { ClearDrain(); }
    }

    method Init() returns (reconcile: bool)
      requires Valid()
      modifies this, frames, responses
      ensures Valid() && Value() == InitRegion(old(Value()))
      ensures reconcile == ReconcileNeeded(Value())
    {
      Reset(frames);
      Reset(responses);
      link, selected, pumping := Classic, false, false;
      lifetime := lifetime + 1;
      online := NO_LINKS;
      sent, droppedOldest := 0, 0;
      ClearDrain();
      reconcile := NeedsReconcile();
    }

    method Deinit() returns (reconcile: bool)
      requires Valid()
      modifies this, frames, responses
      ensures Valid() && Value() == DeinitRegion(old(Value()))
      ensures reconcile == ReconcileNeeded(Value())
    {
      ReleaseIn(frames);
      ReleaseIn(responses);
      selected := false;
      lifetime := lifetime + 1;
      online := NO_LINKS;
      ClearDrain();
      reconcile := NeedsReconcile();
    }

    /** The caller pumps after this region when the link was valid. */
    method LinkState(code: int, connected: bool, generation: nat) returns (pump: bool)
      requires Valid()
      modifies this, frames, responses
      ensures Valid() && pump == DecodeLink(code).Some?
      ensures pump ==> Value() == LinkStateRegion(old(Value()), DecodeLink(code).value, connected, generation)
      ensures !pump ==> Value() == old(Value())
    {
      if DecodeLink(code).None? { return false; }
      var target := DecodeLink(code).value;
      if !connected || !online.Get(target) || sessions.Get(target) != generation {
        DiscardLink(target);
      }
      sessions := sessions.Set(target, generation);
      online := online.Set(target, connected);
      if !connected && selected && link == target { selected := false; }
      return true;
    }

    method SetLink(code: int, select: bool) returns (ok: bool)
      requires Valid()
      modifies this, frames, responses
      ensures Valid() && ok == DecodeLink(code).Some?
      ensures ok ==> Value() == SetLinkRegion(old(Value()), DecodeLink(code).value, select)
      ensures !ok ==> Value() == old(Value())
    {
      if DecodeLink(code).None? { return false; }
      var target := DecodeLink(code).value;
      if !select {
        DiscardLink(target);
        online := online.Set(target, false);
        sessions := sessions.Set(target, (sessions.Get(target) + 1) % UINT32_RANGE);
        if selected && link == target { selected := false; }
      } else {
        link, selected := target, true;
        online := online.Set(target, true);
      }
      return true;
    }

    // ---- Admission -----------------------------------------------------------------------

    /** The next ticket's tag; the ticket counter moves only when a tag is given out. */
    method Admit(target: Link, capture: Capture) returns (r: Result<Tag, int>)
      modifies this`ticket
      ensures r == Admission(old(Queues()), target, capture)
      ensures ticket == if r.Ok? then old(ticket) + 1 else old(ticket)
    {
      if !online.Get(target) { return Err(ENOTCONN); }
      if ticket == UINT64_MAX { return Err(EOVERFLOW); }
      var identity := 0;
      if target.Ble? {
        if capture.rc != 0 { return Err(capture.rc); }
        identity := capture.identity;
      }
      ticket := ticket + 1;
      return Ok(Tag(ticket, identity, sessions.Get(target), target, true));
    }

    method EnqueueResponse(code: int, line: Option<Bytes>, capture: Capture) returns (rc: int)
      requires Valid() && ValidQueues(Queues())
      modifies this`ticket, responses
      ensures Valid() && ValidQueues(Queues())
      ensures line.None? || DecodeLink(code).None? ==> rc == EINVAL && Value() == old(Value())
      ensures line.Some? && DecodeLink(code).Some? && |line.value| > RESPONSE_MAX_LEN ==>
        rc == E2BIG && Value() == old(Value())
      ensures line.Some? && DecodeLink(code).Some? && |line.value| <= RESPONSE_MAX_LEN ==>
        var (q, expected) := ResponseRegion(old(Queues()), DecodeLink(code).value, line.value, capture);
        Value() == old(Value()).(q := q) && rc == expected
    {
      if line.None? || DecodeLink(code).None? { return EINVAL; }
      if |line.value| > RESPONSE_MAX_LEN { return E2BIG; }
      ResponseValid(Queues(), DecodeLink(code).value, line.value, capture);
      rc := StoreResponse(DecodeLink(code).value, line.value, capture);
    }

    /** Lines 230-241. */
    method StoreResponse(target: Link, line: Bytes, capture: Capture) returns (rc: int)
      requires Valid() && ValidQueues(Queues())
      modifies this`ticket, responses
      ensures Valid() && (Queues(), rc) == ResponseRegion(old(Queues()), target, line, capture)
    {
      CountBounds(responses[..]);
      assert Count(responses[..]) <= RESP_DEPTH - 1;
      hide ValidQueues;
      var count, slot := 0, -1;
      for i := 0 to responses.Length
        invariant count == Count(responses[..i]) && slot == LastFree(responses[..], i)
      {
        assert responses[..i + 1][..i] == responses[..i];
        if responses[i].tag.used { count := count + 1; } else { slot := i; }
      }
      assert responses[..responses.Length] == responses[..];
      if count == RESP_DEPTH - 1 { return ENOSPC; }
      var admission := Admit(target, capture);
      if admission.Err? { return admission.error; }
      responses[slot] := Slot(line, admission.value);
      return 0;
    }

    /** Drop-oldest: a full ring still takes the frame, in place of its oldest one. */
    method EnqueueFrame(code: int, buf: Option<Bytes>, capture: Capture) returns (rc: int)
      requires Valid() && ValidQueues(Queues())
      modifies this`ticket, this`droppedOldest, frames
      ensures Valid() && ValidQueues(Queues())
      ensures buf.None? || |buf.value| == 0 || |buf.value| > FRAME_MAX_SIZE ==> rc == E2BIG && Value() == old(Value())
      ensures buf.Some? && 0 < |buf.value| <= FRAME_MAX_SIZE && DecodeLink(code).None? ==>
        rc == EINVAL && Value() == old(Value())
      ensures buf.Some? && 0 < |buf.value| <= FRAME_MAX_SIZE && DecodeLink(code).Some? ==>
        var (q, expected) := FrameRegion(old(Queues()), DecodeLink(code).value, buf.value, capture);
        && rc == expected
        && Value() == old(Value()).(q := q, droppedOldest := old(droppedOldest) +
             if q.ticket != old(ticket) && rc == ENOSPC then 1 else 0)
    {
      if buf.None? || |buf.value| == 0 || |buf.value| > FRAME_MAX_SIZE { return E2BIG; }
      if DecodeLink(code).None? { return EINVAL; }
      FrameValid(Queues(), DecodeLink(code).value, buf.value, capture);
      rc := StoreFrame(DecodeLink(code).value, buf.value, capture);
    }

    /** Lines 260-279. */
    method StoreFrame(target: Link, buf: Bytes, capture: Capture) returns (rc: int)
      requires Valid() && ValidQueues(Queues())
      modifies this`ticket, this`droppedOldest, frames
      ensures Valid() && (Queues(), rc) == FrameRegion(old(Queues()), target, buf, capture)
      ensures droppedOldest == old(droppedOldest) + if ticket != old(ticket) && rc == ENOSPC then 1 else 0
    {
      ghost var before := Queues();
      if before.ticket < UINT64_MAX { FrameTargetFound(before); }
      hide ValidQueues;
      var admission := Admit(target, capture);
      if admission.Err? { return admission.error; }
      var slot, full := ChooseFrameSlot(frames);
      rc := 0;
      if full {
        droppedOldest := droppedOldest + 1;
        rc := ENOSPC;
      }
      frames[slot] := Slot(buf, admission.value);
    }

    // ---- The pump ------------------------------------------------------------------------

    /** Lines 298-303: a running pump is asked to look again instead. */
    method EnterPump() returns (started: bool)
      modifies this`pumping, this`repoll
      ensures (Value(), started) == EnterRegion(old(Value()))
    {
      if pumping {
        repoll := true;
        return false;
      }
      pumping, repoll := true, false;
      return true;
    }

    /** Lines 309-349: what a pump of lifetime `mine` does next; None when it must return. */
    method PickNext(mine: nat, blocked: PerLink<bool>, retry: bool, ghost pump: Pump) returns (r: Option<PickResult>)
      requires Valid() && pump.blocked == blocked && pump.retry == retry && pump.lifetime == mine
      modifies this`pumping, this`repoll
      ensures r.None? <==> mine != lifetime
      ensures r.Some? ==> r.value == Pick(old(Value()), pump)
      ensures Value() == old(Value()).(pumping := if r == Some(Done) then false else old(pumping),
                                       repoll := if r == Some(Again) then false else old(repoll))
    {
      if mine != lifetime { return None; }
      var slot := FindOldest(responses, blocked);
      if slot >= 0 { return Some(Chosen(Message(Response, slot, responses[slot]))); }
      slot := FindOldest(frames, blocked);
      if slot >= 0 { return Some(Chosen(Message(Frame, slot, frames[slot]))); }
      if repoll && retry {
        repoll := false;
        return Some(Again);
      }
      pumping := false;
      return Some(Done);
    }

    /** Lines 355-369; `gone` when the pump must return, `refused` when it must block the link. */
    method PostSend(mine: nat, m: Message, rc: int) returns (gone: bool, refused: bool)
      requires Valid() && m.slot < SlotCount(m.kind)
      modifies this`sent, frames, responses
      ensures Valid() && gone == (mine != lifetime)
      ensures !gone ==> (refused <==> rc != 0 && !(m.Tag().link.Ble? && rc == -116))
      ensures !gone && StillThere(old(Queues()), m) ==> (Queues().Slots(m.kind)[m.slot].tag.used <==> refused)
      ensures Value() == if gone then old(Value()) else PostRegion(old(Value()), m, rc)
    {
      if mine != lifetime { return true, false; }
      var link' := m.Tag().link;
      var staleBle := link'.Ble? && rc == ESTALE;
      var slots := if m.kind.Frame? then frames else responses;
      var tag := slots[m.slot].tag;
      var same := tag.used && tag.ticket == m.Tag().ticket && tag.session == m.Tag().session &&
                  online.Get(link') && sessions.Get(link') == m.Tag().session;
      if (rc == 0 || staleBle) && same {
        slots[m.slot] := Release(slots[m.slot]);
        if m.kind.Frame? && rc == 0 { sent := sent + 1; }
      }
      return false, rc != 0 && !staleBle;
    }

    function SlotCount(kind: Kind): nat { if kind.Frame? then frames.Length else responses.Length }

    /** Lines 375-381: the final drain check. */
    method FinishPump() returns (claimed: Option<(nat, Callback)>, reconcile: bool)
      requires Valid()
      modifies this
      ensures Valid() && Value() == FinalRegion(old(Value()))
      ensures claimed.Some? <==> DrainClaims(old(Value()))
      ensures claimed.Some? ==> claimed.value.0 == old(drainId) && Some(claimed.value.1) == old(drainCb)
      ensures reconcile == ReconcileNeeded(Value())
    {
      claimed := None;
      var noResponses := IsEmpty(responses);
      var noFrames := IsEmpty(frames);
      if drainCb.Some? && noResponses && noFrames {
        claimed := Some((drainId, drainCb.value));
        ClearDrain();
      }
      reconcile := NeedsReconcile();
    }

    // ---- Registrations and timers --------------------------------------------------------

    method NeedsReconcile() returns (needed: bool)
      ensures needed == ReconcileNeeded(Value())
    {
      return !timerBusy && (timerId != 0 || (drainId != 0 && drainTimeout != 0));
    }

    method Arm(cb: Option<Callback>, timeout: nat) returns (r: Result<(nat, bool), int>, reconcile: bool)
      requires Valid()
      modifies this
      ensures Valid() && (cb.None? ==> r == Err(EINVAL) && Value() == old(Value()))
      ensures cb.Some? ==> (Value(), r) == ArmRegion(old(Value()), cb.value, timeout)
      ensures cb.Some? && old(drainId) != 0 ==> r == Err(-16)
      ensures r.Ok? ==> r.value.0 == old(drainCounter) + 1 == drainCounter && (r.value.1 <==> Drained(Queues()))
      ensures r.Ok? && !r.value.1 ==> drainId == r.value.0 && drainCb == cb && drainTimeout == timeout
      ensures r.Ok? ==> reconcile == ReconcileNeeded(Value())
    {
      reconcile := false;
      if cb.None? { r := Err(EINVAL); return; }
      if drainId != 0 { r := Err(EBUSY); return; }
      var noResponses := IsEmpty(responses);
      var noFrames := IsEmpty(frames);
      var drained := noResponses && noFrames;
      if !drained && timeout != 0 && timerProvider.None? { r := Err(ENOTSUP); return; }
      if drainCounter == UINT64_MAX { r := Err(EOVERFLOW); return; }
      drainCounter := drainCounter + 1;
      var id := drainCounter;
      if !drained {
        drainId, drainCb, drainTimeout := id, cb, timeout;
      }
      reconcile := NeedsReconcile();
      r := Ok((id, drained));
    }

    method OnDrainTimeout(id: nat) returns (claimed: Option<Callback>)
      modifies this
      ensures Value() == TimeoutRegion(old(Value()), id)
      ensures if id != 0 && old(drainId) == id && old(timerId) == id then
                claimed == old(drainCb) && drainId == 0 && drainCb == None && drainTimeout == 0 && timerId == 0
              else claimed == None && Value() == old(Value())
    {
      claimed := None;
      if id != 0 && drainId == id && timerId == id {
        claimed := drainCb;
        timerId := 0;
        ClearDrain();
      }
    }

    method ClearRegistration(id: nat) returns (cancelled: bool, reconcile: bool)
      modifies this
      ensures (Value(), cancelled) == ClearRegion(old(Value()), id)
      ensures cancelled <==> id != 0 && old(drainId) == id
      ensures if cancelled then drainId == 0 && drainCb == None && drainTimeout == 0 && timerId == old(timerId)
              else Value() == old(Value())
      ensures reconcile == ReconcileNeeded(Value())
    {
      cancelled := id != 0 && drainId == id;
      if cancelled { ClearDrain(); }
      reconcile := NeedsReconcile();
    }

    /** Lines 52-79. */
    method ReconcileOnce() returns (next: Reconciler)
      requires drainTimeout != 0 ==> timerProvider.Some?
      modifies this`timerId, this`timerBusy, this`timerInstalled
      ensures (Value(), next) == ReconcileTop(old(Value()))
    {
      var desired := if drainTimeout != 0 then drainId else 0;
      if timerId == desired {
        timerBusy := false;
        return Idle;
      }
      timerBusy := true;
      if timerId != 0 {
        var id := timerId;
        timerId := 0;
        return Cancelling(id);
      }
      timerId := desired;
      timerInstalled := timerProvider.value;
      return Starting(desired);
    }

    /** Lines 81-93. */
    method StartReturned(id: nat, rc: int) returns (failed: Option<Callback>)
      modifies this
      ensures Value() == StartReturnRegion(old(Value()), id, rc)
      ensures failed == if StartFailureClaims(old(Value()), id, rc) then old(drainCb) else None
    {
      failed := None;
      if rc < 0 {
        if timerId == id { timerId := 0; }
        if drainId == id {
          failed := drainCb;
          ClearDrain();
        }
      }
    }

    method SetTimerOps(start: Option<nat>, cancel: Option<nat>) returns (rc: int)
      modifies this`timerProvider
      ensures start.None? != cancel.None? ==> rc == EINVAL && Value() == old(Value())
      ensures start.None? == cancel.None? ==> (Value(), rc) == SetOpsRegion(old(Value()), start)
      ensures start.None? == cancel.None? ==>
        if old(drainId) != 0 || old(timerId) != 0 || old(timerBusy) then rc == -16 && Value() == old(Value())
        else rc == 0 && timerProvider == start
    {
      if start.None? != cancel.None? { return EINVAL; }
      if drainId != 0 || timerId != 0 || timerBusy { return EBUSY; }
      timerProvider := start;
      return 0;
    }
  }

  /** Once found, the first free slot stays the first when more slots are scanned. */
  lemma {:induction false} FirstFreeStable(slots: seq<Slot>, i: nat)
    requires i <= |slots| && (FirstFree(slots, i) >= 0 || i == |slots|)
    ensures FirstFree(slots, |slots|) == FirstFree(slots, i)
    decreases |slots| - i
  {
    if i < |slots| { FirstFreeStable(slots, i + 1); }
  }
}
