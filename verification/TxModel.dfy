/** The transmit arbiter of apps/btsensor/btsensor_tx.c: its data and, as functions on values,
    the effect of each region of code that runs under the arbiter's lock. */
module TxModel {
  import opened Basics
  import opened Octets

  const UINT32_RANGE: nat := 0x1_0000_0000
  const RESP_DEPTH: nat := 4
  const FRAME_MAX_SIZE: nat := 1408
  const RESPONSE_MAX_LEN: nat := 256

  datatype PerLink<T> = PerLink(classic: T, ble: T) {
    function Get(link: Link): T { if link.Classic? then classic else ble }
    function Set(link: Link, value: T): PerLink<T> {
      if link.Classic? then this.(classic := value) else this.(ble := value)
    }
  }

  const NO_LINKS := PerLink(false, false)

  datatype Tag = Tag(ticket: nat, identity: nat, session: nat, link: Link, used: bool)
  datatype Slot = Slot(payload: Bytes, tag: Tag)
  const FREE_SLOT := Slot([], Tag(0, 0, 0, Classic, false))

  datatype Kind = Response | Frame

  /** The two queues and what admission reads: link state and the ticket counter. */
  datatype Queues = Queues(frames: seq<Slot>, responses: seq<Slot>,
                           online: PerLink<bool>, sessions: PerLink<nat>, ticket: nat) {
    function Slots(kind: Kind): seq<Slot> { if kind.Frame? then frames else responses }
    function WithSlots(kind: Kind, slots: seq<Slot>): Queues {
      if kind.Frame? then this.(frames := slots) else this.(responses := slots)
    }
  }

  datatype Callback = Callback(code: nat, context: nat)

  /** The single drain registration; `id == 0` means that none is armed. */
  datatype Drain = Drain(id: nat, cb: Option<Callback>, timeout: nat, counter: nat)

  /** The timer back end: `id` is the installed timer, `busy` the reconciler's ownership flag. */
  datatype Timer = Timer(id: nat, busy: bool, provider: Option<nat>, installed: nat)

  datatype Core = Core(q: Queues, link: Link, selected: bool, pumping: bool, repoll: bool,
                       lifetime: nat, sent: nat, droppedOldest: nat, drain: Drain, timer: Timer)

  // ---- Slot arrays -----------------------------------------------------------------------

  function Count(slots: seq<Slot>): nat {
    if slots == [] then 0 else Count(slots[..|slots| - 1]) + if slots[|slots| - 1].tag.used then 1 else 0
  }

  predicate Empty(slots: seq<Slot>) { forall i :: 0 <= i < |slots| ==> !slots[i].tag.used }

  predicate Holds(slots: seq<Slot>, link: Link) {
    exists i :: 0 <= i < |slots| && slots[i].tag.used && slots[i].tag.link == link
  }

  function Release(slot: Slot): Slot { slot.(tag := slot.tag.(used := false)) }

  function Discard(slots: seq<Slot>, link: Link): (r: seq<Slot>)
    ensures |r| == |slots|
    ensures forall i :: 0 <= i < |slots| ==>
      r[i] == if slots[i].tag.link == link then Release(slots[i]) else slots[i]
  {
    seq(|slots|, i requires 0 <= i < |slots| =>
      if slots[i].tag.link == link then Release(slots[i]) else slots[i])
  }

  function ReleaseAll(slots: seq<Slot>): (r: seq<Slot>)
    ensures |r| == |slots|
    ensures forall i :: 0 <= i < |slots| ==> r[i] == Release(slots[i])
  {
    seq(|slots|, i requires 0 <= i < |slots| => Release(slots[i]))
  }

  function FreeSlots(n: nat): (r: seq<Slot>)
    ensures |r| == n && Empty(r)
    ensures forall i :: 0 <= i < n ==> r[i] == FREE_SLOT
  {
    seq(n, i => FREE_SLOT)
  }

  /** What the pump's scan may pick: the strict comparison against the largest ticket in the
      source never selects that last ticket. */
  predicate Eligible(slot: Slot, blocked: PerLink<bool>) {
    slot.tag.used && !blocked.Get(slot.tag.link) && slot.tag.ticket < UINT64_MAX
  }

  /** The index the scan of the first `n` slots ends with, -1 when nothing is eligible. */
  function Oldest(slots: seq<Slot>, n: nat, blocked: PerLink<bool>): (r: int)
    requires n <= |slots|
    ensures -1 <= r < n
    ensures r == -1 ==> forall i :: 0 <= i < n ==> !Eligible(slots[i], blocked)
    ensures r >= 0 ==> Eligible(slots[r], blocked)
    ensures r >= 0 ==>
      forall i :: 0 <= i < n && Eligible(slots[i], blocked) ==> slots[r].tag.ticket <= slots[i].tag.ticket
  {
    if n == 0 then -1
    else
      var r := Oldest(slots, n - 1, blocked);
      if Eligible(slots[n - 1], blocked) && (r < 0 || slots[n - 1].tag.ticket < slots[r].tag.ticket) then n - 1 else r
  }

  /** The first free slot among the first `n`, or -1. */
  function FirstFree(slots: seq<Slot>, n: nat): (r: int)
    requires n <= |slots|
    ensures -1 <= r < n
    ensures r >= 0 ==> !slots[r].tag.used
    ensures r == -1 ==> forall i :: 0 <= i < n ==> slots[i].tag.used
  {
    if n == 0 then -1
    else
      var r := FirstFree(slots, n - 1);
      if r < 0 && !slots[n - 1].tag.used then n - 1 else r
  }

  /** The last free slot among the first `n`, or -1. */
  function LastFree(slots: seq<Slot>, n: nat): (r: int)
    requires n <= |slots|
    ensures -1 <= r < n
    ensures r >= 0 ==> !slots[r].tag.used
    ensures r == -1 ==> forall i :: 0 <= i < n ==> slots[i].tag.used
  {
    if n == 0 then -1 else if !slots[n - 1].tag.used then n - 1 else LastFree(slots, n - 1)
  }

  // ---- Well-formed queues ----------------------------------------------------------------

  /** Slot `i` of queue `kind` holds a message. */
  predicate Entry(q: Queues, kind: Kind, i: int) {
    0 <= i < |q.Slots(kind)| && q.Slots(kind)[i].tag.used
  }

  function TagAt(q: Queues, kind: Kind, i: int): Tag
    requires Entry(q, kind, i)
  {
    q.Slots(kind)[i].tag
  }

  /** Each queue keeps one slot free, tickets are distinct and bounded by the counter, and every
      queued message belongs to the current session of an online link. */
  ghost predicate ValidQueues(q: Queues) {
    && |q.frames| >= 2 && |q.responses| == RESP_DEPTH
    && Count(q.frames) <= |q.frames| - 1 && Count(q.responses) <= RESP_DEPTH - 1
    && q.ticket <= UINT64_MAX
    && (forall kind: Kind, i | Entry(q, kind, i) :: ValidTag(q, TagAt(q, kind, i)))
    && (forall kind: Kind, i, kind': Kind, j | Entry(q, kind, i) && Entry(q, kind', j) ::
          TagAt(q, kind, i).ticket == TagAt(q, kind', j).ticket ==> kind == kind' && i == j)
  }

  predicate ValidTag(q: Queues, tag: Tag) {
    1 <= tag.ticket <= q.ticket && q.online.Get(tag.link) && q.sessions.Get(tag.link) == tag.session
  }

  predicate Drained(q: Queues) { Empty(q.responses) && Empty(q.frames) }

  // ---- Locked regions --------------------------------------------------------------------

  function ClearDrain(d: Drain): Drain { d.(id := 0, cb := None, timeout := 0) }

  /** Lines 107-113: whether the caller must still run the reconciler after unlocking. */
  predicate ReconcileNeeded(c: Core) {
    !c.timer.busy && (c.timer.id != 0 || (c.drain.id != 0 && c.drain.timeout != 0))
  }

  function DiscardLink(c: Core, link: Link): Core {
    var hit := Holds(c.q.frames, link) || Holds(c.q.responses, link);
    c.(q := c.q.(frames := Discard(c.q.frames, link), responses := Discard(c.q.responses, link)),
       drain := if hit then ClearDrain(c.drain) else c.drain)
  }

  function InitRegion(c: Core): Core {
    c.(q := c.q.(frames := FreeSlots(|c.q.frames|), responses := FreeSlots(|c.q.responses|), online := NO_LINKS),
       link := Classic, selected := false, pumping := false, lifetime := c.lifetime + 1,
       sent := 0, droppedOldest := 0, drain := ClearDrain(c.drain))
  }

  function DeinitRegion(c: Core): Core {
    c.(q := c.q.(frames := ReleaseAll(c.q.frames), responses := ReleaseAll(c.q.responses), online := NO_LINKS),
       selected := false, lifetime := c.lifetime + 1, drain := ClearDrain(c.drain))
  }

  function LinkStateRegion(c: Core, link: Link, connected: bool, generation: nat): Core {
    var stale := !connected || !c.q.online.Get(link) || c.q.sessions.Get(link) != generation;
    var d := if stale then DiscardLink(c, link) else c;
    d.(q := d.q.(sessions := d.q.sessions.Set(link, generation), online := d.q.online.Set(link, connected)),
       selected := if !connected && c.selected && c.link == link then false else c.selected)
  }

  function SetLinkRegion(c: Core, link: Link, selected: bool): Core {
    if selected then
      c.(link := link, selected := true, q := c.q.(online := c.q.online.Set(link, true)))
    else
      var d := DiscardLink(c, link);
      d.(q := d.q.(online := d.q.online.Set(link, false),
                   sessions := d.q.sessions.Set(link, (d.q.sessions.Get(link) + 1) % UINT32_RANGE)),
         selected := if c.selected && c.link == link then false else c.selected)
  }

  /** What the BLE host answers when asked for the identity of the current connection. */
  datatype Capture = Capture(rc: int, identity: nat)

  function Admission(q: Queues, link: Link, capture: Capture): Result<Tag, int> {
    if !q.online.Get(link) then Err(ENOTCONN)
    else if q.ticket == UINT64_MAX then Err(EOVERFLOW)
    else if link.Ble? && capture.rc != 0 then Err(capture.rc)
    else Ok(Tag(q.ticket + 1, if link.Ble? then capture.identity else 0, q.sessions.Get(link), link, true))
  }

  /** Lines 230-241. */
  function ResponseRegion(q: Queues, link: Link, line: Bytes, capture: Capture): (Queues, int)
  {
    if Count(q.responses) == RESP_DEPTH - 1 then (q, ENOSPC)
    else match Admission(q, link, capture)
      case Err(rc) => (q, rc)
      case Ok(tag) =>
        var slot := LastFree(q.responses, |q.responses|);
        if slot < 0 then (q, ENOSPC)
        else (q.(responses := q.responses[slot := Slot(line, tag)], ticket := tag.ticket), 0)
  }

  /** The slot the new frame goes to: the oldest frame's when the ring is full. */
  function FrameTarget(frames: seq<Slot>): (slot: int)
    ensures -1 <= slot < |frames|
  {
    if Count(frames) == |frames| - 1 then Oldest(frames, |frames|, NO_LINKS) else FirstFree(frames, |frames|)
  }

  /** Lines 260-279. */
  function FrameRegion(q: Queues, link: Link, buf: Bytes, capture: Capture): (Queues, int)
  {
    match Admission(q, link, capture)
    case Err(rc) => (q, rc)
    case Ok(tag) =>
      var slot := FrameTarget(q.frames);
      if slot < 0 then (q, ENOSPC)
      else (q.(frames := q.frames[slot := Slot(buf, tag)], ticket := tag.ticket),
            if Count(q.frames) == |q.frames| - 1 then ENOSPC else 0)
  }

  // ---- The pump --------------------------------------------------------------------------

  datatype Message = Message(kind: Kind, slot: nat, slotCopy: Slot) {
    function Tag(): Tag { slotCopy.tag }
  }

  datatype Stage = Picking | Sending(msg: Message) | Sent(msg: Message, rc: int) | Finishing

  datatype Attempt = NotTried | Delivered | Stale | Refused

  /** The pump's local variables, and (last three fields) what a pump has done so far. */
  datatype Pump = Pump(lifetime: nat, blocked: PerLink<bool>, retry: bool, stage: Stage,
                       attempts: nat, last: PerLink<Attempt>, allowance: int)

  /** Lines 298-303: the new state, and whether the caller becomes the pump. */
  function EnterRegion(c: Core): (Core, bool) {
    if c.pumping then (c.(repoll := true), false) else (c.(pumping := true, repoll := false), true)
  }

  predicate InLoop(p: Pump) { !p.stage.Finishing? }

  function SendOutcome(link: Link, rc: int): Attempt {
    if rc == 0 then Delivered else if link.Ble? && rc == ESTALE then Stale else Refused
  }

  datatype PickResult = Chosen(msg: Message) | Again | Done

  /** Lines 309-349 once the lifetime has been found current. */
  function Pick(c: Core, p: Pump): (r: PickResult)
    ensures r.Chosen? ==>
      var m := r.msg;
      && m.slot < |c.q.Slots(m.kind)| && m.slotCopy == c.q.Slots(m.kind)[m.slot]
      && Eligible(m.slotCopy, p.blocked)
      && (forall i | 0 <= i < |c.q.Slots(m.kind)| && Eligible(c.q.Slots(m.kind)[i], p.blocked) ::
            m.slotCopy.tag.ticket <= c.q.Slots(m.kind)[i].tag.ticket)
      && (m.kind.Frame? ==> forall i | 0 <= i < |c.q.responses| :: !Eligible(c.q.responses[i], p.blocked))
    ensures !r.Chosen? ==> forall kind: Kind, i | Entry(c.q, kind, i) :: !Eligible(c.q.Slots(kind)[i], p.blocked)
    ensures r.Again? <==> !r.Chosen? && c.repoll && p.retry
  {
    var i := Oldest(c.q.responses, |c.q.responses|, p.blocked);
    if i >= 0 then Chosen(Message(Response, i, c.q.responses[i]))
    else
      var j := Oldest(c.q.frames, |c.q.frames|, p.blocked);
      if j >= 0 then Chosen(Message(Frame, j, c.q.frames[j]))
      else if c.repoll && p.retry then Again else Done
  }

  /** Lines 357-360: the slot still holds the very message that was sent. */
  predicate StillThere(q: Queues, m: Message) {
    && m.slot < |q.Slots(m.kind)|
    && var tag := q.Slots(m.kind)[m.slot].tag;
       tag.used && tag.ticket == m.Tag().ticket && tag.session == m.Tag().session
       && q.online.Get(m.Tag().link) && q.sessions.Get(m.Tag().link) == m.Tag().session
  }

  /** Lines 355-368 once the lifetime has been found current. */
  function PostRegion(c: Core, m: Message, rc: int): Core {
    var outcome := SendOutcome(m.Tag().link, rc);
    if !outcome.Refused? && StillThere(c.q, m) then
      c.(q := c.q.WithSlots(m.kind, c.q.Slots(m.kind)[m.slot := Release(c.q.Slots(m.kind)[m.slot])]),
         sent := if m.kind.Frame? && rc == 0 then c.sent + 1 else c.sent)
    else c
  }

  // ---- Drain registrations and the timer reconciler ----------------------------------------

  /** Lines 411-424; the id is the result, and whether the callback runs at once. */
  function ArmRegion(c: Core, cb: Callback, timeout: nat): (Core, Result<(nat, bool), int>) {
    if c.drain.id != 0 then (c, Err(EBUSY))
    else
      var drained := Drained(c.q);
      if !drained && timeout != 0 && c.timer.provider.None? then (c, Err(ENOTSUP))
      else if c.drain.counter == UINT64_MAX then (c, Err(EOVERFLOW))
      else
        var id := c.drain.counter + 1;
        (c.(drain := if drained then c.drain.(counter := id) else Drain(id, Some(cb), timeout, id)),
         Ok((id, drained)))
  }

  predicate TimeoutClaims(c: Core, id: nat) { id != 0 && c.drain.id == id && c.timer.id == id }

  function TimeoutRegion(c: Core, id: nat): Core {
    if TimeoutClaims(c, id) then c.(timer := c.timer.(id := 0), drain := ClearDrain(c.drain)) else c
  }

  /** Lines 446-453: the new state, and whether the registration was there to cancel. */
  function ClearRegion(c: Core, id: nat): (Core, bool) {
    if id != 0 && c.drain.id == id then (c.(drain := ClearDrain(c.drain)), true) else (c, false)
  }

  predicate DrainClaims(c: Core) { c.drain.cb.Some? && Drained(c.q) }

  function FinalRegion(c: Core): Core {
    if DrainClaims(c) then c.(drain := ClearDrain(c.drain)) else c
  }

  /** Where the reconciler is when it does not hold the lock. */
  datatype Reconciler = Idle | Cancelling(id: nat) | Starting(id: nat) | Reporting(id: nat)

  function Desired(d: Drain): nat { if d.timeout != 0 then d.id else 0 }

  /** Lines 52-79: from the top of the loop to the next unlocked call, or out. */
  function ReconcileTop(c: Core): (Core, Reconciler) {
    var desired := Desired(c.drain);
    if c.timer.id == desired then (c.(timer := c.timer.(busy := false)), Idle)
    else if c.timer.id != 0 then (c.(timer := c.timer.(id := 0, busy := true)), Cancelling(c.timer.id))
    else (c.(timer := c.timer.(id := desired, busy := true,
                               installed := if c.timer.provider.Some? then c.timer.provider.value
                                            else c.timer.installed)),
          Starting(desired))
  }

  predicate StartFailureClaims(c: Core, id: nat, rc: int) { rc < 0 && c.drain.id == id }

  /** Lines 81-93: what the reconciler does when the back end's start call returns. */
  function StartReturnRegion(c: Core, id: nat, rc: int): Core {
    if rc < 0 then
      c.(timer := if c.timer.id == id then c.timer.(id := 0) else c.timer,
         drain := if c.drain.id == id then ClearDrain(c.drain) else c.drain)
    else c
  }

  function SetOpsRegion(c: Core, provider: Option<nat>): (Core, int) {
    if c.drain.id != 0 || c.timer.id != 0 || c.timer.busy then (c, EBUSY)
    else (c.(timer := c.timer.(provider := provider)), 0)
  }
}
