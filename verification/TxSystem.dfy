/** The arbiter as a transition system. Every locked region of the source is one step; the
    transport's send, the timer back end's start and cancel and the application's callbacks run
    between steps and may be interleaved with any other step, on any number of threads. */
module TxSystem {
  import opened Basics
  import opened Octets
  import opened TxModel

  // ---- History ---------------------------------------------------------------------------

  datatype Admitted = Admitted(kind: Kind, link: Link, identity: nat, session: nat, lifetime: nat, payload: Bytes)
  datatype Send = Send(ticket: nat, kind: Kind, link: Link, identity: nat, lifetime: nat, payload: Bytes)
  datatype Outcome = ByDrain | ByTimeout | ByStartFailure | ByCancel | ByDiscard
  datatype Claim = Claim(id: nat, cb: Option<Callback>, outcome: Outcome)
  datatype TimerCall = TimerCall(id: nat, provider: nat)

  /** `pumpCalls` and `reconcileCalls` count the threads that have unlocked and are about to call
      the pump or the reconciler, `reconcilers` holds the threads inside the latter's loop; `up` says
      that the last lifecycle call was an init, and `departed` what the last pump to leave its loop had
      made of its latest attempts. */
  datatype System = System(
    core: Core,
    pumps: map<nat, Pump>,
    nextPump: nat,
    pumpCalls: nat,
    reconcileCalls: nat,
    reconcilers: map<nat, Reconciler>,
    nextReconciler: nat,
    up: bool,
    admitted: map<nat, Admitted>,
    sends: seq<Send>,
    claims: seq<Claim>,
    starts: seq<TimerCall>,
    cancels: seq<TimerCall>,
    framesAdmitted: nat,
    framesDiscarded: nat,
    departed: PerLink<Attempt>)

  datatype Step =
    | Init
    | Deinit
    | LinkState(link: Link, connected: bool, generation: nat)
    | SetLink(link: Link, selected: bool)
    | EnqueueResponse(link: Link, line: Bytes, capture: Capture)
    | EnqueueFrame(link: Link, buf: Bytes, capture: Capture)
    | CallPump
    | EnterPump
    | PickStep(pump: nat)
    | SendStep(pump: nat, rc: int)
    | PostStep(pump: nat)
    | FinishStep(pump: nat)
    | SetOps(provider: Option<nat>)
    | Arm(cb: Callback, timeout: nat)
    | Expire(id: nat)
    | Clear(id: nat)
    | EnterReconcile
    | CancelReturns(thread: nat)
    | StartReturns(thread: nat, rc: int)
    | ReportReturns(thread: nat)

  predicate Initial(s: System) {
    && s.core.q.ticket == 0 && |s.core.q.frames| >= 2 && |s.core.q.responses| == RESP_DEPTH
    && Empty(s.core.q.frames) && Empty(s.core.q.responses)
    && !s.core.pumping && s.core.sent == 0 && s.core.droppedOldest == 0
    && s.core.drain == Drain(0, None, 0, 0)
    && s.core.timer.id == 0 && !s.core.timer.busy
    && s.pumps == map[] && s.pumpCalls == 0 && s.reconcileCalls == 0 && s.reconcilers == map[] && !s.up
    && s.admitted == map[] && s.sends == [] && s.claims == [] && s.starts == [] && s.cancels == []
    && s.framesAdmitted == 0 && s.framesDiscarded == 0
  }

  /** Which steps the threads' program counters, and the source's argument checks, allow. */
  predicate Enabled(s: System, step: Step) {
    match step
    case LinkState(_, _, generation) => generation < UINT32_RANGE
    case EnqueueResponse(_, line, _) => |line| <= RESPONSE_MAX_LEN
    case EnqueueFrame(_, buf, _) => 0 < |buf| <= FRAME_MAX_SIZE
    case EnterPump => s.pumpCalls > 0
    case PickStep(p) => p in s.pumps && s.pumps[p].stage.Picking?
    case SendStep(p, _) => p in s.pumps && s.pumps[p].stage.Sending?
    case PostStep(p) => p in s.pumps && s.pumps[p].stage.Sent?
    case FinishStep(p) => p in s.pumps && s.pumps[p].stage.Finishing?
    case EnterReconcile => s.reconcileCalls > 0
    case CancelReturns(r) => r in s.reconcilers && s.reconcilers[r].Cancelling?
    case StartReturns(r, _) => r in s.reconcilers && s.reconcilers[r].Starting?
    case ReportReturns(r) => r in s.reconcilers && s.reconcilers[r].Reporting?
    case _ => true
  }

  /** Queues, pumps and messages are as they were; only registrations and timers may differ. */
  predicate SameTraffic(s: System, t: System) {
    && t.core.q == s.core.q && t.core.lifetime == s.core.lifetime && t.core.pumping == s.core.pumping
    && t.pumps == s.pumps && t.nextPump == s.nextPump && t.admitted == s.admitted && t.sends == s.sends && t.up == s.up
    && t.departed == s.departed
    && t.core.sent == s.core.sent && t.core.droppedOldest == s.core.droppedOldest
    && t.framesAdmitted == s.framesAdmitted && t.framesDiscarded == s.framesDiscarded
  }

  /** The registration, the timer and its calls are as they were. */
  predicate SameRegistration(s: System, t: System) {
    && t.core.drain == s.core.drain && t.core.timer == s.core.timer && t.claims == s.claims
    && t.reconcilers == s.reconcilers && t.nextReconciler == s.nextReconciler && t.starts == s.starts
    && t.cancels == s.cancels
  }

  /** Pumps and what they have sent are as they were. */
  predicate SamePumps(s: System, t: System) {
    t.pumps == s.pumps && t.nextPump == s.nextPump && t.sends == s.sends && t.departed == s.departed
  }

  /** Timer calls and their threads are as they were. */
  predicate SameCalls(s: System, t: System) {
    && t.reconcilers == s.reconcilers && t.nextReconciler == s.nextReconciler && t.starts == s.starts
    && t.cancels == s.cancels
    && t.core.timer.busy == s.core.timer.busy && t.core.timer.installed == s.core.timer.installed
    && t.core.timer.provider == s.core.timer.provider
  }

  // ---- Effects ---------------------------------------------------------------------------

  /** The end of a registration, with its callback, if one was armed. */
  function Ends(d: Drain, outcome: Outcome): seq<Claim> { if d.id != 0 then [Claim(d.id, d.cb, outcome)] else [] }

  /** The registration that a region takes away. */
  function Claimed(before: Core, after: Core, outcome: Outcome): seq<Claim> {
    if after.drain.id == 0 then Ends(before.drain, outcome) else []
  }

  /** Moves to `after`, and owes a reconcile call exactly when the region's last test asks for one. */
  function ThenReconcile(s: System, after: Core): System {
    s.(core := after, reconcileCalls := s.reconcileCalls + if ReconcileNeeded(after) then 1 else 0)
  }

  function FreshPump(c: Core): Pump {
    Pump(c.lifetime, NO_LINKS, true, Picking, 0, PerLink(NotTried, NotTried),
         Count(c.q.responses) + Count(c.q.frames) + 4 - c.q.ticket)
  }

  /** A message for the BLE link keeps the identity of the connection it was admitted for. */
  function IdentityFor(link: Link, capture: Capture): nat { if link.Ble? then capture.identity else 0 }

  function Recorded(s: System, kind: Kind, link: Link, identity: nat, payload: Bytes): map<nat, Admitted> {
    s.admitted[s.core.q.ticket + 1 :=
      Admitted(kind, link, identity, s.core.q.sessions.Get(link), s.core.lifetime, payload)]
  }

  function EnqueueResponseEffect(s: System, link: Link, line: Bytes, capture: Capture): (t: System)
    ensures SameRegistration(s, t) && SamePumps(s, t) && t.core.lifetime == s.core.lifetime && t.up == s.up
    ensures t.core.pumping == s.core.pumping
    ensures t.pumpCalls >= s.pumpCalls && t.reconcileCalls == s.reconcileCalls
  {
    var (q, rc) := ResponseRegion(s.core.q, link, line, capture);
    if rc != 0 then s
    else s.(core := s.core.(q := q), admitted := Recorded(s, Response, link, IdentityFor(link, capture), line),
            pumpCalls := s.pumpCalls + 1)
  }

  function EnqueueFrameEffect(s: System, link: Link, buf: Bytes, capture: Capture): (t: System)
    ensures SameRegistration(s, t) && SamePumps(s, t) && t.core.lifetime == s.core.lifetime && t.up == s.up
    ensures t.core.pumping == s.core.pumping
    ensures t.pumpCalls >= s.pumpCalls && t.reconcileCalls == s.reconcileCalls
  {
    var (q, rc) := FrameRegion(s.core.q, link, buf, capture);
    if q.ticket == s.core.q.ticket then s
    else s.(core := s.core.(q := q,
                            droppedOldest := s.core.droppedOldest + if rc == ENOSPC then 1 else 0),
            admitted := Recorded(s, Frame, link, IdentityFor(link, capture), buf),
            framesAdmitted := s.framesAdmitted + 1,
            pumpCalls := s.pumpCalls + 1)
  }

  function DiscardEffect(s: System, after: Core): System {
    s.(core := after, claims := s.claims + Claimed(s.core, after, ByDiscard),
       framesDiscarded := s.framesDiscarded + var lost := Count(s.core.q.frames) - Count(after.q.frames);
         if lost >= 0 then lost else 0)
  }

  function EnterPumpEffect(s: System): (t: System)
    requires s.pumpCalls > 0
    ensures SameRegistration(s, t) && t.core.q == s.core.q
  {
    var (after, started) := EnterRegion(s.core);
    var t := s.(pumpCalls := s.pumpCalls - 1, core := after);
    if !started then t else t.(pumps := s.pumps[s.nextPump := FreshPump(s.core)], nextPump := s.nextPump + 1)
  }

  function Without(pumps: map<nat, Pump>, p: nat): map<nat, Pump> { pumps - {p} }

  function PickEffect(s: System, p: nat): (t: System)
    requires p in s.pumps
    ensures SameRegistration(s, t) && t.core.q == s.core.q
  {
    var pump := s.pumps[p];
    if pump.lifetime != s.core.lifetime then s.(pumps := Without(s.pumps, p))
    else match Pick(s.core, pump)
      case Chosen(msg) => s.(pumps := s.pumps[p := pump.(stage := Sending(msg))])
      case Again => s.(core := s.core.(repoll := false),
                       pumps := s.pumps[p := pump.(retry := false, blocked := NO_LINKS)])
      case Done =>
        s.(core := s.core.(pumping := false), pumps := s.pumps[p := pump.(stage := Finishing)], departed := pump.last)
  }

  /** What is handed to the transport. */
  function SendOf(m: Message, lifetime: nat): Send {
    Send(m.Tag().ticket, m.kind, m.Tag().link, m.Tag().identity, lifetime, m.slotCopy.payload)
  }

  /** The transport answers; a message is on the air exactly when the result is 0. */
  function SendEffect(s: System, p: nat, rc: int): (t: System)
    requires p in s.pumps && s.pumps[p].stage.Sending?
    ensures SameRegistration(s, t) && t.core == s.core
  {
    var pump := s.pumps[p];
    var m := pump.stage.msg;
    var tag := m.Tag();
    s.(pumps := s.pumps[p := pump.(stage := Sent(m, rc), attempts := pump.attempts + 1,
                                   last := pump.last.Set(tag.link, SendOutcome(tag.link, rc)))],
       sends := if rc == 0 then s.sends + [SendOf(m, pump.lifetime)] else s.sends)
  }

  function PostEffect(s: System, p: nat): (t: System)
    requires p in s.pumps && s.pumps[p].stage.Sent?
    ensures SameRegistration(s, t)
  {
    var pump := s.pumps[p];
    var m, rc := pump.stage.msg, pump.stage.rc;
    var link := m.Tag().link;
    if pump.lifetime != s.core.lifetime then s.(pumps := Without(s.pumps, p))
    else
      var after := PostRegion(s.core, m, rc);
      var staleFrame := m.kind.Frame? && rc != 0 && after != s.core;
      s.(core := after,
         framesDiscarded := s.framesDiscarded + if staleFrame then 1 else 0,
         pumps := s.pumps[p := pump.(stage := Picking,
           blocked := if SendOutcome(link, rc).Refused? then pump.blocked.Set(link, true) else pump.blocked)])
  }

  function FinishEffect(s: System, p: nat): (t: System)
    requires p in s.pumps
    ensures SameCalls(s, t) && t.core.q == s.core.q && t.core.timer == s.core.timer
  {
    var after := FinalRegion(s.core);
    ThenReconcile(s, after).(pumps := Without(s.pumps, p), claims := s.claims + Claimed(s.core, after, ByDrain))
  }

  function ArmEffect(s: System, cb: Callback, timeout: nat): (t: System)
    ensures SameTraffic(s, t)
  {
    var (after, r) := ArmRegion(s.core, cb, timeout);
    if r.Err? then s
    else ThenReconcile(s, after).(claims := s.claims + if r.value.1 then [Claim(r.value.0, Some(cb), ByDrain)] else [])
  }

  /** Thread `r` runs the reconciler's loop to its next unlocked call, which is logged, or out. */
  function TopEffect(s: System, r: nat): (t: System)
    ensures SameTraffic(s, t)
  {
    var (after, at) := ReconcileTop(s.core);
    s.(core := after,
       reconcilers := if at.Idle? then s.reconcilers - {r} else s.reconcilers[r := at],
       starts := if at.Starting? then s.starts + [TimerCall(at.id, after.timer.installed)] else s.starts,
       cancels := if at.Cancelling? then s.cancels + [TimerCall(at.id, s.core.timer.installed)] else s.cancels)
  }

  function EnterReconcileEffect(s: System): (t: System)
    requires s.reconcileCalls > 0
    ensures SameTraffic(s, t)
  {
    var t := s.(reconcileCalls := s.reconcileCalls - 1);
    if s.core.timer.busy then t
    else TopEffect(t.(nextReconciler := s.nextReconciler + 1), s.nextReconciler)
  }

  function StartReturnsEffect(s: System, r: nat, rc: int): (t: System)
    requires r in s.reconcilers && s.reconcilers[r].Starting?
    ensures SameTraffic(s, t)
  {
    var id := s.reconcilers[r].id;
    var t := s.(core := StartReturnRegion(s.core, id, rc));
    if StartFailureClaims(s.core, id, rc) then
      t.(reconcilers := s.reconcilers[r := Reporting(id)],
         claims := s.claims + [Claim(id, s.core.drain.cb, ByStartFailure)])
    else TopEffect(t, r)
  }

  function InitEffect(s: System): (t: System)
    ensures SamePumps(s, t) && SameCalls(s, t)
  {
    var c := InitRegion(s.core);
    ThenReconcile(s, c).(claims := s.claims + Claimed(s.core, c, ByDiscard), up := true, framesAdmitted := 0,
                         framesDiscarded := 0)
  }

  function DeinitEffect(s: System): (t: System)
    ensures SamePumps(s, t) && SameCalls(s, t)
  {
    var t := DiscardEffect(s, DeinitRegion(s.core)).(up := false);
    ThenReconcile(t, t.core)
  }

  function LinkStateEffect(s: System, link: Link, connected: bool, generation: nat): (t: System)
    ensures SamePumps(s, t) && SameCalls(s, t) && t.up == s.up
  {
    DiscardEffect(s, LinkStateRegion(s.core, link, connected, generation)).(pumpCalls := s.pumpCalls + 1)
  }

  function SetLinkEffect(s: System, link: Link, selected: bool): (t: System)
    ensures SamePumps(s, t) && SameCalls(s, t) && t.up == s.up
  {
    var t := DiscardEffect(s, SetLinkRegion(s.core, link, selected));
    if selected then t.(pumpCalls := s.pumpCalls + 1) else t.(reconcileCalls := s.reconcileCalls + 1)
  }

  function SetOpsEffect(s: System, provider: Option<nat>): (t: System)
    ensures SameTraffic(s, t)
  {
    s.(core := SetOpsRegion(s.core, provider).0)
  }

  function ExpireEffect(s: System, id: nat): (t: System)
    ensures SameTraffic(s, t) && SameCalls(s, t)
  {
    s.(core := TimeoutRegion(s.core, id), claims := s.claims + Claimed(s.core, TimeoutRegion(s.core, id), ByTimeout),
       reconcileCalls := s.reconcileCalls + 1)
  }

  function ClearEffect(s: System, id: nat): (t: System)
    ensures SameTraffic(s, t) && SameCalls(s, t)
  {
    var (after, cancelled) := ClearRegion(s.core, id);
    ThenReconcile(s, after).(claims := s.claims + if cancelled then [Claim(id, s.core.drain.cb, ByCancel)] else [])
  }

  function Apply(s: System, step: Step): System
    requires Enabled(s, step)
  {
    match step
    case Init => InitEffect(s)
    case Deinit => DeinitEffect(s)
    case LinkState(link, connected, generation) => LinkStateEffect(s, link, connected, generation)
    case SetLink(link, selected) => SetLinkEffect(s, link, selected)
    case EnqueueResponse(link, line, capture) => EnqueueResponseEffect(s, link, line, capture)
    case EnqueueFrame(link, buf, capture) => EnqueueFrameEffect(s, link, buf, capture)
    case CallPump => s.(pumpCalls := s.pumpCalls + 1)
    case EnterPump => EnterPumpEffect(s)
    case PickStep(p) => PickEffect(s, p)
    case SendStep(p, rc) => SendEffect(s, p, rc)
    case PostStep(p) => PostEffect(s, p)
    case FinishStep(p) => FinishEffect(s, p)
    case SetOps(provider) => SetOpsEffect(s, provider)
    case Arm(cb, timeout) => ArmEffect(s, cb, timeout)
    case Expire(id) => ExpireEffect(s, id)
    case Clear(id) => ClearEffect(s, id)
    case EnterReconcile => EnterReconcileEffect(s)
    case CancelReturns(r) => TopEffect(s, r)
    case StartReturns(r, rc) => StartReturnsEffect(s, r, rc)
    case ReportReturns(r) => TopEffect(s, r)
  }

  /** A run: every step is enabled where it is taken. */
  ghost predicate Run(states: seq<System>, steps: seq<Step>) {
    && |states| == |steps| + 1
    && Initial(states[0])
    && forall i | 0 <= i < |steps| :: Enabled(states[i], steps[i]) && states[i + 1] == Apply(states[i], steps[i])
  }
}
