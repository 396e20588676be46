/** Actuator ownership (apps/btsensor/btsensor_modern_backend.c) and pending Classic motor runs
    (apps/btsensor/btsensor_classic.c): the data and the locked regions, as functions. */
module MotorModel {
  import opened Basics

  const PORTS: nat := 6
  const POLL_MS: nat := 20
  const NO_PROGRESS_MS: nat := 1000
  const TIMED_MAX_MS: nat := 60000
  const UINT32_MAX: nat := 0xFFFF_FFFF

  // ---- Ownership -------------------------------------------------------------------------

  /** Which link last commanded each port, under which token, and each link's generation. */
  datatype Backend = Backend(classic: seq<bool>, ble: seq<bool>, token: seq<nat>,
                             classicGeneration: nat, bleGeneration: nat, nextToken: nat)
  {
    predicate Sized() { |classic| == PORTS && |ble| == PORTS && |token| == PORTS }

    function Row(link: Link): seq<bool> { if link.Classic? then classic else ble }

    function Generation(link: Link): nat { if link.Classic? then classicGeneration else bleGeneration }

    predicate Held(link: Link, port: nat, t: nat)
      requires Sized() && port < PORTS
    {
      Row(link)[port] && token[port] == t
    }
  }

  /** Lines 408-426; the 32-bit token counter is taken not to wrap. */
  function SetOwner(b: Backend, link: Link, port: nat, running: bool): (r: Backend)
    requires b.Sized() && port < PORTS
    ensures r.Sized()
  {
    b.(classic := b.classic[port := running && link.Classic?],
       ble := b.ble[port := running && link.Ble?],
       token := b.token[port := if running then b.nextToken + 1 else 0],
       nextToken := if running then b.nextToken + 1 else b.nextToken)
  }

  datatype EndResult = EndResult(backend: Backend, rc: int, actuated: bool)

  /** Lines 450-486. `rc` is what the motor operation answers and `coasted` whether the clean-up
      after an attachment loss got as far as coasting the port; both only matter to the holder. */
  function EndOwned(b: Backend, link: Link, port: nat, token: nat, rc: int, coasted: bool): (r: EndResult)
    requires b.Sized()
    ensures r.backend.Sized()
  {
    if port >= PORTS || token == 0 then EndResult(b, EINVAL, false)
    else if !b.Held(link, port, token) then EndResult(b, ESTALE, false)
    else if rc == 0 || ((rc == ENODEV || rc == EAGAIN) && coasted) then
      EndResult(SetOwner(b, link, port, false), rc, true)
    else EndResult(b, rc, true)
  }

  function Cleared(tokens: seq<nat>, stopped: seq<bool>): (r: seq<nat>)
    requires |tokens| == |stopped|
    ensures |r| == |tokens|
    ensures forall p :: 0 <= p < |r| ==> r[p] == if stopped[p] then 0 else tokens[p]
  {
    seq(|tokens|, p requires 0 <= p < |tokens| => if stopped[p] then 0 else tokens[p])
  }

  const NO_PORTS: seq<bool> := [false, false, false, false, false, false]

  /** Lines 488-502. */
  function StopOwned(b: Backend, link: Link): (r: Backend)
    requires b.Sized()
    ensures r.Sized()
  {
    var t := b.(token := Cleared(b.token, b.Row(link)));
    if link.Classic? then t.(classic := NO_PORTS) else t.(ble := NO_PORTS)
  }

  /** When a link report stops the ports the link commands. */
  predicate ReportStops(b: Backend, link: Link, connected: bool, generation: nat) {
    if connected then b.Generation(link) != 0 && b.Generation(link) != generation
    else b.Generation(link) == generation
  }

  /** Lines 504-521. */
  function LinkReport(b: Backend, link: Link, connected: bool, generation: nat): (r: Backend)
    requires b.Sized()
    ensures r.Sized()
  {
    var s := if ReportStops(b, link, connected, generation) then StopOwned(b, link) else b;
    if !connected then s
    else if link.Classic? then s.(classicGeneration := generation) else s.(bleGeneration := generation)
  }

  /** Lines 523-551; the link generations stay. */
  function Shutdown(b: Backend): (r: Backend)
    requires b.Sized()
    ensures r.Sized()
  {
    StopOwned(StopOwned(b, Classic), Ble)
  }

  // ---- Pending runs ----------------------------------------------------------------------

  /** A run whose answer is still to come; `id` is the request's, if it had one. */
  datatype Pending = Pending(
    active: bool, generation: nat, token: nat, id: Option<nat>, endState: nat, deadline: nat,
    degrees: bool, lastPosition: int, target: int, displacement: int, direction: int, expires: nat, progress: nat)

  const IDLE := Pending(false, 0, 0, None, 0, 0, false, 0, 0, 0, 0, 0, 0)
  const NONE_PENDING: seq<Pending> := [IDLE, IDLE, IDLE, IDLE, IDLE, IDLE]

  /** `speed` is the signed speed of the request. */
  datatype Request =
    | Timed(id: Option<nat>, speed: int, time: nat, endState: nat)
    | Degrees(id: Option<nat>, speed: int, angle: int, endState: nat, baseline: int)

  function Driven(r: Request): int {
    if r.Degrees? && r.angle < 0 then -r.speed else r.speed
  }

  /** Lines 509-517 and 556-566: the record of an accepted run. */
  function NewRun(r: Request, now: nat, generation: nat, token: nat): (p: Pending)
    ensures p.active && p.generation == generation && p.token == token
    ensures p.id == r.id && p.degrees == r.Degrees? && p.endState == r.endState
  {
    match r
    case Timed(id, _, time, endState) =>
      IDLE.(active := true, generation := generation, token := token, id := id, endState := endState,
            deadline := now + time)
    case Degrees(id, _, angle, endState, baseline) =>
      Pending(true, generation, token, id, endState, now + POLL_MS, true, baseline,
              if angle < 0 then -angle else angle, 0, if Driven(r) < 0 then -1 else 1, now + TIMED_MAX_MS, now)
  }

  // ---- One look at a pending run ---------------------------------------------------------

  /** The signed 32-bit value congruent to `x`. */
  function Wrap32(x: int): (r: int)
    ensures -0x8000_0000 <= r < 0x8000_0000
    ensures exists k: int :: r == x + k * 0x1_0000_0000
  {
    var m := x % 0x1_0000_0000;
    var r := if m < 0x8000_0000 then m else m - 0x1_0000_0000;
    var q := x / 0x1_0000_0000;
    assert r == x + (if m < 0x8000_0000 then -q else -q - 1) * 0x1_0000_0000;
    r
  }

  /** The unsigned 32-bit difference of two readings. */
  function RawDelta(measured: int, last: int): (r: nat)
    ensures r < 0x1_0000_0000
  {
    (measured - last) % 0x1_0000_0000
  }

  datatype Encoder = Encoder(rc: int, measured: int)

  datatype Look =
    | NotDue
    | Continue(run: Pending)
    | Finish(run: Pending, motion: int)

  /** Lines 594-609: the sample is folded into the record; EAGAIN counts as "unchanged". */
  function Sampled(p: Pending, now: nat, e: Encoder): (Pending, int) {
    var rc := if e.rc == EAGAIN then 0 else e.rc;
    var measured := if e.rc == 0 then e.measured else p.lastPosition;
    if rc != 0 || measured == p.lastPosition then (p, rc)
    else
      var raw := RawDelta(measured, p.lastPosition);
      if raw == 0x8000_0000 then (p, EOVERFLOW)
      else (p.(displacement := p.displacement + (if raw < 0x8000_0000 then raw else raw - 0x1_0000_0000),
               lastPosition := measured, progress := now), 0)
  }

  /** Lines 585-617: `first` and `now` are the region's two readings of the clock. */
  function LookAt(p: Pending, first: nat, now: nat, e: Encoder): Look {
    if !p.active || p.deadline > first then NotDue
    else if !p.degrees then Finish(p, 0)
    else
      var (q, rc) := Sampled(p, now, e);
      var reached := q.displacement * q.direction >= q.target;
      if rc == 0 && !reached && now < p.expires && now - q.progress < NO_PROGRESS_MS then
        Continue(q.(deadline := now + POLL_MS))
      else Finish(q, if rc == 0 && !reached then ETIMEDOUT else rc)
  }

  /** Lines 413-428: the earliest deadline of an active run. */
  function Earliest(runs: seq<Pending>): (r: nat)
    ensures r <= UINT64_MAX
    ensures forall p | p in runs && p.active :: r <= p.deadline
    ensures r < UINT64_MAX ==> exists p | p in runs :: p.active && p.deadline == r
  {
    if runs == [] then UINT64_MAX
    else
      var rest := Earliest(runs[..|runs| - 1]);
      var last := runs[|runs| - 1];
      assert runs == runs[..|runs| - 1] + [last];
      if last.active && last.deadline < rest then last.deadline else rest
  }

  /** The delay handed to the timer, when there is a run to wait for. */
  function Delay(runs: seq<Pending>, now: nat): Option<nat> {
    var earliest := Earliest(runs);
    if earliest == UINT64_MAX then None
    else if earliest <= now then Some(1)
    else if earliest - now > UINT32_MAX then Some(UINT32_MAX)
    else Some(earliest - now)
  }
}
