/** The watch protocol of apps/btsensor/btsensor_scheduler.c: the worker polls and dispatches rounds
    of watches while other threads start and stop them. */
module SchedulerModel {
  import opened Basics

  const MAX_WATCHES: nat := 8

  /** A caller's watch structure; watches are named by numbers, as their addresses would. */
  datatype Watch = Watch(fd: int, active: bool, dispatching: bool, polling: bool)

  type Slots = seq<Option<nat>>
  type Watches = map<nat, Watch>

  // ---- Locked regions ---------------------------------------------------------------------

  predicate Registered(slots: Slots, w: nat) { Some(w) in slots }

  /** The first NULL slot at or after `from`; the table's length when there is none. */
  function FreeSlot(slots: Slots, from: nat): (r: nat)
    requires from <= |slots|
    ensures from <= r <= |slots| && (r < |slots| ==> slots[r].None?)
    ensures forall i | from <= i < r :: slots[i].Some?
    decreases |slots| - from
  {
    if from == |slots| || slots[from].None? then from else FreeSlot(slots, from + 1)
  }

  /** Lines 282-310; None is -ENOSPC. */
  function Started(slots: Slots, watches: Watches, w: nat, fd: int): Option<(Slots, Watches)> {
    var i := FreeSlot(slots, 0);
    if i == |slots| then None else Some((slots[i := Some(w)], watches[w := Watch(fd, true, false, false)]))
  }

  /** Lines 327-334: only the first slot that holds the watch is cleared. */
  function Removed(slots: Slots, w: nat): (r: Slots)
    ensures |r| == |slots|
  {
    if slots == [] then [] else if slots[0] == Some(w) then [None] + slots[1..] else [slots[0]] + Removed(slots[1..], w)
  }

  predicate Active(watches: Watches, w: nat) { w in watches && watches[w].active }

  /** Lines 82-94: the active watches, in slot order. */
  function RoundOf(slots: Slots, watches: Watches, end: nat): seq<nat>
    requires end <= |slots|
  {
    if end == 0 then []
    else
      RoundOf(slots, watches, end - 1)
      + if slots[end - 1].Some? && Active(watches, slots[end - 1].value) then [slots[end - 1].value] else []
  }

  /** Marks every watch of the round as being polled, or no longer. */
  function Marked(watches: Watches, round: seq<nat>, polling: bool): Watches {
    map w | w in watches :: if w in round then watches[w].(polling := polling) else watches[w]
  }

  // ---- The system -------------------------------------------------------------------------

  /** Where the worker is in its loop; `next` is the round entry it comes to next. */
  datatype Worker =
    | Top
    | InPoll(round: seq<nat>)
    | Walking(round: seq<nat>, next: nat)
    | Calling(round: seq<nat>, next: nat)
    | Exited

  /** `stops` holds the threads inside watch_stop and the watch each waits for; `calls` is the
      history of callbacks begun. */
  datatype State = State(slots: Slots, watches: Watches, worker: Worker, stopping: bool, stops: map<nat, nat>,
                         calls: seq<nat>)

  datatype Step =
    // The worker
    | BuildRound
    | PollReturns
    | PollFails
    | Visit(readable: bool)
    | CallbackReturns
    | EndRound
    // Other threads
    | Start(watch: nat, fd: int)
    | StopBegins(thread: nat, watch: nat)
    | StopReturns(thread: nat)
    | RequestStop
    | ReleaseTable
    | NewWorker

  function CurrentRound(worker: Worker): seq<nat> {
    if worker.InPoll? || worker.Walking? || worker.Calling? then worker.round else []
  }

  /** Inside watch_stop for this watch. */
  predicate BeingStopped(s: State, w: nat) { exists t :: t in s.stops && s.stops[t] == w }

  /** A watch is started again only after its stop has returned; stops run off the worker. */
  ghost predicate Enabled(s: State, step: Step) {
    match step
    case BuildRound => s.worker.Top?
    case PollReturns => s.worker.InPoll?
    case PollFails => s.worker.InPoll?
    case Visit(_) => s.worker.Walking? && s.worker.next < |s.worker.round|
    case CallbackReturns => s.worker.Calling?
    case EndRound => s.worker.Walking? && s.worker.next == |s.worker.round|
    case Start(w, fd) => fd >= 0 && !Registered(s.slots, w) && !BeingStopped(s, w)
    case StopBegins(t, w) => t !in s.stops && w in s.watches
    case StopReturns(t) =>
      t in s.stops && s.stops[t] in s.watches && !s.watches[s.stops[t]].dispatching && !s.watches[s.stops[t]].polling
    case RequestStop => true
    case ReleaseTable => s.worker.Exited?
    case NewWorker => s.worker.Exited?
  }

  function SetActive(watches: Watches, w: nat, active: bool): Watches {
    if w in watches then watches[w := watches[w].(active := active)] else watches
  }

  function SetDispatching(watches: Watches, w: nat, dispatching: bool): Watches {
    if w in watches then watches[w := watches[w].(dispatching := dispatching)] else watches
  }

  ghost function Apply(s: State, step: Step): State
    requires Enabled(s, step)
  {
    match step
    case BuildRound =>
      if s.stopping then s.(worker := Exited)
      else
        var round := RoundOf(s.slots, s.watches, |s.slots|);
        s.(worker := InPoll(round), watches := Marked(s.watches, round, true))
    case PollReturns => s.(worker := Walking(s.worker.round, 0))
    case PollFails => s.(worker := Exited, watches := Marked(s.watches, s.worker.round, false))
    case Visit(readable) =>
      var w := s.worker.round[s.worker.next];
      if readable && Active(s.watches, w) then
        s.(worker := Calling(s.worker.round, s.worker.next), watches := SetDispatching(s.watches, w, true),
           calls := s.calls + [w])
      else s.(worker := Walking(s.worker.round, s.worker.next + 1))
    case CallbackReturns =>
      if s.worker.next < |s.worker.round| then
        s.(worker := Walking(s.worker.round, s.worker.next + 1),
           watches := SetDispatching(s.watches, s.worker.round[s.worker.next], false))
      else s
    case EndRound => s.(worker := Top, watches := Marked(s.watches, s.worker.round, false))
    case Start(w, fd) =>
      (match Started(s.slots, s.watches, w, fd)
       case None => s
       case Some(r) => s.(slots := r.0, watches := r.1))
    case StopBegins(t, w) => s.(watches := SetActive(s.watches, w, false), stops := s.stops[t := w])
    case StopReturns(t) => s.(slots := Removed(s.slots, s.stops[t]), stops := s.stops - {t})
    case RequestStop => s.(stopping := true)
    case ReleaseTable => s.(slots := seq(|s.slots|, _ => None))
    case NewWorker => s.(worker := Top, stopping := false)
  }

  predicate Initial(s: State) {
    && |s.slots| == MAX_WATCHES && (forall i | 0 <= i < |s.slots| :: s.slots[i].None?)
    && s.watches == map[] && s.worker == Top && s.stops == map[] && s.calls == []
  }

  ghost predicate Run(states: seq<State>, steps: seq<Step>) {
    && |states| == |steps| + 1
    && Initial(states[0])
    && forall n | 0 <= n < |steps| :: Enabled(states[n], steps[n]) && states[n + 1] == Apply(states[n], steps[n])
  }
}
