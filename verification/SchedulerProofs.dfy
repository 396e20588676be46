/** Once watch_stop returns the watch is in no round and its callback is over, until restarted. */
module SchedulerProofs {
  import opened Basics
  import opened SchedulerModel

  // ---- Slots and rounds -------------------------------------------------------------------

  /** No watch sits in two slots. */
  predicate Single(slots: Slots) {
    forall i, j | 0 <= i < j < |slots| && slots[i].Some? :: slots[i] != slots[j]
  }

  predicate NoRepeats(round: seq<nat>) { forall i, j | 0 <= i < j < |round| :: round[i] != round[j] }

  lemma {:induction false} RemovedExactly(slots: Slots, w: nat, v: nat)
    requires Single(slots)
    ensures Single(Removed(slots, w))
    ensures Registered(Removed(slots, w), v) <==> Registered(slots, v) && v != w
  {
    if slots != [] {
      var rest := slots[1..];
      assert slots == [slots[0]] + rest;
      assert Single(rest) by { assert forall i | 0 <= i < |rest| :: rest[i] == slots[i + 1]; }
      assert slots[0].Some? ==> slots[0] !in rest;
      if slots[0] == Some(w) {
        assert Removed(slots, w) == [None] + rest;
        SingleCons(None, rest);
      } else {
        RemovedExactly(rest, w, v);
        if slots[0].Some? { RemovedExactly(rest, w, slots[0].value); }
        SingleCons(slots[0], Removed(rest, w));
      }
    }
  }

  lemma SingleCons(head: Option<nat>, rest: Slots)
    requires Single(rest) && (head.Some? ==> head !in rest)
    ensures Single([head] + rest)
  {
    var all := [head] + rest;
    forall i, j | 0 <= i < j < |all| && all[i].Some? ensures all[i] != all[j] {
      if i > 0 { assert all[i] == rest[i - 1] && all[j] == rest[j - 1]; } else { assert all[j] == rest[j - 1]; }
    }
  }

  lemma {:induction false} RoundExactly(slots: Slots, watches: Watches, end: nat, w: nat)
    requires end <= |slots| && Single(slots)
    ensures w in RoundOf(slots, watches, end) <==> Active(watches, w) && exists i | 0 <= i < end :: slots[i] == Some(w)
    decreases end
  {
    if end > 0 { RoundExactly(slots, watches, end - 1, w); }
  }

  lemma {:induction false} RoundNoRepeats(slots: Slots, watches: Watches, end: nat)
    requires end <= |slots| && Single(slots)
    ensures NoRepeats(RoundOf(slots, watches, end))
    decreases end
  {
    if end > 0 {
      RoundNoRepeats(slots, watches, end - 1);
      if slots[end - 1].Some? { RoundExactly(slots, watches, end - 1, slots[end - 1].value); }
    }
  }

  lemma FullRound(slots: Slots, watches: Watches)
    requires Single(slots)
    ensures var round := RoundOf(slots, watches, |slots|);
      NoRepeats(round) && forall w :: w in round <==> Active(watches, w) && Registered(slots, w)
  {
    var round := RoundOf(slots, watches, |slots|);
    RoundNoRepeats(slots, watches, |slots|);
    forall w: nat ensures w in round <==> Active(watches, w) && Registered(slots, w) {
      RoundExactly(slots, watches, |slots|, w);
    }
  }

  // ---- The invariant ----------------------------------------------------------------------

  /** The round in progress: its watches are distinct, and registered and known. */
  ghost predicate Rounds(s: State) {
    var round := CurrentRound(s.worker);
    && Single(s.slots)
    && NoRepeats(round)
    && (forall w | w in round :: Registered(s.slots, w) && w in s.watches)
    && (s.worker.Walking? ==> s.worker.next <= |round|)
    && (s.worker.Calling? ==> s.worker.next < |round|)
  }

  /** The two flags say exactly what the worker is doing with the watch. */
  ghost predicate Flags(s: State) {
    forall w | w in s.watches ::
      && (s.watches[w].polling <==> w in CurrentRound(s.worker))
      && (s.watches[w].dispatching <==>
        s.worker.Calling? && s.worker.next < |s.worker.round| && s.worker.round[s.worker.next] == w)
  }

  /** A watch whose stop is under way is inactive. */
  ghost predicate Stopping(s: State) {
    forall t | t in s.stops :: s.stops[t] in s.watches && !s.watches[s.stops[t]].active
  }

  ghost predicate Inv(s: State) { Rounds(s) && Flags(s) && Stopping(s) }

  lemma BuildKeeps(s: State)
    requires Inv(s) && Enabled(s, BuildRound)
    ensures Inv(Apply(s, BuildRound))
  {
    FullRound(s.slots, s.watches);
    hide RoundOf, Single, NoRepeats;
  }

  lemma WorkerKeeps(s: State, step: Step)
    requires Inv(s) && Enabled(s, step)
    requires step.PollReturns? || step.PollFails? || step.Visit? || step.CallbackReturns? || step.EndRound?
      || step.NewWorker?
    ensures Inv(Apply(s, step))
  {
    hide Single, RoundOf, Registered;
  }

  lemma StartKeeps(s: State, w: nat, fd: int)
    requires Inv(s) && Enabled(s, Start(w, fd))
    ensures Inv(Apply(s, Start(w, fd)))
  {
    var i := FreeSlot(s.slots, 0);
    if i < |s.slots| {
      var slots := s.slots[i := Some(w)];
      assert Single(slots);
      forall v: nat | Registered(s.slots, v) ensures Registered(slots, v) {
        var k :| 0 <= k < |s.slots| && s.slots[k] == Some(v);
        assert slots[k] == Some(v);
      }
    }
    hide Single, NoRepeats, Registered;
  }

  lemma StopKeeps(s: State, step: Step)
    requires Inv(s) && Enabled(s, step)
      && (step.StopBegins? || step.StopReturns? || step.RequestStop? || step.ReleaseTable?)
    ensures Inv(Apply(s, step))
  {
    if step.StopReturns? {
      StopReturnKeeps(s, step.thread);
    } else {
      hide Removed;
    }
  }

  lemma StopReturnKeeps(s: State, t: nat)
    requires Inv(s) && Enabled(s, StopReturns(t))
    ensures Inv(Apply(s, StopReturns(t)))
  {
    var w := s.stops[t];
    var slots := Removed(s.slots, w);
    RemovedExactly(s.slots, w, w);
    forall v: nat ensures Registered(slots, v) <==> Registered(s.slots, v) && v != w { RemovedExactly(s.slots, w, v); }
    hide Single, NoRepeats, Registered, Removed;
    assert w !in CurrentRound(s.worker);
  }

  lemma InvStep(s: State, step: Step)
    requires Inv(s) && Enabled(s, step)
    ensures Inv(Apply(s, step))
  {
    hide Inv, Enabled, Apply;
    match step
    case BuildRound => BuildKeeps(s);
    case Start(w, fd) => StartKeeps(s, w, fd);
    case StopBegins(_, _) => StopKeeps(s, step);
    case StopReturns(_) => StopKeeps(s, step);
    case RequestStop => StopKeeps(s, step);
    case ReleaseTable => StopKeeps(s, step);
    case _ => WorkerKeeps(s, step);
  }

  lemma {:induction false} RunInv(states: seq<State>, steps: seq<Step>, n: nat)
    requires Run(states, steps) && n < |states|
    ensures Inv(states[n])
    decreases n
  {
    hide Inv, Enabled, Apply;
    if n == 0 {
      assert Inv(states[0]) by { InitialInv(states[0]); }
    } else {
      RunInv(states, steps, n - 1);
      InvStep(states[n - 1], steps[n - 1]);
    }
  }

  lemma InitialInv(s: State)
    requires Initial(s)
    ensures Inv(s)
  {
  }

  // ---- After a stop -----------------------------------------------------------------------

  /** The descriptor is in no poll round and the callback is not running. */
  ghost predicate Quiet(s: State, w: nat) {
    && w !in CurrentRound(s.worker)
    && !(s.worker.Calling? && s.worker.next < |s.worker.round| && s.worker.round[s.worker.next] == w)
  }

  lemma UnregisteredQuiet(s: State, w: nat)
    requires Inv(s) && !Registered(s.slots, w)
    ensures Quiet(s, w)
  {
  }

  /** Only a start registers a watch, and only a watch of a round is called. */
  lemma StaysAway(s: State, step: Step, w: nat)
    requires Inv(s) && Enabled(s, step) && !Registered(s.slots, w) && !(step.Start? && step.watch == w)
    ensures !Registered(Apply(s, step).slots, w)
    ensures s.calls <= Apply(s, step).calls && w !in Apply(s, step).calls[|s.calls|..]
  {
    UnregisteredQuiet(s, w);
    if step.StopReturns? {
      RemovedExactly(s.slots, s.stops[step.thread], w);
      hide Removed;
    }
    hide Single, RoundOf;
  }

  lemma StopUnregisters(s: State, t: nat)
    requires Inv(s) && Enabled(s, StopReturns(t))
    ensures !Registered(Apply(s, StopReturns(t)).slots, s.stops[t])
  {
    RemovedExactly(s.slots, s.stops[t], s.stops[t]);
    hide Removed;
  }

  /** Once watch_stop has returned in step `i`: in every later state until the watch is started
      again, its descriptor is in no poll round, its callback is not running, and no call of it has
      begun since. */
  lemma {:induction false} StoppedForGood(states: seq<State>, steps: seq<Step>, i: nat, n: nat, w: nat)
    requires Run(states, steps) && i < n < |states|
    requires steps[i].StopReturns? && steps[i].thread in states[i].stops && states[i].stops[steps[i].thread] == w
    requires forall k | i < k < n :: !(steps[k].Start? && steps[k].watch == w)
    ensures !Registered(states[n].slots, w) && Quiet(states[n], w)
    ensures states[i].calls <= states[n].calls && w !in states[n].calls[|states[i].calls|..]
    decreases n
  {
    hide Inv, Apply, Enabled, Quiet, Registered;
    RunInv(states, steps, n);
    RunInv(states, steps, n - 1);
    assert Enabled(states[n - 1], steps[n - 1]) && states[n] == Apply(states[n - 1], steps[n - 1]);
    if n == i + 1 {
      StopUnregisters(states[i], steps[i].thread);
      StopCalls(states[i], steps[i].thread);
    } else {
      StoppedForGood(states, steps, i, n - 1, w);
      StaysAway(states[n - 1], steps[n - 1], w);
      CallsChain(states[i].calls, states[n - 1].calls, states[n].calls, w);
    }
    UnregisteredQuiet(states[n], w);
  }

  lemma StopCalls(s: State, t: nat)
    requires Enabled(s, StopReturns(t))
    ensures Apply(s, StopReturns(t)).calls == s.calls
  {
    hide Removed;
  }

  lemma CallsChain(a: seq<nat>, b: seq<nat>, c: seq<nat>, w: nat)
    requires a <= b <= c && w !in b[|a|..] && w !in c[|b|..]
    ensures a <= c && w !in c[|a|..]
  {
    assert c == b + c[|b|..];
    assert c[|a|..] == b[|a|..] + c[|b|..];
  }

  // ---- A stop does return -----------------------------------------------------------------

  predicate EndsRound(step: Step) { step.EndRound? || step.PollFails? }

  /** A watch being stopped is not taken into a new round, so after the round in progress, if any,
      its flags stay clear and the stop can return. */
  lemma StopWaitsAtMostOneRound(s: State, step: Step, w: nat)
    requires Inv(s) && Enabled(s, step) && BeingStopped(s, w) && w in s.watches
    ensures BeingStopped(Apply(s, step), w) ==>
      && w in Apply(s, step).watches && !Apply(s, step).watches[w].active
      && (w !in CurrentRound(s.worker) ==> w !in CurrentRound(Apply(s, step).worker))
      && (EndsRound(step) ==> w !in CurrentRound(Apply(s, step).worker))
  {
    if step.BuildRound? {
      FullRound(s.slots, s.watches);
    }
    hide Single, RoundOf, Removed, Registered;
  }

  /** Out of the round, nothing holds the stop back. */
  lemma QuietStopReturns(s: State, t: nat)
    requires Inv(s) && t in s.stops
    ensures s.stops[t] !in CurrentRound(s.worker) <==> Enabled(s, StopReturns(t))
  {
    hide Rounds;
    assert Rounds(s);
    assert s.stops[t] in s.watches;
    CallingIsInRound(s, s.stops[t]);
  }

  lemma CallingIsInRound(s: State, w: nat)
    requires Inv(s) && w in s.watches
    ensures s.watches[w].dispatching ==> w in CurrentRound(s.worker)
  {
  }
}
