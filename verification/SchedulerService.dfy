/** A started watch is served: it is in every round, and its callback runs when it is readable. */
module SchedulerService {
  import opened Basics
  import opened SchedulerModel
  import opened SchedulerProofs

  /** The watch is registered and active, on this descriptor. */
  predicate Serving(s: State, w: nat, fd: int) {
    Registered(s.slots, w) && w in s.watches && s.watches[w].active && s.watches[w].fd == fd
  }

  lemma {:induction false} EightSlots(states: seq<State>, steps: seq<Step>, n: nat)
    requires Run(states, steps) && n < |states|
    ensures |states[n].slots| == 8
    decreases n
  {
    if n > 0 {
      EightSlots(states, steps, n - 1);
      assert Enabled(states[n - 1], steps[n - 1]) && states[n] == Apply(states[n - 1], steps[n - 1]);
      hide Run, RoundOf, Single;
    }
  }

  /** Starting a watch puts it in the table, active, on the caller's descriptor and with both flags
      clear, exactly if the table has a NULL slot; every other watch stays as it was. */
  lemma StartServes(states: seq<State>, steps: seq<Step>, i: nat, w: nat, fd: int)
    requires Run(states, steps) && i < |steps| && steps[i] == Start(w, fd)
    ensures |states[i].slots| == 8
    ensures if exists k | 0 <= k < 8 :: states[i].slots[k].None? then
              && Serving(states[i + 1], w, fd) && !Registered(states[i].slots, w)
              && !states[i + 1].watches[w].polling && !states[i + 1].watches[w].dispatching
              && (forall v | v != w && v in states[i].watches ::
                    v in states[i + 1].watches && states[i + 1].watches[v] == states[i].watches[v])
            else states[i + 1] == states[i]
  {
    var s := states[i];
    EightSlots(states, steps, i);
    assert Enabled(s, steps[i]) && states[i + 1] == Apply(s, steps[i]);
    var k := FreeSlot(s.slots, 0);
    if k < |s.slots| { assert s.slots[k := Some(w)][k] == Some(w); }
    hide Run, FreeSlot;
  }

  lemma ServingStep(s: State, step: Step, w: nat, fd: int)
    requires Inv(s) && Enabled(s, step) && Serving(s, w, fd) && !step.ReleaseTable?
    requires !(step.StopBegins? && step.watch == w)
    ensures Serving(Apply(s, step), w, fd)
  {
    if step.StopReturns? {
      RemovedExactly(s.slots, s.stops[step.thread], w);
    } else if step.Start? {
      var i := FreeSlot(s.slots, 0);
      if i < |s.slots| {
        var k :| 0 <= k < |s.slots| && s.slots[k] == Some(w);
        assert s.slots[i := Some(step.watch)][k] == Some(w);
      }
    }
    hide Removed, FreeSlot, RoundOf, Single, NoRepeats;
  }

  lemma {:induction false} KeepsServing(states: seq<State>, steps: seq<Step>, i: nat, n: nat, w: nat, fd: int)
    requires Run(states, steps) && i < n < |states| && Serving(states[i + 1], w, fd)
    requires forall k | i < k < n :: !steps[k].ReleaseTable? && !(steps[k].StopBegins? && steps[k].watch == w)
    ensures Serving(states[n], w, fd)
    decreases n
  {
    hide Inv, Apply, Enabled, Serving;
    if n > i + 1 {
      KeepsServing(states, steps, i, n - 1, w, fd);
      RunInv(states, steps, n - 1);
      ServingStep(states[n - 1], steps[n - 1], w, fd);
    }
  }

  /** In every run, once a start has found a slot: until its stop begins or the table is released, every
      round that is built while the worker is not asked to stop polls the watch, on its descriptor. */
  lemma ServedInEveryRound(states: seq<State>, steps: seq<Step>, i: nat, n: nat, w: nat, fd: int)
    requires Run(states, steps) && i < n < |steps| && steps[i] == Start(w, fd)
    requires exists k | 0 <= k < |states[i].slots| :: states[i].slots[k].None?
    requires forall k | i < k < n :: !steps[k].ReleaseTable? && !(steps[k].StopBegins? && steps[k].watch == w)
    requires steps[n] == BuildRound && !states[n].stopping
    ensures states[n + 1].worker.InPoll? && w in states[n + 1].worker.round
    ensures w in states[n + 1].watches && states[n + 1].watches[w].polling && states[n + 1].watches[w].fd == fd
  {
    StartServes(states, steps, i, w, fd);
    KeepsServing(states, steps, i, n, w, fd);
    RunInv(states, steps, n);
    assert states[n + 1] == Apply(states[n], steps[n]);
    hide Run;
    FullRound(states[n].slots, states[n].watches);
    hide RoundOf, Single, NoRepeats;
  }

  /** A visit begins the callback of the round's next watch exactly if the watch is readable and still
      active; no other step begins one. */
  lemma CalledExactlyWhenReadable(states: seq<State>, steps: seq<Step>, n: nat)
    requires Run(states, steps) && n < |steps|
    ensures var s := states[n];
      states[n + 1].calls == s.calls +
        if steps[n].Visit? && s.worker.Walking? && s.worker.next < |s.worker.round|
           && steps[n].readable && Active(s.watches, s.worker.round[s.worker.next])
        then [s.worker.round[s.worker.next]] else []
  {
    assert Enabled(states[n], steps[n]) && states[n + 1] == Apply(states[n], steps[n]);
    hide Run, RoundOf, Removed, FreeSlot;
  }

  // ---- A whole round --------------------------------------------------------------------------

  /** The watches visited in steps `from` to `n`, in order. */
  ghost function VisitedSince(states: seq<State>, steps: seq<Step>, from: nat, n: nat): seq<nat>
    requires from <= n <= |steps| && n <= |states|
  {
    if n == from then []
    else
      var w := states[n - 1].worker;
      VisitedSince(states, steps, from, n - 1)
      + if steps[n - 1].Visit? && w.Walking? && w.next < |w.round| then [w.round[w.next]] else []
  }

  predicate InRound(worker: Worker, round: seq<nat>, visited: seq<nat>) {
    && (worker.Walking? || worker.Calling?) && worker.round == round
    && (worker.Walking? ==> worker.next <= |round| && visited == round[..worker.next])
    && (worker.Calling? ==> worker.next < |round| && visited == round[..worker.next + 1])
  }

  lemma RoundGoesOn(s: State, step: Step, round: seq<nat>, visited: seq<nat>)
    requires Inv(s) && Enabled(s, step) && InRound(s.worker, round, visited) && !step.EndRound?
    ensures InRound(Apply(s, step).worker, round,
                    visited + if step.Visit? && s.worker.Walking? && s.worker.next < |s.worker.round|
                                then [s.worker.round[s.worker.next]] else [])
  {
    hide RoundOf, Removed, FreeSlot, Inv;
    assert visited + [] == visited;
    if step.Visit? { assert round[..s.worker.next] + [round[s.worker.next]] == round[..s.worker.next + 1]; }
  }

  lemma {:induction false} VisitedSoFar(states: seq<State>, steps: seq<Step>, i: nat, n: nat)
    requires Run(states, steps) && i < n < |states| && steps[i] == PollReturns
    requires forall k | i < k < n :: !steps[k].EndRound?
    ensures InRound(states[n].worker, CurrentRound(states[i].worker), VisitedSince(states, steps, i + 1, n))
    decreases n
  {
    hide Run, Inv, Apply, Enabled, InRound, CurrentRound;
    StepTaken(states, steps, n - 1);
    if n == i + 1 {
      RoundBegins(states, steps, i);
    } else {
      var round, visited := CurrentRound(states[i].worker), VisitedSince(states, steps, i + 1, n - 1);
      VisitedSoFar(states, steps, i, n - 1);
      RunInv(states, steps, n - 1);
      RoundGoesOn(states[n - 1], steps[n - 1], round, visited);
    }
  }

  lemma StepTaken(states: seq<State>, steps: seq<Step>, n: nat)
    requires Run(states, steps) && n + 1 < |states|
    ensures n < |steps| && Enabled(states[n], steps[n]) && states[n + 1] == Apply(states[n], steps[n])
  {
    hide Enabled, Apply;
  }

  lemma RoundBegins(states: seq<State>, steps: seq<Step>, i: nat)
    requires Run(states, steps) && i < |steps| && i + 1 < |states| && steps[i] == PollReturns
    ensures InRound(states[i + 1].worker, CurrentRound(states[i].worker), VisitedSince(states, steps, i + 1, i + 1))
  {
    assert Enabled(states[i], steps[i]) && states[i + 1] == Apply(states[i], steps[i]);
    hide Run;
  }

  /** Between a poll's return and the end of its round each watch of the round is visited exactly once,
      in the order of the table. */
  lemma RoundVisitedInOrder(states: seq<State>, steps: seq<Step>, i: nat, n: nat)
    requires Run(states, steps) && i < n < |steps| && steps[i] == PollReturns && steps[n] == EndRound
    requires forall k | i < k < n :: !steps[k].EndRound?
    ensures VisitedSince(states, steps, i + 1, n) == CurrentRound(states[i].worker)
  {
    VisitedSoFar(states, steps, i, n);
    assert Enabled(states[n], steps[n]);
  }

  // ---- Stopping the worker --------------------------------------------------------------------

  /** A stop request stands until a new worker is started, which clears it. */
  predicate StopStands(steps: seq<Step>, initially: bool) {
    if steps == [] then initially
    else if steps[|steps| - 1].RequestStop? then true
    else if steps[|steps| - 1].NewWorker? then false
    else StopStands(steps[..|steps| - 1], initially)
  }

  lemma {:induction false} StopStandsExactly(states: seq<State>, steps: seq<Step>, n: nat)
    requires Run(states, steps) && n < |states|
    ensures states[n].stopping <==> StopStands(steps[..n], states[0].stopping)
    decreases n
  {
    if n > 0 {
      StopStandsExactly(states, steps, n - 1);
      assert steps[..n][..n - 1] == steps[..n - 1];
      assert Enabled(states[n - 1], steps[n - 1]) && states[n] == Apply(states[n - 1], steps[n - 1]);
      hide Run, RoundOf, Removed, FreeSlot;
    }
  }

  predicate ReleasedSlots(slots: Slots) { forall i | 0 <= i < |slots| :: slots[i].None? }

  /** The worker begins a round, or leaves, and leaves exactly if a stop has been requested since it was
      started; releasing the table unregisters every watch. */
  lemma WorkerLeavesExactly(states: seq<State>, steps: seq<Step>, n: nat)
    requires Run(states, steps) && n < |steps|
    ensures steps[n].BuildRound? ==>
      && (states[n + 1].worker.Exited? <==> StopStands(steps[..n], states[0].stopping))
      && (states[n + 1].worker.InPoll? <==> !StopStands(steps[..n], states[0].stopping))
    ensures steps[n].ReleaseTable? ==> states[n].worker.Exited? && ReleasedSlots(states[n + 1].slots)
    ensures steps[n].NewWorker? ==> states[n].worker.Exited? && states[n + 1].worker.Top?
  {
    StopStandsExactly(states, steps, n);
    assert Enabled(states[n], steps[n]) && states[n + 1] == Apply(states[n], steps[n]);
    hide Run, RoundOf, StopStands;
  }
}
