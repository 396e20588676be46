/** A deinit with a pump in flight leaves the arbiter without pumps until the next init. */
module TxDeinit {
  import opened Basics
  import opened Octets
  import opened TxModel
  import opened TxSystem
  import opened TxWitness

  const CALLBACK := Callback(0, 0)

  /** The pump that the deinit abandoned is gone, and no other will start: `pumping` stays set. */
  predicate Stuck(s: System) {
    && s.core.pumping && s.pumps == map[] && s.reconcilers == map[] && s.reconcileCalls == 0
    && |s.core.q.responses| == RESP_DEPTH && |s.core.q.frames| >= 2
    && (forall i | 0 <= i < RESP_DEPTH :: !s.core.q.responses[i].tag.used)
    && (forall i | 0 <= i < |s.core.q.frames| :: !s.core.q.frames[i].tag.used)
    && s.core.q.ticket == 0 && s.core.drain == Drain(0, None, 0, 0) && s.core.timer.id == 0 && !s.core.timer.busy
    && s.pumpCalls == 0
  }

  lemma DeinitInFlight(s: System) returns (a: System, b: System, c: System, d: System, e: System)
    requires Initial(s)
    ensures Next(s, Init, a) && Next(a, CallPump, b) && Next(b, EnterPump, c) && Next(c, Deinit, d)
      && Next(d, PickStep(s.nextPump), e)
    ensures Stuck(e)
  {
    hide Count;
    a := InitEffect(s);
    b := Apply(a, CallPump);
    c := EnterPumpEffect(b);
    d := DeinitEffect(c);
    e := PickEffect(d, s.nextPump);
  }

  lemma LoadOne(s: System) returns (a: System, b: System, c: System)
    requires Stuck(s)
    ensures Next(s, SetLink(Classic, true), a) && Next(a, EnqueueResponse(Classic, [], ANY), b)
      && Next(b, SetOps(Some(0)), c)
    ensures Resting(c) && c.reconcilers == map[]
    ensures c.core.timer.id == 0 && !c.core.timer.busy && c.core.timer.provider.Some?
      && c.core.drain == Drain(0, None, 0, 0)
    ensures |c.core.q.responses| == RESP_DEPTH && c.core.q.responses[3].tag.used
      && c.core.q.responses[3].tag.link == Classic
    ensures c.nextReconciler == s.nextReconciler
  {
    NothingCounted(s.core.q.responses);
    assert LastFree(s.core.q.responses, 4) == 3;
    a := SetLinkEffect(s, Classic, true);
    b := EnqueueResponseEffect(a, Classic, [], ANY);
    hide Count, LastFree;
    c := SetOpsEffect(b, Some(0));
  }

  /** Nothing is in the air but the calls that a stuck `pumping` will swallow. */
  predicate Resting(s: System) {
    s.core.pumping && s.pumps == map[] && s.reconcileCalls == 0 && s.pumpCalls == 2
  }

  lemma ArmOne(c: System) returns (d: System)
    requires Resting(c) && c.core.timer.id == 0 && !c.core.timer.busy && c.core.timer.provider.Some?
      && c.core.drain == Drain(0, None, 0, 0)
    requires |c.core.q.responses| == RESP_DEPTH && c.core.q.responses[3].tag.used
    ensures Next(c, Arm(CALLBACK, 1), d) && d == c.(core := d.core, reconcileCalls := 1)
    ensures d.core == c.core.(drain := Drain(1, Some(CALLBACK), 1, 1))
  {
    hide Count;
    assert !Drained(c.core.q) by { assert c.core.q.responses[3].tag.used; }
    hide Drained;
    d := ArmEffect(c, CALLBACK, 1);
  }

  lemma StartOne(d: System) returns (e: System, f: System)
    requires d.reconcileCalls == 1 && d.reconcilers == map[] && d.core.timer.id == 0 && !d.core.timer.busy
    requires d.core.drain.id == 1 && d.core.drain.timeout == 1
    ensures Next(d, EnterReconcile, e) && Next(e, StartReturns(d.nextReconciler, 0), f)
    ensures f.reconcileCalls == 0 && f.reconcilers == map[] && f.pumps == d.pumps && f.pumpCalls == d.pumpCalls
    ensures f.core.timer.id == 1 && f.core.drain == d.core.drain && f.core.q == d.core.q
      && f.core.pumping == d.core.pumping
  {
    hide Count;
    e := EnterReconcileEffect(d);
    f := StartReturnsEffect(e, d.nextReconciler, 0);
  }

  lemma StillResting(c: System, f: System)
    requires Resting(c) && f.reconcileCalls == 0
    requires f.pumps == c.pumps && f.pumpCalls == c.pumpCalls && f.core.pumping == c.core.pumping
    ensures Resting(f)
  {
  }

  lemma LoseLink(s: System) returns (a: System, b: System, c: System, d: System)
    requires Resting(s) && s.reconcilers == map[]
    requires s.core.timer.id == 1 && s.core.drain.id == 1
    requires |s.core.q.responses| == RESP_DEPTH && s.core.q.responses[3].tag.used
      && s.core.q.responses[3].tag.link == Classic
    ensures Next(s, LinkState(Classic, false, 0), a) && Next(a, EnterPump, b) && Next(b, EnterPump, c)
      && Next(c, EnterPump, d)
    ensures d.pumps == map[] && d.reconcilers == map[] && d.reconcileCalls == 0 && d.pumpCalls == 0
    ensures d.core.timer.id == 1 && Desired(d.core.drain) == 0 && d.core.pumping
  {
    assert Holds(s.core.q.responses, Classic);
    a := LinkStateEffect(s, Classic, false, 0);
    hide Count, Discard, Holds;
    b := EnterPumpEffect(a);
    c := EnterPumpEffect(b);
    d := EnterPumpEffect(c);
  }

  /** Why QuietMeansSynchronised asks for a clear g_pumping: a run that is quiet again after a deinit, with the
      flag still set and a timer installed that no registration wants. */
  lemma DeinitLeavesTimer(start: System) returns (states: seq<System>, steps: seq<Step>)
    requires Initial(start)
    ensures Run(states, steps) && |states| == |steps| + 1
    ensures var s := states[|steps|];
      && s.pumps == map[] && s.reconcilers == map[] && s.pumpCalls == 0 && s.reconcileCalls == 0
      && s.core.timer.id == 1 && Desired(s.core.drain) == 0 && s.core.pumping
  {
    hide *;
    var a1, a2, a3, a4, a5 := DeinitInFlight(start);
    var b1, b2, b3 := LoadOne(a5);
    var b4 := ArmOne(b3);
    var b5, b6 := StartOne(b4);
    assert Resting(b6) by { StillResting(b3, b6); }
    var c1, c2, c3, c4 := LoseLink(b6);
    RunStarts(start);
    states, steps := Extend([start], [], Init, a1);
    states, steps := Extend(states, steps, CallPump, a2);
    states, steps := Extend(states, steps, EnterPump, a3);
    states, steps := Extend(states, steps, Deinit, a4);
    states, steps := Extend(states, steps, PickStep(start.nextPump), a5);
    states, steps := Extend(states, steps, SetLink(Classic, true), b1);
    states, steps := Extend(states, steps, EnqueueResponse(Classic, [], ANY), b2);
    states, steps := Extend(states, steps, SetOps(Some(0)), b3);
    states, steps := Extend(states, steps, Arm(CALLBACK, 1), b4);
    states, steps := Extend(states, steps, EnterReconcile, b5);
    states, steps := Extend(states, steps, StartReturns(a5.nextReconciler, 0), b6);
    states, steps := Extend(states, steps, LinkState(Classic, false, 0), c1);
    states, steps := Extend(states, steps, EnterPump, c2);
    states, steps := Extend(states, steps, EnterPump, c3);
    states, steps := Extend(states, steps, EnterPump, c4);
  }
}
