/** A run in which tickets go out in the wrong order: the ordering guarantee ends with a lifetime. */
module TxWitness {
  import opened Basics
  import opened Octets
  import opened TxModel
  import opened TxSystem
  import opened TxTheorems

  const ANY := Capture(0, 0)

  predicate Roomy(s: System) {
    |s.core.q.responses| == RESP_DEPTH && |s.core.q.frames| >= 2 && s.core.q.ticket < UINT64_MAX - 1
  }

  /** Init, bring the link up, enqueue one response. */
  lemma EnqueueOne(s: System) returns (a: System, b: System, c: System)
    requires Roomy(s)
    ensures a == InitEffect(s) && b == SetLinkEffect(a, Classic, true)
      && c == EnqueueResponseEffect(b, Classic, [], ANY)
    ensures c.pumpCalls > 0 && !c.core.pumping && c.core.lifetime == s.core.lifetime + 1
    ensures c.core.q.ticket == s.core.q.ticket + 1 && |c.core.q.responses| == RESP_DEPTH
      && |c.core.q.frames| == |s.core.q.frames|
    ensures c.core.q.responses[3].tag == Tag(s.core.q.ticket + 1, 0, c.core.q.sessions.classic, Classic, true)
    ensures forall i | 0 <= i < 3 :: !c.core.q.responses[i].tag.used
    ensures c.pumps == s.pumps && c.nextPump == s.nextPump && c.sends == s.sends
  {
    a := InitEffect(s);
    b := SetLinkEffect(a, Classic, true);
    c := EnqueueResponseEffect(b, Classic, [], ANY);
    NothingCounted(b.core.q.responses);
    assert LastFree(b.core.q.responses, 4) == 3;
  }

  lemma NothingCounted(slots: seq<Slot>)
    requires Empty(slots)
    ensures Count(slots) == 0
  {
    if slots != [] { NothingCounted(slots[..|slots| - 1]); }
  }

  /** A pump picks up the response and is about to send it. */
  lemma PickOne(c: System) returns (d: System, e: System)
    requires c.pumpCalls > 0 && !c.core.pumping && |c.core.q.responses| == RESP_DEPTH
    requires c.core.q.responses[3].tag.used && c.core.q.responses[3].tag.ticket < UINT64_MAX
    requires forall i | 0 <= i < 3 :: !c.core.q.responses[i].tag.used
    ensures d == EnterPumpEffect(c) && c.nextPump in d.pumps && d.pumps[c.nextPump].stage.Picking?
    ensures e == PickEffect(d, c.nextPump)
    ensures e.core == d.core && e.core.q == c.core.q && e.sends == c.sends && e.nextPump == c.nextPump + 1
    ensures e.core.lifetime == c.core.lifetime && c.nextPump in e.pumps
      && e.pumps[c.nextPump].lifetime == c.core.lifetime
    ensures e.pumps[c.nextPump].stage == Sending(Message(Response, 3, c.core.q.responses[3]))
    ensures forall p | p in c.pumps && p != c.nextPump :: p in e.pumps && e.pumps[p] == c.pumps[p]
  {
    hide Count;
    d := EnterPumpEffect(c);
    e := PickEffect(d, c.nextPump);
    assert Oldest(c.core.q.responses, 4, NO_LINKS) == 3 by {
      assert Eligible(c.core.q.responses[3], NO_LINKS);
    }
  }

  predicate Next(s: System, step: Step, t: System) { Enabled(s, step) && t == Apply(s, step) }

  /** The five steps that put one response in flight. */
  lemma OneInFlight(s: System) returns (a: System, b: System, c: System, d: System, e: System)
    requires Roomy(s)
    ensures Next(s, Init, a) && Next(a, SetLink(Classic, true), b) && Next(b, EnqueueResponse(Classic, [], ANY), c)
    ensures Next(c, EnterPump, d) && Next(d, PickStep(s.nextPump), e)
    ensures e.sends == s.sends && e.nextPump == s.nextPump + 1 && e.core.lifetime == s.core.lifetime + 1
    ensures |e.core.q.responses| == RESP_DEPTH && |e.core.q.frames| == |s.core.q.frames|
      && e.core.q.ticket == s.core.q.ticket + 1
    ensures s.nextPump in e.pumps && e.pumps[s.nextPump].lifetime == s.core.lifetime + 1
    ensures e.pumps[s.nextPump].stage.Sending?
    ensures var m := e.pumps[s.nextPump].stage.msg;
      m.kind.Response? && m.Tag().ticket == s.core.q.ticket + 1 && m.Tag().link == Classic
    ensures forall p | p in s.pumps && p != s.nextPump :: p in e.pumps && e.pumps[p] == s.pumps[p]
  {
    hide InitEffect, SetLinkEffect, EnqueueResponseEffect, EnterPumpEffect, PickEffect, Count;
    a, b, c := EnqueueOne(s);
    d, e := PickOne(c);
  }

  lemma Sends(s: System, p: nat) returns (t: System)
    requires p in s.pumps && s.pumps[p].stage.Sending?
    ensures Next(s, SendStep(p, 0), t)
    ensures var m := s.pumps[p].stage.msg;
      t.sends == s.sends + [SendOf(m, s.pumps[p].lifetime)]
    ensures forall q | q in s.pumps && q != p :: q in t.pumps && t.pumps[q] == s.pumps[q]
  {
    t := SendEffect(s, p, 0);
  }

  /** Re-initialising while a send is in flight lets two responses to one link go out against their
      ticket order; the pumps' lifetimes are then out of order as well, as SendOrder says. */
  lemma ReinitialisedOrder(start: System) returns (states: seq<System>, steps: seq<Step>)
    requires Initial(start)
    ensures Run(states, steps)
    ensures var s := states[|steps|];
      && |s.sends| == 2 && s.sends[0].kind == s.sends[1].kind && s.sends[0].link == s.sends[1].link
      && s.sends[1].ticket < s.sends[0].ticket && s.sends[1].lifetime < s.sends[0].lifetime
  {
    StartRoomy(start);
    hide *;
    states, steps := [start], [];
    RunStarts(start);
    var first := start.nextPump;
    var middle := start;
    middle, states, steps := FiveMore(start, states, steps);
    var second := middle.nextPump;
    var late := middle;
    StillRoomy(start, middle);
    late, states, steps := FiveMore(middle, states, steps);
    var c1 := Sends(late, second);
    states, steps := Extend(states, steps, SendStep(second, 0), c1);
    var c2 := Sends(c1, first);
    states, steps := Extend(states, steps, SendStep(first, 0), c2);
  }

  lemma StartRoomy(s: System)
    requires Initial(s)
    ensures Roomy(s) && s.sends == [] && s.core.q.ticket == 0
  {
  }

  lemma RunStarts(s: System)
    requires Initial(s)
    ensures Run([s], [])
  {
  }

  lemma StillRoomy(s: System, t: System)
    requires Roomy(s) && s.core.q.ticket == 0 && t.core.q.ticket == 1
    requires |t.core.q.responses| == RESP_DEPTH && |t.core.q.frames| == |s.core.q.frames|
    ensures Roomy(t)
  {
  }

  lemma Extend(states: seq<System>, steps: seq<Step>, step: Step, t: System)
    returns (more: seq<System>, moreSteps: seq<Step>)
    requires Run(states, steps) && |states| == |steps| + 1 && Next(states[|steps|], step, t)
    ensures Run(more, moreSteps) && |more| == |moreSteps| + 1 && more[|moreSteps|] == t
  {
    hide Enabled, Apply;
    more, moreSteps := states + [t], steps + [step];
    forall i | 0 <= i < |moreSteps|
      ensures Enabled(more[i], moreSteps[i]) && more[i + 1] == Apply(more[i], moreSteps[i]) {
      if i < |steps| { assert more[i] == states[i] && more[i + 1] == states[i + 1] && moreSteps[i] == steps[i]; }
    }
  }

  lemma FiveMore(s: System, states: seq<System>, steps: seq<Step>)
    returns (t: System, more: seq<System>, moreSteps: seq<Step>)
    requires Run(states, steps) && |states| == |steps| + 1 && states[|steps|] == s && Roomy(s)
    ensures Run(more, moreSteps) && |more| == |moreSteps| + 1 && more[|moreSteps|] == t
    ensures t.sends == s.sends && t.nextPump == s.nextPump + 1 && t.core.lifetime == s.core.lifetime + 1
    ensures |t.core.q.responses| == RESP_DEPTH && |t.core.q.frames| == |s.core.q.frames|
      && t.core.q.ticket == s.core.q.ticket + 1
    ensures s.nextPump in t.pumps && t.pumps[s.nextPump].lifetime == s.core.lifetime + 1
    ensures t.pumps[s.nextPump].stage.Sending?
    ensures var m := t.pumps[s.nextPump].stage.msg;
      m.kind.Response? && m.Tag().ticket == s.core.q.ticket + 1 && m.Tag().link == Classic
    ensures forall p | p in s.pumps && p != s.nextPump :: p in t.pumps && t.pumps[p] == s.pumps[p]
  {
    hide *;
    var a, b, c, d, e := OneInFlight(s);
    more, moreSteps := Extend(states, steps, Init, a);
    more, moreSteps := Extend(more, moreSteps, SetLink(Classic, true), b);
    more, moreSteps := Extend(more, moreSteps, EnqueueResponse(Classic, [], ANY), c);
    more, moreSteps := Extend(more, moreSteps, EnterPump, d);
    more, moreSteps := Extend(more, moreSteps, PickStep(s.nextPump), e);
    t := e;
  }
}
