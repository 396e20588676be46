/** The arbiter's two queues: every locked region keeps them well formed. */
module TxQueues {
  import opened Basics
  import opened Octets
  import opened TxModel

  // ---- Counting --------------------------------------------------------------------------

  lemma {:induction false} CountBounds(slots: seq<Slot>)
    ensures Count(slots) <= |slots|
    ensures Count(slots) == 0 <==> Empty(slots)
    ensures Count(slots) == |slots| <==> forall i :: 0 <= i < |slots| ==> slots[i].tag.used
  {
    if slots != [] {
      var front := slots[..|slots| - 1];
      CountBounds(front);
      assert forall i :: 0 <= i < |front| ==> front[i] == slots[i];
    }
  }

  lemma {:induction false} CountUpdate(slots: seq<Slot>, i: nat, s: Slot)
    requires i < |slots|
    ensures Count(slots[i := s]) ==
            Count(slots) - (if slots[i].tag.used then 1 else 0) + (if s.tag.used then 1 else 0)
  {
    var n := |slots| - 1;
    if i < n {
      CountUpdate(slots[..n], i, s);
      assert slots[i := s][..n] == slots[..n][i := s];
    } else {
      assert slots[i := s][..n] == slots[..n];
    }
  }

  lemma {:induction false} CountMonotone(small: seq<Slot>, large: seq<Slot>)
    requires |small| == |large|
    requires forall i :: 0 <= i < |small| && small[i].tag.used ==> large[i].tag.used
    ensures Count(small) <= Count(large)
  {
    if small != [] {
      CountMonotone(small[..|small| - 1], large[..|large| - 1]);
    }
  }

  // ---- Preservation ----------------------------------------------------------------------

  /** Every message of `after` was in `before`, at the same place and under the same tag. */
  ghost predicate Shrinks(before: Queues, after: Queues) {
    && |after.frames| == |before.frames| && |after.responses| == |before.responses|
    && after.ticket == before.ticket
    && forall kind: Kind, i | Entry(after, kind, i) ::
         Entry(before, kind, i) && after.Slots(kind)[i] == before.Slots(kind)[i]
  }

  lemma ShrinkCount(before: Queues, after: Queues, kind: Kind)
    requires Shrinks(before, after)
    ensures Count(after.Slots(kind)) <= Count(before.Slots(kind))
  {
    forall i | 0 <= i < |after.Slots(kind)| && after.Slots(kind)[i].tag.used
      ensures before.Slots(kind)[i].tag.used
    {
      assert Entry(after, kind, i);
    }
    CountMonotone(after.Slots(kind), before.Slots(kind));
  }

  lemma ShrinkValid(before: Queues, after: Queues)
    requires ValidQueues(before) && Shrinks(before, after)
    requires forall kind: Kind, i | Entry(after, kind, i) :: ValidTag(after, TagAt(after, kind, i))
    ensures ValidQueues(after)
  {
    ShrinkCount(before, after, Frame);
    ShrinkCount(before, after, Response);
    forall kind: Kind, i, kind': Kind, j | Entry(after, kind, i) && Entry(after, kind', j)
      ensures TagAt(after, kind, i).ticket == TagAt(after, kind', j).ticket ==> kind == kind' && i == j
    {
      assert Entry(before, kind, i) && Entry(before, kind', j);
    }
  }

  /** Discarding a link leaves exactly the other link's messages. */
  lemma DiscardKeeps(c: Core, link: Link)
    ensures Shrinks(c.q, DiscardLink(c, link).q)
    ensures forall kind: Kind, i ::
      Entry(DiscardLink(c, link).q, kind, i) <==> Entry(c.q, kind, i) && TagAt(c.q, kind, i).link != link
  {
    var d := DiscardLink(c, link);
    forall kind: Kind, i
      ensures Entry(d.q, kind, i) <==> Entry(c.q, kind, i) && TagAt(c.q, kind, i).link != link
      ensures Entry(d.q, kind, i) ==> d.q.Slots(kind)[i] == c.q.Slots(kind)[i]
    {
      assert d.q.Slots(kind) == Discard(c.q.Slots(kind), link);
    }
  }

  lemma LinkStateValid(c: Core, link: Link, connected: bool, generation: nat)
    requires ValidQueues(c.q)
    ensures ValidQueues(LinkStateRegion(c, link, connected, generation).q)
    ensures Shrinks(c.q, LinkStateRegion(c, link, connected, generation).q)
  {
    var after := LinkStateRegion(c, link, connected, generation);
    DiscardKeeps(c, link);
    var d := DiscardLink(c, link);
    assert Shrinks(c.q, after.q) by {
      forall kind: Kind, i | Entry(after.q, kind, i)
        ensures Entry(c.q, kind, i) && after.q.Slots(kind)[i] == c.q.Slots(kind)[i]
      {
        assert Entry(d.q, kind, i) || Entry(c.q, kind, i);
      }
    }
    forall kind: Kind, i | Entry(after.q, kind, i)
      ensures ValidTag(after.q, TagAt(after.q, kind, i))
    {
      var stale := !connected || !c.q.online.Get(link) || c.q.sessions.Get(link) != generation;
      assert stale ==> Entry(d.q, kind, i);
      assert Entry(c.q, kind, i) && ValidTag(c.q, TagAt(c.q, kind, i));
    }
    ShrinkValid(c.q, after.q);
  }

  lemma SetLinkValid(c: Core, link: Link, selected: bool)
    requires ValidQueues(c.q)
    ensures ValidQueues(SetLinkRegion(c, link, selected).q)
    ensures Shrinks(c.q, SetLinkRegion(c, link, selected).q)
  {
    var after := SetLinkRegion(c, link, selected);
    DiscardKeeps(c, link);
    var d := DiscardLink(c, link);
    forall kind: Kind, i | Entry(after.q, kind, i)
      ensures Entry(c.q, kind, i) && after.q.Slots(kind)[i] == c.q.Slots(kind)[i]
      ensures ValidTag(after.q, TagAt(after.q, kind, i))
    {
      assert !selected ==> Entry(d.q, kind, i);
      assert Entry(c.q, kind, i) && ValidTag(c.q, TagAt(c.q, kind, i));
    }
    ShrinkValid(c.q, after.q);
  }

  lemma ClearedValid(q: Queues, after: Queues)
    requires ValidQueues(q)
    requires |after.frames| == |q.frames| && |after.responses| == |q.responses| && after.ticket == q.ticket
    requires Empty(after.frames) && Empty(after.responses)
    ensures ValidQueues(after) && Shrinks(q, after)
    ensures Count(after.frames) == 0 && Count(after.responses) == 0
    ensures forall kind: Kind, i :: !Entry(after, kind, i)
  {
    CountBounds(after.frames);
    CountBounds(after.responses);
    assert forall kind: Kind, i :: !Entry(after, kind, i) by {
      forall kind: Kind, i ensures !Entry(after, kind, i) { if kind.Frame? {} else {} }
    }
  }

  /** A message admitted to slot `i` under the next ticket. */
  lemma InsertValid(q: Queues, kind: Kind, i: nat, slot: Slot, after: Queues)
    requires ValidQueues(q) && i < |q.Slots(kind)|
    requires slot.tag.used && slot.tag.ticket == q.ticket + 1 <= UINT64_MAX
    requires q.online.Get(slot.tag.link) && slot.tag.session == q.sessions.Get(slot.tag.link)
    requires after == q.WithSlots(kind, q.Slots(kind)[i := slot]).(ticket := q.ticket + 1)
    requires q.Slots(kind)[i].tag.used || Count(q.Slots(kind)) < |q.Slots(kind)| - 1
    ensures ValidQueues(after)
    ensures Count(after.Slots(kind)) == Count(q.Slots(kind)) + if q.Slots(kind)[i].tag.used then 0 else 1
    ensures Entry(after, kind, i)
    ensures forall k: Kind, j :: Entry(after, k, j) && !(k == kind && j == i) ==>
              Entry(q, k, j) && after.Slots(k)[j] == q.Slots(k)[j]
  {
    CountUpdate(q.Slots(kind), i, slot);
    forall k: Kind, j | Entry(after, k, j)
      ensures (k == kind && j == i) || (Entry(q, k, j) && after.Slots(k)[j] == q.Slots(k)[j])
      ensures ValidTag(after, TagAt(after, k, j))
    {
      if !(k == kind && j == i) { assert Entry(q, k, j) && ValidTag(q, TagAt(q, k, j)); }
    }
    forall k: Kind, j, k': Kind, j' | Entry(after, k, j) && Entry(after, k', j')
      ensures TagAt(after, k, j).ticket == TagAt(after, k', j').ticket ==> k == k' && j == j'
    {
      if !(k == kind && j == i) { assert ValidTag(q, TagAt(q, k, j)); }
      if !(k' == kind && j' == i) { assert ValidTag(q, TagAt(q, k', j')); }
    }
  }

  /** The target index is in bounds: a free slot below capacity, the oldest frame at capacity. In
      particular the ring is never full of nothing but the last ticket. */
  lemma FrameTargetFound(q: Queues)
    requires ValidQueues(q) && q.ticket < UINT64_MAX
    ensures 0 <= FrameTarget(q.frames) < |q.frames|
    ensures q.frames[FrameTarget(q.frames)].tag.used <==> Count(q.frames) == |q.frames| - 1
    ensures Count(q.frames) == |q.frames| - 1 ==>
      forall i | Entry(q, Frame, i) :: q.frames[FrameTarget(q.frames)].tag.ticket <= TagAt(q, Frame, i).ticket
  {
    CountBounds(q.frames);
    if Count(q.frames) == |q.frames| - 1 {
      var i :| 0 <= i < |q.frames| && q.frames[i].tag.used;
      forall j | Entry(q, Frame, j) ensures Eligible(q.frames[j], NO_LINKS) {
        assert ValidTag(q, TagAt(q, Frame, j));
      }
      assert Entry(q, Frame, i);
    }
  }

  lemma FrameValid(q: Queues, link: Link, buf: Bytes, capture: Capture)
    requires ValidQueues(q)
    ensures var (after, rc) := FrameRegion(q, link, buf, capture);
      && ValidQueues(after)
      && (after.ticket == q.ticket ==> after == q)
      && (after.ticket != q.ticket ==>
           && q.ticket < UINT64_MAX && q.online.Get(link) && 0 <= FrameTarget(q.frames) < |q.frames|
           && Admission(q, link, capture).Ok?
           && after == q.(frames := q.frames[FrameTarget(q.frames) := Slot(buf, Admission(q, link, capture).value)],
                          ticket := q.ticket + 1)
           && (rc == ENOSPC <==> Count(q.frames) == |q.frames| - 1)
           && Count(after.frames) == Count(q.frames) + if rc == ENOSPC then 0 else 1)
  {
    var admission := Admission(q, link, capture);
    if admission.Ok? {
      FrameTargetFound(q);
      var slot := FrameTarget(q.frames);
      InsertValid(q, Frame, slot, Slot(buf, admission.value), FrameRegion(q, link, buf, capture).0);
    }
  }

  lemma ResponseValid(q: Queues, link: Link, line: Bytes, capture: Capture)
    requires ValidQueues(q)
    ensures var (after, rc) := ResponseRegion(q, link, line, capture);
      && ValidQueues(after)
      && (rc != 0 ==> after == q)
      && (rc == 0 ==>
           && q.ticket < UINT64_MAX && q.online.Get(link)
           && Admission(q, link, capture).Ok?
           && 0 <= LastFree(q.responses, |q.responses|)
           && after == q.(responses := q.responses[LastFree(q.responses, |q.responses|) :=
                                                     Slot(line, Admission(q, link, capture).value)],
                          ticket := q.ticket + 1)
           && Count(after.responses) == Count(q.responses) + 1)
  {
    var admission := Admission(q, link, capture);
    CountBounds(q.responses);
    if Count(q.responses) != RESP_DEPTH - 1 && admission.Ok? {
      var slot := LastFree(q.responses, |q.responses|);
      InsertValid(q, Response, slot, Slot(line, admission.value), ResponseRegion(q, link, line, capture).0);
    }
  }

  /** After a send: the message leaves the queue if it is still there, and nothing else does. */
  lemma PostValid(c: Core, m: Message, rc: int)
    requires ValidQueues(c.q)
    ensures ValidQueues(PostRegion(c, m, rc).q) && Shrinks(c.q, PostRegion(c, m, rc).q)
    ensures forall kind: Kind, i :: Entry(PostRegion(c, m, rc).q, kind, i) <==>
      Entry(c.q, kind, i)
        && !(!SendOutcome(m.Tag().link, rc).Refused? && StillThere(c.q, m) && kind == m.kind && i == m.slot)
    ensures forall kind: Kind ::
      Count(PostRegion(c, m, rc).q.Slots(kind)) ==
      Count(c.q.Slots(kind)) -
        if !SendOutcome(m.Tag().link, rc).Refused? && StillThere(c.q, m) && kind == m.kind then 1 else 0
  {
    var after := PostRegion(c, m, rc);
    if !SendOutcome(m.Tag().link, rc).Refused? && StillThere(c.q, m) {
      CountUpdate(c.q.Slots(m.kind), m.slot, Release(c.q.Slots(m.kind)[m.slot]));
      forall kind: Kind, i
        ensures Entry(after.q, kind, i) <==> Entry(c.q, kind, i) && !(kind == m.kind && i == m.slot)
        ensures Entry(after.q, kind, i) ==>
          after.q.Slots(kind)[i] == c.q.Slots(kind)[i] && ValidTag(after.q, TagAt(after.q, kind, i))
      {
        if Entry(c.q, kind, i) { assert ValidTag(c.q, TagAt(c.q, kind, i)); }
      }
      ShrinkValid(c.q, after.q);
    }
  }
}
