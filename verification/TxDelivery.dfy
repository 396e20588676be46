/** What every run of the arbiter keeps about queues, pumps and messages on the air. */
module TxDelivery {
  import opened Basics
  import opened Octets
  import opened TxModel
  import opened TxSystem
  import opened TxQueues

  // ---- The invariant ---------------------------------------------------------------------

  /** At most one pump of each lifetime is inside its loop; the flag says whether the current
      lifetime has one (a deinit may leave the flag set, hence `up`). */
  ghost predicate PumpsOk(s: System) {
    && (forall p | p in s.pumps :: p < s.nextPump && s.pumps[p].lifetime <= s.core.lifetime)
    && (forall p, p' | p in s.pumps && p' in s.pumps && InLoop(s.pumps[p]) && InLoop(s.pumps[p']) ::
          s.pumps[p].lifetime == s.pumps[p'].lifetime ==> p == p')
    && (!s.core.pumping ==> forall p | p in s.pumps :: InLoop(s.pumps[p]) ==> s.pumps[p].lifetime < s.core.lifetime)
    && (s.up && s.core.pumping ==>
      exists p :: p in s.pumps && InLoop(s.pumps[p]) && s.pumps[p].lifetime == s.core.lifetime)
  }

  function RecordOf(kind: Kind, slot: Slot, lifetime: nat): Admitted {
    Admitted(kind, slot.tag.link, slot.tag.identity, slot.tag.session, lifetime, slot.payload)
  }

  ghost predicate HasRecord(s: System, kind: Kind, slot: Slot, lifetime: nat) {
    slot.tag.ticket in s.admitted && s.admitted[slot.tag.ticket] == RecordOf(kind, slot, lifetime)
  }

  /** Tickets are given out in lifetime order, and a queued message is exactly what was admitted
      under its ticket in the current lifetime. */
  ghost predicate HistoryOk(s: System) {
    && (forall t | t in s.admitted :: 1 <= t <= s.core.q.ticket && s.admitted[t].lifetime <= s.core.lifetime)
    && (forall t, t' | t in s.admitted && t' in s.admitted ::
      t < t' ==> s.admitted[t].lifetime <= s.admitted[t'].lifetime)
    && (forall kind: Kind, i | Entry(s.core.q, kind, i) :: HasRecord(s, kind, s.core.q.Slots(kind)[i], s.core.lifetime))
  }

  ghost predicate Carries(p: Pump) { p.stage.Sending? || p.stage.Sent? }

  /** The message a pump carries was admitted as such; while the lifetime is current it can only
      still be queued in its own slot, and the queue holds nothing older for its link. */
  ghost predicate CarriedOk(s: System, p: Pump)
    requires Carries(p)
  {
    var m := p.stage.msg;
    && HasRecord(s, m.kind, m.slotCopy, p.lifetime)
    && (p.lifetime == s.core.lifetime ==> CarriedHere(s, m))
  }

  ghost predicate CarriedHere(s: System, m: Message) {
    forall i | Entry(s.core.q, m.kind, i) ::
      var tag := TagAt(s.core.q, m.kind, i);
      && (tag.ticket == m.Tag().ticket ==> i == m.slot)
      && (tag.link == m.Tag().link ==> m.Tag().ticket <= tag.ticket)
  }

  predicate SameStream(send: Send, kind: Kind, link: Link, lifetime: nat) {
    send.kind == kind && send.link == link && send.lifetime == lifetime
  }

  ghost predicate JustSent(s: System, ticket: nat) {
    exists p :: p in s.pumps && s.pumps[p].lifetime == s.core.lifetime && s.pumps[p].stage.Sent? &&
                s.pumps[p].stage.rc == 0 && s.pumps[p].stage.msg.Tag().ticket == ticket
  }

  /** What went on the air is what was admitted under that ticket. */
  ghost predicate SendsRecorded(s: System) {
    forall i | 0 <= i < |s.sends| ::
      && s.sends[i].ticket in s.admitted
      && var a := s.admitted[s.sends[i].ticket];
         SameStream(s.sends[i], a.kind, a.link, a.lifetime) && a.payload == s.sends[i].payload
         && a.identity == s.sends[i].identity
  }

  ghost predicate SendsOrdered(s: System) {
    forall i, j | 0 <= i < j < |s.sends| ::
      SameStream(s.sends[i], s.sends[j].kind, s.sends[j].link, s.sends[j].lifetime) ==>
        s.sends[i].ticket < s.sends[j].ticket
  }

  /** A message about to be sent is newer than all sends of its stream. */
  ghost predicate SendingAhead(s: System) {
    forall p, j | p in s.pumps && s.pumps[p].stage.Sending? && 0 <= j < |s.sends| ::
      var m := s.pumps[p].stage.msg;
      SameStream(s.sends[j], m.kind, m.Tag().link, s.pumps[p].lifetime) ==> s.sends[j].ticket < m.Tag().ticket
  }

  ghost predicate Ahead(s: System, kind: Kind, tag: Tag, j: nat)
    requires j < |s.sends|
  {
    SameStream(s.sends[j], kind, tag.link, s.core.lifetime) ==>
      s.sends[j].ticket < tag.ticket || (s.sends[j].ticket == tag.ticket && JustSent(s, tag.ticket))
  }

  /** So is a queued message, except one whose send has just succeeded. */
  ghost predicate QueuedAhead(s: System) {
    forall kind: Kind, i, j: nat | Entry(s.core.q, kind, i) && j < |s.sends| ::
      Ahead(s, kind, TagAt(s.core.q, kind, i), j)
  }

  ghost predicate SendsOk(s: System) {
    SendsRecorded(s) && SendsOrdered(s) && SendingAhead(s) && QueuedAhead(s)
  }

  ghost predicate Delivery(s: System) {
    && ValidQueues(s.core.q)
    && PumpsOk(s)
    && HistoryOk(s)
    && (forall p | p in s.pumps && Carries(s.pumps[p]) :: CarriedOk(s, s.pumps[p]))
    && SendsOk(s)
  }

  // ---- Preservation ----------------------------------------------------------------------

  lemma InitialDelivery(s: System)
    requires Initial(s)
    ensures Delivery(s)
  {
    CountBounds(s.core.q.frames);
    CountBounds(s.core.q.responses);
    forall kind: Kind, i ensures !Entry(s.core.q, kind, i) { if kind.Frame? {} else {} }
  }

  /** Messages leave the queues, or the lifetime ends; the pumps are untouched. */
  lemma ShrinkDelivery(s: System, t: System)
    requires Delivery(s)
    requires ValidQueues(t.core.q) && Shrinks(s.core.q, t.core.q)
    requires t.pumps == s.pumps && t.nextPump == s.nextPump && t.admitted == s.admitted && t.sends == s.sends
    requires || (t.core.lifetime == s.core.lifetime && t.core.pumping == s.core.pumping && t.up == s.up)
             || (t.core.lifetime == s.core.lifetime + 1 && (forall kind: Kind, i :: !Entry(t.core.q, kind, i))
                 && (t.up ==> !t.core.pumping))
    ensures Delivery(t)
  {
    assert HistoryOk(t);
    forall p | p in t.pumps && Carries(t.pumps[p]) ensures CarriedOk(t, t.pumps[p]) {
      assert CarriedOk(s, s.pumps[p]);
    }
    forall kind: Kind, i, j: nat | Entry(t.core.q, kind, i) && j < |t.sends|
      ensures Ahead(t, kind, TagAt(t.core.q, kind, i), j)
    {
      assert Entry(s.core.q, kind, i);
      var tag := TagAt(t.core.q, kind, i);
      assert Ahead(s, kind, TagAt(s.core.q, kind, i), j);
      if JustSent(s, tag.ticket) { assert JustSent(t, tag.ticket); }
    }
    assert SendsOk(t);
  }

  /** A message is admitted under the next ticket, possibly on top of another one. */
  ghost predicate Inserts(s: System, t: System, kind: Kind, slot: nat, msg: Slot) {
    && slot < |s.core.q.Slots(kind)| && s.core.q.ticket < UINT64_MAX
    && t.core.q == s.core.q.WithSlots(kind, s.core.q.Slots(kind)[slot := msg]).(ticket := s.core.q.ticket + 1)
    && msg.tag.used && msg.tag.ticket == s.core.q.ticket + 1 && msg.tag.session == s.core.q.sessions.Get(msg.tag.link)
    && t.admitted == Recorded(s, kind, msg.tag.link, msg.tag.identity, msg.payload)
    && t.pumps == s.pumps && t.nextPump == s.nextPump && t.sends == s.sends && t.up == s.up
    && t.core.lifetime == s.core.lifetime && t.core.pumping == s.core.pumping
  }

  lemma InsertEntries(s: System, t: System, kind: Kind, slot: nat, msg: Slot, k: Kind, i: int)
    requires Inserts(s, t, kind, slot, msg) && Entry(t.core.q, k, i)
    ensures (k == kind && i == slot && t.core.q.Slots(k)[i] == msg) ||
            (Entry(s.core.q, k, i) && t.core.q.Slots(k)[i] == s.core.q.Slots(k)[i])
  {
  }

  lemma InsertHistory(s: System, t: System, kind: Kind, slot: nat, msg: Slot)
    requires HistoryOk(s) && Inserts(s, t, kind, slot, msg)
    ensures HistoryOk(t)
  {
    forall k: Kind, i | Entry(t.core.q, k, i)
      ensures HasRecord(t, k, t.core.q.Slots(k)[i], t.core.lifetime)
    {
      InsertEntries(s, t, kind, slot, msg, k, i);
      if t.core.q.Slots(k)[i] != msg { assert HasRecord(s, k, s.core.q.Slots(k)[i], s.core.lifetime); }
    }
  }

  lemma InsertCarried(s: System, t: System, kind: Kind, slot: nat, msg: Slot, p: Pump)
    requires HistoryOk(s) && Inserts(s, t, kind, slot, msg) && Carries(p) && CarriedOk(s, p)
    ensures CarriedOk(t, p)
  {
    var m := p.stage.msg;
    assert HasRecord(s, m.kind, m.slotCopy, p.lifetime);
    if p.lifetime == s.core.lifetime {
      forall i | Entry(t.core.q, m.kind, i)
        ensures var tag := TagAt(t.core.q, m.kind, i);
          (tag.ticket == m.Tag().ticket ==> i == m.slot) && (tag.link == m.Tag().link ==> m.Tag().ticket <= tag.ticket)
      {
        InsertEntries(s, t, kind, slot, msg, m.kind, i);
      }
    }
  }

  lemma InsertSends(s: System, t: System, kind: Kind, slot: nat, msg: Slot)
    requires HistoryOk(s) && SendsOk(s) && Inserts(s, t, kind, slot, msg)
    ensures SendsOk(t)
  {
    assert SendsRecorded(t);
    forall k: Kind, i, j: nat | Entry(t.core.q, k, i) && j < |t.sends|
      ensures Ahead(t, k, TagAt(t.core.q, k, i), j)
    {
      InsertEntries(s, t, kind, slot, msg, k, i);
      var tag := TagAt(t.core.q, k, i);
      if tag != msg.tag {
        assert Ahead(s, k, TagAt(s.core.q, k, i), j);
        if JustSent(s, tag.ticket) { assert JustSent(t, tag.ticket); }
      }
    }
  }

  lemma InsertDelivery(s: System, t: System, kind: Kind, slot: nat, msg: Slot)
    requires Delivery(s) && Inserts(s, t, kind, slot, msg)
    requires ValidQueues(t.core.q)
    ensures Delivery(t)
  {
    InsertHistory(s, t, kind, slot, msg);
    InsertSends(s, t, kind, slot, msg);
    forall p | p in t.pumps && Carries(t.pumps[p]) ensures CarriedOk(t, t.pumps[p]) {
      InsertCarried(s, t, kind, slot, msg, s.pumps[p]);
    }
  }

  lemma SameDelivery(s: System, t: System)
    requires Delivery(s) && SameTraffic(s, t)
    ensures Delivery(t)
  {
    ShrinkDelivery(s, t);
  }

  lemma EnterPumpDelivery(s: System)
    requires Delivery(s) && s.pumpCalls > 0
    ensures Delivery(EnterPumpEffect(s))
  {
    var t := EnterPumpEffect(s);
    if s.core.pumping {
      SameDelivery(s, t);
    } else {
      assert s.nextPump !in s.pumps;
      assert t.pumps[s.nextPump].stage.Picking?;
      assert forall p | p in s.pumps :: t.pumps[p] == s.pumps[p];
      KeepsRest(s, t, s.nextPump);
    }
  }

  /** Only pump `p` changed, and it carries nothing afterwards: what remains is about the others. */
  lemma KeepsRest(s: System, t: System, p: nat)
    requires Delivery(s)
    requires t.core.q == s.core.q && t.core.lifetime == s.core.lifetime && t.admitted == s.admitted
      && t.sends == s.sends
    requires forall p' | p' in t.pumps && p' != p :: p' in s.pumps && t.pumps[p'] == s.pumps[p']
    requires forall p' | p' in s.pumps && p' != p :: p' in t.pumps
    requires p in t.pumps ==> !Carries(t.pumps[p])
    requires p in s.pumps ==> !s.pumps[p].stage.Sent? || s.pumps[p].lifetime != s.core.lifetime
    requires PumpsOk(t)
    ensures Delivery(t)
  {
    forall p' | p' in t.pumps && Carries(t.pumps[p']) ensures CarriedOk(t, t.pumps[p']) {
      assert CarriedOk(s, s.pumps[p']);
    }
    RestSends(s, t, p);
    assert HistoryOk(t);
  }

  lemma RestSends(s: System, t: System, p: nat)
    requires SendsOk(s)
    requires t.core.q == s.core.q && t.core.lifetime == s.core.lifetime && t.admitted == s.admitted
      && t.sends == s.sends
    requires forall p' | p' in t.pumps && p' != p :: p' in s.pumps && t.pumps[p'] == s.pumps[p']
    requires forall p' | p' in s.pumps && p' != p :: p' in t.pumps
    requires p in t.pumps ==> !Carries(t.pumps[p])
    requires p in s.pumps ==> !s.pumps[p].stage.Sent? || s.pumps[p].lifetime != s.core.lifetime
    ensures SendsOk(t)
  {
    forall kind: Kind, i, j: nat | Entry(t.core.q, kind, i) && j < |t.sends|
      ensures Ahead(t, kind, TagAt(t.core.q, kind, i), j)
    {
      var tag := TagAt(t.core.q, kind, i);
      assert Ahead(s, kind, TagAt(s.core.q, kind, i), j);
      if JustSent(s, tag.ticket) {
        var p' :| p' in s.pumps && s.pumps[p'].lifetime == s.core.lifetime && s.pumps[p'].stage.Sent? &&
                  s.pumps[p'].stage.rc == 0 && s.pumps[p'].stage.msg.Tag().ticket == tag.ticket;
        assert p' != p && t.pumps[p'] == s.pumps[p'];
        assert JustSent(t, tag.ticket);
      }
    }
  }

  /** A pump that is not in the current lifetime's loop goes away. */
  lemma RetireDelivery(s: System, t: System, p: nat)
    requires Delivery(s) && p in s.pumps && (s.pumps[p].stage.Finishing? || s.pumps[p].lifetime != s.core.lifetime)
    requires t.core.q == s.core.q && t.core.lifetime == s.core.lifetime && t.core.pumping == s.core.pumping
    requires t.admitted == s.admitted && t.sends == s.sends && t.up == s.up && t.nextPump == s.nextPump
    requires t.pumps == Without(s.pumps, p)
    ensures Delivery(t)
  {
    if s.up && s.core.pumping {
      var w :| w in s.pumps && InLoop(s.pumps[w]) && s.pumps[w].lifetime == s.core.lifetime;
      assert w in t.pumps && t.pumps[w] == s.pumps[w];
    }
    assert PumpsOk(t);
    KeepsRest(s, t, p);
  }

  lemma AgainDelivery(s: System, p: nat)
    requires Delivery(s) && p in s.pumps && s.pumps[p].stage.Picking? && s.pumps[p].lifetime == s.core.lifetime
    requires Pick(s.core, s.pumps[p]).Again?
    ensures Delivery(PickEffect(s, p))
  {
    var t := PickEffect(s, p);
    PumpsOkUpdate(s, t, p);
    KeepsRest(s, t, p);
  }

  lemma DoneDelivery(s: System, p: nat)
    requires Delivery(s) && p in s.pumps && s.pumps[p].stage.Picking? && s.pumps[p].lifetime == s.core.lifetime
    requires Pick(s.core, s.pumps[p]).Done?
    ensures Delivery(PickEffect(s, p))
  {
    DonePumps(s, p);
    hide PumpsOk;
    KeepsRest(s, PickEffect(s, p), p);
  }

  lemma DonePumps(s: System, p: nat)
    requires PumpsOk(s) && p in s.pumps && s.pumps[p].stage.Picking? && s.pumps[p].lifetime == s.core.lifetime
    requires Pick(s.core, s.pumps[p]).Done?
    ensures PumpsOk(PickEffect(s, p))
  {
    hide Pick;
  }

  lemma PickDelivery(s: System, p: nat)
    requires Delivery(s) && p in s.pumps && s.pumps[p].stage.Picking?
    ensures Delivery(PickEffect(s, p))
  {
    if s.pumps[p].lifetime != s.core.lifetime {
      RetireDelivery(s, PickEffect(s, p), p);
    } else {
      match Pick(s.core, s.pumps[p]) {
        case Chosen(m) => ChosenDelivery(s, p, m);
        case Again => AgainDelivery(s, p);
        case Done => DoneDelivery(s, p);
      }
    }
  }

  /** Pump `p` stays in the loop of its own lifetime. */
  lemma PumpsOkUpdate(s: System, t: System, p: nat)
    requires PumpsOk(s) && p in s.pumps && InLoop(s.pumps[p])
    requires t.nextPump == s.nextPump && t.core.lifetime == s.core.lifetime && t.core.pumping == s.core.pumping
      && t.up == s.up
    requires p in t.pumps && t.pumps == s.pumps[p := t.pumps[p]]
    requires InLoop(t.pumps[p]) && t.pumps[p].lifetime == s.pumps[p].lifetime
    ensures PumpsOk(t)
  {
    if s.up && s.core.pumping {
      var w :| w in s.pumps && InLoop(s.pumps[w]) && s.pumps[w].lifetime == s.core.lifetime;
      assert w in t.pumps && InLoop(t.pumps[w]) && t.pumps[w].lifetime == t.core.lifetime;
    }
  }

  /** No other pump of this lifetime can be in the loop, so nothing has just been sent. */
  lemma PickingAlone(s: System, p: nat)
    requires PumpsOk(s) && p in s.pumps && s.pumps[p].stage.Picking? && s.pumps[p].lifetime == s.core.lifetime
    ensures forall ticket :: !JustSent(s, ticket)
  {
  }

  lemma ChosenSends(s: System, p: nat, m: Message)
    requires PumpsOk(s) && SendsOk(s) && p in s.pumps && s.pumps[p].stage.Picking?
      && s.pumps[p].lifetime == s.core.lifetime
    requires Pick(s.core, s.pumps[p]) == Chosen(m)
    ensures SendsOk(PickEffect(s, p))
  {
    var t := PickEffect(s, p);
    PickingAlone(s, p);
    assert Entry(s.core.q, m.kind, m.slot);
    forall j: nat | j < |s.sends|
      ensures SameStream(s.sends[j], m.kind, m.Tag().link, s.core.lifetime) ==> s.sends[j].ticket < m.Tag().ticket
    {
      assert Ahead(s, m.kind, TagAt(s.core.q, m.kind, m.slot), j);
    }
    forall kind: Kind, i, j: nat | Entry(t.core.q, kind, i) && j < |t.sends|
      ensures Ahead(t, kind, TagAt(t.core.q, kind, i), j)
    {
      assert Ahead(s, kind, TagAt(s.core.q, kind, i), j);
    }
  }

  lemma ChosenCarried(s: System, p: nat, m: Message)
    requires HistoryOk(s) && ValidQueues(s.core.q)
    requires p in s.pumps && s.pumps[p].stage.Picking? && s.pumps[p].lifetime == s.core.lifetime
    requires Pick(s.core, s.pumps[p]) == Chosen(m)
    ensures HasRecord(s, m.kind, m.slotCopy, s.core.lifetime) && CarriedHere(s, m)
  {
    assert Entry(s.core.q, m.kind, m.slot);
    assert HasRecord(s, m.kind, s.core.q.Slots(m.kind)[m.slot], s.core.lifetime);
    forall i | Entry(s.core.q, m.kind, i)
      ensures var tag := TagAt(s.core.q, m.kind, i);
        (tag.ticket == m.Tag().ticket ==> i == m.slot) && (tag.link == m.Tag().link ==> m.Tag().ticket <= tag.ticket)
    {
      var slot := s.core.q.Slots(m.kind)[i];
      if slot.tag.link == m.Tag().link && slot.tag.ticket < UINT64_MAX {
        assert Eligible(slot, s.pumps[p].blocked);
      }
    }
  }

  lemma ChosenDelivery(s: System, p: nat, m: Message)
    requires Delivery(s) && p in s.pumps && s.pumps[p].stage.Picking? && s.pumps[p].lifetime == s.core.lifetime
    requires Pick(s.core, s.pumps[p]) == Chosen(m)
    ensures Delivery(PickEffect(s, p))
  {
    var t := PickEffect(s, p);
    PumpsOkUpdate(s, t, p);
    ChosenSends(s, p, m);
    ChosenCarried(s, p, m);
    hide SendsOk, PumpsOk, ValidQueues, Pick;
    forall p' | p' in t.pumps && Carries(t.pumps[p']) ensures CarriedOk(t, t.pumps[p']) {
      if p' != p { assert CarriedOk(s, s.pumps[p']); }
    }
    assert HistoryOk(t);
  }

  /** A successful send extends its stream. */
  lemma SendLog(s: System, p: nat, rc: int)
    requires Delivery(s) && p in s.pumps && s.pumps[p].stage.Sending?
    ensures SendsRecorded(SendEffect(s, p, rc)) && SendsOrdered(SendEffect(s, p, rc))
      && SendingAhead(SendEffect(s, p, rc))
  {
    var t := SendEffect(s, p, rc);
    var pump := s.pumps[p];
    assert CarriedOk(s, pump);
    forall p', j | p' in t.pumps && t.pumps[p'].stage.Sending? && 0 <= j < |t.sends|
      ensures var m' := t.pumps[p'].stage.msg;
          SameStream(t.sends[j], m'.kind, m'.Tag().link, t.pumps[p'].lifetime) ==> t.sends[j].ticket < m'.Tag().ticket
    {
      assert p' != p && t.pumps[p'] == s.pumps[p'];
      assert t.pumps[p'].lifetime != pump.lifetime;
    }
  }

  lemma SendQueued(s: System, p: nat, rc: int)
    requires Delivery(s) && p in s.pumps && s.pumps[p].stage.Sending?
    ensures QueuedAhead(SendEffect(s, p, rc))
  {
    var t := SendEffect(s, p, rc);
    var pump := s.pumps[p];
    var m := pump.stage.msg;
    assert CarriedOk(s, pump);
    forall kind: Kind, i, j: nat | Entry(t.core.q, kind, i) && j < |t.sends|
      ensures Ahead(t, kind, TagAt(t.core.q, kind, i), j)
    {
      var tag := TagAt(t.core.q, kind, i);
      assert Entry(s.core.q, kind, i);
      if j < |s.sends| {
        assert Ahead(s, kind, tag, j);
        if JustSent(s, tag.ticket) {
          var w :| w in s.pumps && s.pumps[w].lifetime == s.core.lifetime && s.pumps[w].stage.Sent? &&
                   s.pumps[w].stage.rc == 0 && s.pumps[w].stage.msg.Tag().ticket == tag.ticket;
          assert t.pumps[w] == s.pumps[w];
        }
      } else if SameStream(t.sends[j], kind, tag.link, t.core.lifetime) && tag.ticket == m.Tag().ticket {
        assert t.pumps[p].stage == Sent(m, 0);
      }
    }
  }

  lemma SendDelivery(s: System, p: nat, rc: int)
    requires Delivery(s) && p in s.pumps && s.pumps[p].stage.Sending?
    ensures Delivery(SendEffect(s, p, rc))
  {
    var t := SendEffect(s, p, rc);
    PumpsOkUpdate(s, t, p);
    SendLog(s, p, rc);
    SendQueued(s, p, rc);
    forall p' | p' in t.pumps && Carries(t.pumps[p']) ensures CarriedOk(t, t.pumps[p']) {
      assert CarriedOk(s, s.pumps[p']);
    }
  }

  /** The message that was just sent has left the queue: if it were still there its slot would
      have passed the comparison and been released. */
  lemma PostQueued(s: System, p: nat)
    requires Delivery(s) && p in s.pumps && s.pumps[p].stage.Sent? && s.pumps[p].lifetime == s.core.lifetime
    ensures QueuedAhead(PostEffect(s, p))
  {
    var t := PostEffect(s, p);
    var m, rc := s.pumps[p].stage.msg, s.pumps[p].stage.rc;
    PostValid(s.core, m, rc);
    assert CarriedOk(s, s.pumps[p]) && CarriedHere(s, m);
    forall kind: Kind, i, j: nat | Entry(t.core.q, kind, i) && j < |t.sends|
      ensures Ahead(t, kind, TagAt(t.core.q, kind, i), j)
    {
      assert Entry(s.core.q, kind, i);
      var tag := TagAt(s.core.q, kind, i);
      assert Ahead(s, kind, tag, j);
      if JustSent(s, tag.ticket) {
        JustSentIs(s, p, tag.ticket);
        assert HasRecord(s, kind, s.core.q.Slots(kind)[i], s.core.lifetime);
        assert HasRecord(s, m.kind, m.slotCopy, s.core.lifetime);
        assert i == m.slot && ValidTag(s.core.q, tag);
        assert StillThere(s.core.q, m);
        assert false;
      }
    }
  }

  lemma JustSentIs(s: System, p: nat, ticket: nat)
    requires PumpsOk(s) && p in s.pumps && s.pumps[p].stage.Sent? && s.pumps[p].lifetime == s.core.lifetime
    requires JustSent(s, ticket)
    ensures s.pumps[p].stage.rc == 0 && s.pumps[p].stage.msg.Tag().ticket == ticket
  {
    var w :| w in s.pumps && s.pumps[w].lifetime == s.core.lifetime && s.pumps[w].stage.Sent? &&
             s.pumps[w].stage.rc == 0 && s.pumps[w].stage.msg.Tag().ticket == ticket;
    assert w == p;
  }

  lemma PostDelivery(s: System, p: nat)
    requires Delivery(s) && p in s.pumps && s.pumps[p].stage.Sent?
    ensures Delivery(PostEffect(s, p))
  {
    var t := PostEffect(s, p);
    var pump := s.pumps[p];
    if pump.lifetime != s.core.lifetime {
      RetireDelivery(s, t, p);
    } else {
      PumpsOkUpdate(s, t, p);
      PostValid(s.core, pump.stage.msg, pump.stage.rc);
      PostQueued(s, p);
      forall p' | p' in t.pumps && Carries(t.pumps[p']) ensures CarriedOk(t, t.pumps[p']) {
        assert p' != p && CarriedOk(s, s.pumps[p']) && s.pumps[p'].lifetime != s.core.lifetime;
      }
      PostHistory(s, p);
    }
  }

  lemma PostHistory(s: System, p: nat)
    requires Delivery(s) && p in s.pumps && s.pumps[p].stage.Sent? && s.pumps[p].lifetime == s.core.lifetime
    ensures HistoryOk(PostEffect(s, p)) && SendingAhead(PostEffect(s, p))
  {
    PostValid(s.core, s.pumps[p].stage.msg, s.pumps[p].stage.rc);
  }

  lemma FinishDelivery(s: System, p: nat)
    requires Delivery(s) && p in s.pumps && s.pumps[p].stage.Finishing?
    ensures Delivery(FinishEffect(s, p))
  {
    RetireDelivery(s, FinishEffect(s, p), p);
  }

  lemma EnqueueResponseDelivery(s: System, link: Link, line: Bytes, capture: Capture)
    requires Delivery(s)
    ensures Delivery(EnqueueResponseEffect(s, link, line, capture))
  {
    ResponseValid(s.core.q, link, line, capture);
    if ResponseRegion(s.core.q, link, line, capture).1 == 0 {
      InsertDelivery(s, EnqueueResponseEffect(s, link, line, capture), Response,
                     LastFree(s.core.q.responses, |s.core.q.responses|),
                     Slot(line, Admission(s.core.q, link, capture).value));
    }
  }

  lemma EnqueueFrameDelivery(s: System, link: Link, buf: Bytes, capture: Capture)
    requires Delivery(s)
    ensures Delivery(EnqueueFrameEffect(s, link, buf, capture))
  {
    FrameValid(s.core.q, link, buf, capture);
    if FrameRegion(s.core.q, link, buf, capture).0.ticket != s.core.q.ticket {
      InsertDelivery(s, EnqueueFrameEffect(s, link, buf, capture), Frame, FrameTarget(s.core.q.frames),
                     Slot(buf, Admission(s.core.q, link, capture).value));
    }
  }

  lemma InitDelivery(s: System)
    requires Delivery(s)
    ensures Delivery(InitEffect(s))
  {
    var t := InitEffect(s);
    ClearedValid(s.core.q, t.core.q);
    ShrinkDelivery(s, t);
  }

  lemma DeinitDelivery(s: System)
    requires Delivery(s)
    ensures Delivery(DeinitEffect(s))
  {
    var t := DeinitEffect(s);
    ClearedValid(s.core.q, t.core.q);
    ShrinkDelivery(s, t);
  }

  lemma LinkStateDelivery(s: System, link: Link, connected: bool, generation: nat)
    requires Delivery(s)
    ensures Delivery(LinkStateEffect(s, link, connected, generation))
  {
    LinkStateValid(s.core, link, connected, generation) by { assert Delivery(s); }
    hide Delivery, ValidQueues, Shrinks;
    ShrinkDelivery(s, LinkStateEffect(s, link, connected, generation));
  }

  lemma SetLinkDelivery(s: System, link: Link, selected: bool)
    requires Delivery(s)
    ensures Delivery(SetLinkEffect(s, link, selected))
  {
    SetLinkValid(s.core, link, selected) by { assert Delivery(s); }
    hide Delivery, ValidQueues, Shrinks;
    ShrinkDelivery(s, SetLinkEffect(s, link, selected));
  }

  predicate TimerStep(step: Step) {
    step.SetOps? || step.Arm? || step.Expire? || step.Clear? || step.EnterReconcile? || step.CancelReturns? ||
    step.StartReturns? || step.ReportReturns? || step.CallPump?
  }

  /** Registrations and timers do not touch queues, pumps or messages. */
  lemma TimerFrame(s: System, step: Step)
    requires Enabled(s, step) && TimerStep(step)
    ensures SameTraffic(s, Apply(s, step))
  {
    hide InitEffect, DeinitEffect, LinkStateEffect, SetLinkEffect, EnqueueResponseEffect, EnqueueFrameEffect,
         EnterPumpEffect, PickEffect, SendEffect, PostEffect, FinishEffect, SetOpsEffect, ArmEffect, ExpireEffect,
         ClearEffect, EnterReconcileEffect, TopEffect, StartReturnsEffect;
  }

  /** Every step keeps the delivery invariant. */
  lemma DeliveryStep(s: System, step: Step)
    requires Delivery(s) && Enabled(s, step)
    ensures Delivery(Apply(s, step))
  {
    hide InitEffect, DeinitEffect, LinkStateEffect, SetLinkEffect, EnqueueResponseEffect, EnqueueFrameEffect,
         EnterPumpEffect, PickEffect, SendEffect, PostEffect, FinishEffect, SetOpsEffect, ArmEffect, ExpireEffect,
         ClearEffect, EnterReconcileEffect, TopEffect, StartReturnsEffect, Delivery;
    match step {
      case Init => InitDelivery(s);
      case Deinit => DeinitDelivery(s);
      case LinkState(link, connected, generation) => LinkStateDelivery(s, link, connected, generation);
      case SetLink(link, selected) => SetLinkDelivery(s, link, selected);
      case EnqueueResponse(link, line, capture) => EnqueueResponseDelivery(s, link, line, capture);
      case EnqueueFrame(link, buf, capture) => EnqueueFrameDelivery(s, link, buf, capture);
      case EnterPump => EnterPumpDelivery(s);
      case PickStep(p) => PickDelivery(s, p);
      case SendStep(p, rc) => SendDelivery(s, p, rc);
      case PostStep(p) => PostDelivery(s, p);
      case FinishStep(p) => FinishDelivery(s, p);
      case _ =>
        TimerFrame(s, step);
        SameDelivery(s, Apply(s, step));
    }
  }
}
