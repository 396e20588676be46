/** Drain registrations and the timer that backs them. */
module TxRegistrations {
  import opened Basics
  import opened Octets
  import opened TxModel
  import opened TxSystem
  import opened TxQueues
  import opened TxDelivery

  // ---- Invariants --------------------------------------------------------------------------

  ghost predicate IsClaimed(s: System, id: nat) { exists i :: 0 <= i < |s.claims| && s.claims[i].id == id }

  /** Ids 1..counter split into the claimed ones, each claimed once, and the armed one. */
  ghost predicate ClaimsOk(s: System) {
    && (forall i, j | 0 <= i < j < |s.claims| :: s.claims[i].id != s.claims[j].id)
    && (forall id: nat :: IsClaimed(s, id) <==> 1 <= id <= s.core.drain.counter && id != s.core.drain.id)
  }

  predicate DrainFields(c: Core) {
    && (c.drain.id == 0 <==> c.drain.cb.None?)
    && (c.drain.id == 0 ==> c.drain.timeout == 0)
    && c.drain.id <= c.drain.counter <= UINT64_MAX
    && (c.drain.timeout != 0 ==> c.timer.provider.Some?)
  }

  ghost predicate Obliged(s: System, p: nat) {
    p in s.pumps && (s.pumps[p].stage.Finishing? || s.pumps[p].lifetime == s.core.lifetime)
  }

  /** No registration is lost: if it could fire, some pump will still make its final check. */
  ghost predicate NotLost(s: System) {
    s.core.drain.id != 0 && Drained(s.core.q) ==> exists p :: Obliged(s, p)
  }

  ghost predicate WasStarted(s: System, id: nat) { exists i :: 0 <= i < |s.starts| && s.starts[i].id == id }
  ghost predicate WasCancelled(s: System, id: nat) { exists i :: 0 <= i < |s.cancels| && s.cancels[i].id == id }

  /** One thread at most is inside the reconciler, and the flag says so. */
  ghost predicate ReconcilersOk(s: System) {
    && (forall r, r' | r in s.reconcilers && r' in s.reconcilers :: r == r')
    && (forall r | r in s.reconcilers :: r < s.nextReconciler && !s.reconcilers[r].Idle? && s.reconcilers[r].id != 0)
    && (s.core.timer.busy <==> exists r :: r in s.reconcilers)
  }

  ghost predicate CallsOk(s: System) {
    && (forall i, j | 0 <= i < j < |s.starts| :: s.starts[i].id != s.starts[j].id)
    && (forall i, j | 0 <= i < j < |s.cancels| :: s.cancels[i].id != s.cancels[j].id)
    && (forall i | 0 <= i < |s.starts| :: 1 <= s.starts[i].id <= s.core.drain.counter)
    && (forall i | 0 <= i < |s.cancels| :: s.cancels[i] in s.starts)
  }

  ghost predicate InstalledOk(s: System) {
    && (s.core.timer.id != 0 ==>
          TimerCall(s.core.timer.id, s.core.timer.installed) in s.starts && !WasCancelled(s, s.core.timer.id))
    && (s.core.drain.id != 0 && WasStarted(s, s.core.drain.id) ==>
          s.core.timer.id == s.core.drain.id && s.core.drain.timeout != 0)
  }

  ghost predicate Registrations(s: System) {
    DrainFields(s.core) && ClaimsOk(s) && ReconcilersOk(s) && CallsOk(s) && InstalledOk(s)
  }

  /** Somebody is still going to compare the installed timer with the wanted one. */
  ghost predicate Pending(s: System) {
    s.pumpCalls > 0 || s.reconcileCalls > 0 || s.core.timer.busy || exists p :: Obliged(s, p)
  }

  /** The flag says that a pump is running, but the pump that set it belongs to an earlier lifetime. */
  ghost predicate Stranded(s: System) {
    s.core.pumping && forall p | p in s.pumps && InLoop(s.pumps[p]) :: s.pumps[p].lifetime != s.core.lifetime
  }

  ghost predicate Synchronised(s: System) {
    s.core.timer.id != Desired(s.core.drain) ==> Pending(s) || Stranded(s)
  }

  // ---- Registrations -----------------------------------------------------------------------

  lemma InitialRegistrations(s: System)
    requires Initial(s)
    ensures Registrations(s) && NotLost(s) && Synchronised(s)
  {
  }

  /** The armed registration is claimed. */
  lemma ClaimsAppend(s: System, t: System, outcome: Outcome)
    requires ClaimsOk(s) && DrainFields(s.core)
    requires t.core.drain == ClearDrain(s.core.drain)
    requires t.claims == s.claims + Ends(s.core.drain, outcome)
    ensures ClaimsOk(t)
  {
    var id := s.core.drain.id;
    forall k: nat ensures IsClaimed(t, k) <==> IsClaimed(s, k) || (id != 0 && k == id) {
      if IsClaimed(s, k) {
        var i :| 0 <= i < |s.claims| && s.claims[i].id == k;
        assert t.claims[i].id == k;
      }
      if id != 0 && k == id { assert t.claims[|s.claims|].id == k; }
    }
    forall i, j | 0 <= i < j < |t.claims| ensures t.claims[i].id != t.claims[j].id {
      if j == |s.claims| { assert IsClaimed(s, t.claims[i].id); }
    }
  }

  lemma ClaimsSame(s: System, t: System)
    requires ClaimsOk(s)
    requires t.core.drain.id == s.core.drain.id && t.core.drain.counter == s.core.drain.counter && t.claims == s.claims
    ensures ClaimsOk(t)
  {
    forall k: nat ensures IsClaimed(t, k) <==> IsClaimed(s, k) {}
  }

  lemma ArmClaims(s: System, cb: Callback, timeout: nat)
    requires ClaimsOk(s) && DrainFields(s.core)
    ensures ClaimsOk(ArmEffect(s, cb, timeout))
  {
    var t := ArmEffect(s, cb, timeout);
    var (after, r) := ArmRegion(s.core, cb, timeout);
    if r.Ok? {
      var id := r.value.0;
      forall k: nat ensures IsClaimed(t, k) <==> IsClaimed(s, k) || (r.value.1 && k == id) {
        if IsClaimed(s, k) {
          var i :| 0 <= i < |s.claims| && s.claims[i].id == k;
          assert t.claims[i].id == k;
        }
        if r.value.1 && k == id { assert t.claims[|s.claims|].id == k; }
      }
      forall i, j | 0 <= i < j < |t.claims| ensures t.claims[i].id != t.claims[j].id {
        if j == |s.claims| { assert IsClaimed(s, t.claims[i].id); }
      }
    }
  }

  /** A step either leaves the registration alone or claims it, with the log to match. */
  ghost predicate ClaimStep(s: System, t: System) {
    || (t.core.drain == s.core.drain && t.claims == s.claims)
    || (t.core.drain == ClearDrain(s.core.drain) && exists outcome: Outcome ::
          t.claims == s.claims + Ends(s.core.drain, outcome))
  }

  lemma ClaimStepOk(s: System, t: System)
    requires ClaimsOk(s) && DrainFields(s.core) && ClaimStep(s, t)
    requires t.core.timer.provider == s.core.timer.provider
    ensures ClaimsOk(t) && DrainFields(t.core)
  {
    if t.core.drain == s.core.drain && t.claims == s.claims {
      ClaimsSame(s, t);
    } else {
      var outcome :| t.claims == s.claims + Ends(s.core.drain, outcome);
      ClaimsAppend(s, t, outcome);
    }
  }

  /** Discarding link data either leaves the registration or clears it whole. */
  lemma DiscardClaims(s: System, after: Core)
    requires DrainFields(s.core)
    requires after.drain == s.core.drain || after.drain == ClearDrain(s.core.drain)
    ensures ClaimStep(s, DiscardEffect(s, after))
  {
    var t := DiscardEffect(s, after);
    if after.drain != s.core.drain {
      assert t.claims == s.claims + Ends(s.core.drain, ByDiscard);
    } else if s.core.drain.id != 0 {
      assert t.claims == s.claims;
    }
  }

  lemma TopClaims(s: System, r: nat)
    requires ClaimsOk(s) && DrainFields(s.core)
    ensures ClaimsOk(TopEffect(s, r)) && DrainFields(TopEffect(s, r).core)
  {
    ClaimsSame(s, TopEffect(s, r));
  }

  lemma StartReturnsClaims(s: System, r: nat, rc: int)
    requires ClaimsOk(s) && DrainFields(s.core) && CallsOk(s) && r in s.reconcilers && s.reconcilers[r].Starting?
    requires s.reconcilers[r].id != 0
    ensures ClaimsOk(StartReturnsEffect(s, r, rc)) && DrainFields(StartReturnsEffect(s, r, rc).core)
  {
    var id := s.reconcilers[r].id;
    if StartFailureClaims(s.core, id, rc) {
      assert StartReturnsEffect(s, r, rc).claims == s.claims +
        Ends(s.core.drain, ByStartFailure);
      ClaimStepOk(s, StartReturnsEffect(s, r, rc));
    } else {
      var t := s.(core := StartReturnRegion(s.core, id, rc));
      ClaimStepOk(s, t);
      TopClaims(t, r);
    }
  }

  // ---- Timer calls -------------------------------------------------------------------------

  ghost predicate Timers(s: System) { ReconcilersOk(s) && CallsOk(s) && InstalledOk(s) }

  /** Nothing about timer calls changes, and the registration is the same or cleared. */
  lemma TimersFrame(s: System, t: System)
    requires Timers(s)
    requires t.reconcilers == s.reconcilers && t.nextReconciler == s.nextReconciler && t.starts == s.starts
      && t.cancels == s.cancels
    requires t.core.timer.busy == s.core.timer.busy && t.core.drain.counter >= s.core.drain.counter
    requires t.core.timer.id == 0
      || (t.core.timer.id == s.core.timer.id && t.core.timer.installed == s.core.timer.installed)
    requires || t.core.drain.id == 0
             || (t.core.drain == s.core.drain && t.core.timer.id == s.core.timer.id)
             || t.core.drain.id > s.core.drain.counter
    ensures Timers(t)
  {
    forall id: nat ensures WasCancelled(t, id) <==> WasCancelled(s, id) {}
    forall id: nat ensures WasStarted(t, id) <==> WasStarted(s, id) {}
  }

  /** The reconciler's loop starts a timer only for an id never started, and cancels only one
      that was started, by the same provider, and never cancelled. */
  lemma TopTimers(s: System, r: nat)
    requires DrainFields(s.core) && CallsOk(s) && InstalledOk(s)
    requires r < s.nextReconciler && forall r' | r' in s.reconcilers :: r' == r
    ensures Timers(TopEffect(s, r))
  {
    var t := TopEffect(s, r);
    var (after, at) := ReconcileTop(s.core);
    assert !at.Idle? ==> r in t.reconcilers;
    match at {
      case Idle => TopSame(s, t);
      case Cancelling(id) => TopCancels(s, r, id);
      case Starting(id) => TopStarts(s, r, id);
    }
  }

  lemma TopSame(s: System, t: System)
    requires CallsOk(s) && InstalledOk(s)
    requires t.starts == s.starts && t.cancels == s.cancels && t.core.drain == s.core.drain
    requires t.core.timer.id == s.core.timer.id && t.core.timer.installed == s.core.timer.installed
    ensures CallsOk(t) && InstalledOk(t)
  {
    forall id: nat ensures WasCancelled(t, id) <==> WasCancelled(s, id) {}
    forall id: nat ensures WasStarted(t, id) <==> WasStarted(s, id) {}
  }

  lemma TopCancels(s: System, r: nat, id: nat)
    requires DrainFields(s.core) && CallsOk(s) && InstalledOk(s) && ReconcileTop(s.core).1 == Cancelling(id)
    ensures CallsOk(TopEffect(s, r)) && InstalledOk(TopEffect(s, r))
  {
    var t := TopEffect(s, r);
    assert forall i | 0 <= i < |s.cancels| :: s.cancels[i].id != id by { assert !WasCancelled(s, id); }
    assert WasStarted(t, s.core.drain.id) ==> WasStarted(s, s.core.drain.id);
  }

  lemma TopStarts(s: System, r: nat, id: nat)
    requires DrainFields(s.core) && CallsOk(s) && InstalledOk(s) && ReconcileTop(s.core).1 == Starting(id)
    ensures CallsOk(TopEffect(s, r)) && InstalledOk(TopEffect(s, r))
  {
    var t := TopEffect(s, r);
    assert forall i | 0 <= i < |s.starts| :: s.starts[i].id != id by { assert !WasStarted(s, id); }
    forall i | 0 <= i < |s.cancels| ensures s.cancels[i].id != id { assert s.cancels[i] in s.starts; }
    assert t.starts[|s.starts|] == TimerCall(t.core.timer.id, t.core.timer.installed);
  }

  // ---- Every step --------------------------------------------------------------------------

  lemma QuietStep(s: System, t: System)
    requires Registrations(s) && ClaimStep(s, t) && SameCalls(s, t)
    requires t.core.timer.id == s.core.timer.id || (t.core.timer.id == 0 && t.core.drain.id == 0)
    ensures Registrations(t)
  {
    ClaimStepOk(s, t);
    TimersFrame(s, t);
  }

  lemma InitRegistrations(s: System)
    requires Registrations(s)
    ensures Registrations(InitEffect(s))
  {
    var t := InitEffect(s);
    assert t.claims == s.claims + Ends(s.core.drain, ByDiscard);
    QuietStep(s, t);
  }

  lemma DeinitRegistrations(s: System)
    requires Registrations(s)
    ensures Registrations(DeinitEffect(s))
  {
    var t := DeinitEffect(s);
    DiscardClaims(s, DeinitRegion(s.core));
    assert ClaimStep(s, t);
    QuietStep(s, t);
  }

  lemma LinkStateRegistrations(s: System, link: Link, connected: bool, generation: nat)
    requires Registrations(s)
    ensures Registrations(LinkStateEffect(s, link, connected, generation))
  {
    var t := LinkStateEffect(s, link, connected, generation);
    DiscardClaims(s, LinkStateRegion(s.core, link, connected, generation));
    assert ClaimStep(s, t);
    QuietStep(s, t);
  }

  lemma SetLinkRegistrations(s: System, link: Link, selected: bool)
    requires Registrations(s)
    ensures Registrations(SetLinkEffect(s, link, selected))
  {
    var t := SetLinkEffect(s, link, selected);
    DiscardClaims(s, SetLinkRegion(s.core, link, selected));
    assert ClaimStep(s, t);
    QuietStep(s, t);
  }

  lemma FinishRegistrations(s: System, p: nat)
    requires Registrations(s) && p in s.pumps
    ensures Registrations(FinishEffect(s, p))
  {
    var t := FinishEffect(s, p);
    if DrainClaims(s.core) {
      assert t.claims == s.claims + Ends(s.core.drain, ByDrain);
    } else {
      assert t.claims == s.claims;
    }
    QuietStep(s, t);
  }

  lemma SetOpsRegistrations(s: System, provider: Option<nat>)
    requires Registrations(s)
    ensures Registrations(SetOpsEffect(s, provider))
  {
    ClaimsSame(s, SetOpsEffect(s, provider));
    TimersFrame(s, SetOpsEffect(s, provider));
  }

  lemma ArmRegistrations(s: System, cb: Callback, timeout: nat)
    requires Registrations(s)
    ensures Registrations(ArmEffect(s, cb, timeout))
  {
    ArmClaims(s, cb, timeout);
    TimersFrame(s, ArmEffect(s, cb, timeout));
  }

  lemma ExpireRegistrations(s: System, id: nat)
    requires Registrations(s)
    ensures Registrations(ExpireEffect(s, id))
  {
    var t := ExpireEffect(s, id);
    if TimeoutClaims(s.core, id) {
      assert t.claims == s.claims + Ends(s.core.drain, ByTimeout);
    } else {
      assert t.claims == s.claims;
    }
    QuietStep(s, t);
  }

  lemma ClearRegistrations(s: System, id: nat)
    requires Registrations(s)
    ensures Registrations(ClearEffect(s, id))
  {
    var t := ClearEffect(s, id);
    if id != 0 && s.core.drain.id == id {
      assert t.claims == s.claims + Ends(s.core.drain, ByCancel);
    }
    QuietStep(s, t);
  }

  lemma TopRegistrations(s: System, r: nat)
    requires Registrations(s) && r in s.reconcilers
    ensures Registrations(TopEffect(s, r))
  {
    TopClaims(s, r);
    TopTimers(s, r);
  }

  lemma EnterReconcileRegistrations(s: System)
    requires Registrations(s) && s.reconcileCalls > 0
    ensures Registrations(EnterReconcileEffect(s))
  {
    if s.core.timer.busy {
      QuietStep(s, EnterReconcileEffect(s));
    } else {
      var v := s.(reconcileCalls := s.reconcileCalls - 1, nextReconciler := s.nextReconciler + 1);
      ClaimsSame(s, v);
      TopSame(s, v);
      TopClaims(v, s.nextReconciler);
      TopTimers(v, s.nextReconciler);
      hide TopEffect, ClaimsOk, CallsOk, InstalledOk, ReconcilersOk, DrainFields;
      assert EnterReconcileEffect(s) == TopEffect(v, s.nextReconciler);
    }
  }

  lemma StartFailureTimers(s: System, id: nat, rc: int)
    requires Registrations(s) && id != 0
    ensures CallsOk(s.(core := StartReturnRegion(s.core, id, rc)))
      && InstalledOk(s.(core := StartReturnRegion(s.core, id, rc)))
  {
    var u := s.(core := StartReturnRegion(s.core, id, rc));
    forall k: nat ensures WasCancelled(u, k) <==> WasCancelled(s, k) {}
    forall k: nat ensures WasStarted(u, k) <==> WasStarted(s, k) {}
  }

  lemma StartReturnsRegistrations(s: System, r: nat, rc: int)
    requires Registrations(s) && r in s.reconcilers && s.reconcilers[r].Starting?
    ensures Registrations(StartReturnsEffect(s, r, rc))
  {
    var id := s.reconcilers[r].id;
    StartReturnsClaims(s, r, rc);
    var u := s.(core := StartReturnRegion(s.core, id, rc));
    StartFailureTimers(s, id, rc);
    if StartFailureClaims(s.core, id, rc) {
      var t := StartReturnsEffect(s, r, rc);
      assert r in t.reconcilers;
      TopSame(u, t);
    } else {
      ClaimStepOk(s, u);
      TopTimers(u, r);
    }
  }

  /** Every step keeps the account of registrations and timer calls. */
  lemma RegistrationsStep(s: System, step: Step)
    requires Registrations(s) && Enabled(s, step)
    ensures Registrations(Apply(s, step))
  {
    hide InitEffect, DeinitEffect, LinkStateEffect, SetLinkEffect, EnqueueResponseEffect, EnqueueFrameEffect,
         EnterPumpEffect, PickEffect, SendEffect, PostEffect, FinishEffect, SetOpsEffect, ArmEffect, ExpireEffect,
         ClearEffect, EnterReconcileEffect, TopEffect, StartReturnsEffect, Registrations;
    match step {
      case Init => InitRegistrations(s);
      case Deinit => DeinitRegistrations(s);
      case LinkState(link, connected, generation) => LinkStateRegistrations(s, link, connected, generation);
      case SetLink(link, selected) => SetLinkRegistrations(s, link, selected);
      case FinishStep(p) => FinishRegistrations(s, p);
      case SetOps(provider) => SetOpsRegistrations(s, provider);
      case Arm(cb, timeout) => ArmRegistrations(s, cb, timeout);
      case Expire(id) => ExpireRegistrations(s, id);
      case Clear(id) => ClearRegistrations(s, id);
      case EnterReconcile => EnterReconcileRegistrations(s);
      case CancelReturns(r) => TopRegistrations(s, r);
      case StartReturns(r, rc) => StartReturnsRegistrations(s, r, rc);
      case ReportReturns(r) => TopRegistrations(s, r);
      case _ => QuietStep(s, Apply(s, step));
    }
  }
}
