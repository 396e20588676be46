/** Actuator ownership: one owner per port, tokens that are never reused, stale tokens that never act. */
module MotorOwnership {
  import opened Basics
  import opened MotorModel
  import opened MotorSystem

  // ---- What every step keeps ----------------------------------------------------------------

  /** At most one link owns a port, and the token is nonzero exactly when one does. */
  predicate OneOwner(b: Backend) {
    && b.Sized()
    && (forall p | 0 <= p < PORTS :: !(b.classic[p] && b.ble[p]))
    && (forall p | 0 <= p < PORTS :: b.token[p] != 0 <==> b.classic[p] || b.ble[p])
  }

  /** Tokens in force were issued for their port and its owner, and a token issued under a
      nonzero generation is only in force while the link is still in that generation. */
  predicate TokensGenuine(m: Motors) {
    && (forall k | k in m.issued :: 1 <= k <= m.backend.nextToken)
    && |m.backend.token| == PORTS && m.backend.Sized()
    && (forall p | 0 <= p < PORTS && m.backend.token[p] != 0 :: Genuine(m, p))
  }

  predicate Genuine(m: Motors, p: nat)
    requires m.backend.Sized() && p < PORTS
  {
    var k := m.backend.token[p];
    && k in m.issued && m.issued[k].port == p && m.backend.Row(m.issued[k].link)[p]
    && (m.issued[k].generation == 0 || m.issued[k].generation == m.backend.Generation(m.issued[k].link))
  }

  predicate Ownership(m: Motors) { OneOwner(m.backend) && TokensGenuine(m) }

  lemma SetOwnerOwns(b: Backend, link: Link, port: nat, running: bool)
    requires OneOwner(b) && port < PORTS
    ensures OneOwner(SetOwner(b, link, port, running))
  {
  }

  lemma CommandedKeeps(m: Motors, link: Link, port: nat, running: bool)
    requires Ownership(m) && port < PORTS
    ensures Ownership(Commanded(m, link, port, running))
  {
    var n := Commanded(m, link, port, running);
    SetOwnerOwns(m.backend, link, port, running);
    forall p | 0 <= p < PORTS && n.backend.token[p] != 0 ensures Genuine(n, p) {
      if p != port {
        assert Genuine(m, p);
        assert n.backend.token[p] == m.backend.token[p];
      }
    }
  }

  lemma EndedKeeps(m: Motors, link: Link, port: nat, token: nat, rc: int, coasted: bool)
    requires Ownership(m)
    ensures Ownership(Ended(m, link, port, token, rc, coasted))
  {
    if Ended(m, link, port, token, rc, coasted) != m {
      CommandedKeeps(m, link, port, false);
    }
  }

  lemma StopKeeps(m: Motors, link: Link)
    requires Ownership(m)
    ensures Ownership(m.(backend := StopOwned(m.backend, link)))
    ensures forall p | 0 <= p < PORTS && m.backend.Row(link)[p] :: StopOwned(m.backend, link).token[p] == 0
  {
    var n := m.(backend := StopOwned(m.backend, link));
    forall p | 0 <= p < PORTS && n.backend.token[p] != 0 ensures Genuine(n, p) {
      assert Genuine(m, p);
    }
  }

  lemma ReportKeeps(m: Motors, link: Link, connected: bool, generation: nat)
    requires Ownership(m)
    ensures Ownership(m.(backend := LinkReport(m.backend, link, connected, generation)))
  {
    var n := m.(backend := LinkReport(m.backend, link, connected, generation));
    StopKeeps(m, link);
    var stopped := if ReportStops(m.backend, link, connected, generation) then StopOwned(m.backend, link)
      else m.backend;
    forall p | 0 <= p < PORTS && n.backend.token[p] != 0 ensures Genuine(n, p) {
      assert Genuine(m.(backend := stopped), p);
    }
  }

  lemma OwnershipStep(s: System, step: Step)
    requires Shaped(s) && Ownership(s.motors) && Enabled(s, step)
    ensures Ownership(MotorsStep(s, step))
  {
    hide Ownership, Commanded, Ended, LinkReport, Shutdown;
    var m := s.motors;
    match step
    case Command(link, port, running, rc) => if rc == 0 { CommandedKeeps(m, link, port, running); }
    case EndCall(link, port, token, rc, coasted) => EndedKeeps(m, link, port, token, rc, coasted);
    case Report(link, connected, generation) => ReportKeeps(m, link, connected, generation);
    case ShutdownStep => ShutdownKeeps(m);
    case Start(port, request, _, rc, _) =>
      if !s.runs.pending[port].active && rc == 0 { CommandedKeeps(m, Classic, port, Driven(request) != 0); }
    case EndStep(t, rc, coasted) =>
      var next := NextEnd(s.runs.threads[t]);
      if next.Some? { EndedKeeps(m, Classic, next.value.port, next.value.token, rc, coasted); }
    case _ =>
  }

  lemma ShutdownKeeps(m: Motors)
    requires Ownership(m)
    ensures Ownership(m.(backend := Shutdown(m.backend)))
    ensures forall p | 0 <= p < PORTS :: Shutdown(m.backend).token[p] == 0
  {
    StopKeeps(m, Classic);
    StopKeeps(m.(backend := StopOwned(m.backend, Classic)), Ble);
  }

  // ---- Tokens only grow ---------------------------------------------------------------------

  /** No step brings back a token once it is out of force. */
  lemma TokenStep(s: System, step: Step, p: nat)
    requires Shaped(s) && Ownership(s.motors) && Enabled(s, step) && p < PORTS
    ensures var b, c := s.motors.backend, MotorsStep(s, step).backend;
      && c.Sized() && b.nextToken <= c.nextToken
      && (c.token[p] == b.token[p] || c.token[p] == 0 || c.token[p] > b.nextToken)
  {
  }

  /** The step ends whatever ownership of port `p` was in force: a successful command to the port
      by either link, a successful end under the token in force, the shutdown, or a report of the owning
      link: a connect under another generation than a nonzero one, or a disconnect of its generation. */
  predicate Touches(s: System, step: Step, p: nat)
    requires Shaped(s) && Enabled(s, step) && p < PORTS
  {
    var b := s.motors.backend;
    match step
    case Command(_, port, _, rc) => rc == 0 && port == p
    case EndCall(link, port, token, rc, coasted) => port == p && Releases(b, link, p, token, rc, coasted)
    case Report(link, connected, generation) =>
      && b.Row(link)[p]
      && (if connected then b.Generation(link) != 0 && b.Generation(link) != generation
          else b.Generation(link) == generation)
    case ShutdownStep => true
    case Start(port, _, _, rc, _) => port == p && rc == 0 && !s.runs.pending[port].active
    case EndStep(t, rc, coasted) =>
      var next := NextEnd(s.runs.threads[t]);
      next.Some? && next.value.port == p && Releases(b, Classic, p, next.value.token, rc, coasted)
    case _ => false
  }

  predicate Releases(b: Backend, link: Link, p: nat, token: nat, rc: int, coasted: bool)
    requires b.Sized() && p < PORTS
  {
    token != 0 && b.Held(link, p, token) && (rc == 0 || ((rc == ENODEV || rc == EAGAIN) && coasted))
  }

  /** A token in force survives a step exactly when the step does not touch its port. */
  lemma TouchedExactly(s: System, step: Step, p: nat)
    requires Shaped(s) && Ownership(s.motors) && Enabled(s, step) && p < PORTS
    requires s.motors.backend.token[p] != 0
    ensures MotorsStep(s, step).backend.Sized()
    ensures MotorsStep(s, step).backend.token[p] == s.motors.backend.token[p] <==> !Touches(s, step, p)
  {
    assert Genuine(s.motors, p);
    assert s.motors.backend.token[p] <= s.motors.backend.nextToken;
  }
}
