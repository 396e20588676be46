/** The two files' tables in their own form: arrays updated in place under a lock. */
module MotorObjects {
  import opened Basics
  import opened MotorModel
  import opened MotorOwnership

  /** The ownership table of the back end. */
  class OwnershipTable {
    const classic: array<bool>
    const ble: array<bool>
    const token: array<nat>
    var classicGeneration: nat
    var bleGeneration: nat
    var nextToken: nat

    ghost predicate Valid()
      reads this
    {
      classic != ble && classic.Length == PORTS && ble.Length == PORTS && token.Length == PORTS
    }

    ghost function Value(): (b: Backend)
      reads this, classic, ble, token
      requires Valid()
      ensures b.Sized()
    {
      Backend(classic[..], ble[..], token[..], classicGeneration, bleGeneration, nextToken)
    }

    constructor ()
      ensures Valid() && fresh(classic) && fresh(ble) && fresh(token)
      ensures OneOwner(Value()) && nextToken == 0
    {
      classic := new bool[PORTS](_ => false);
      ble := new bool[PORTS](_ => false);
      token := new nat[PORTS](_ => 0);
      classicGeneration, bleGeneration, nextToken := 0, 0, 0;
    }

    function Row(link: Link): array<bool>
      reads this
    {
      if link.Classic? then classic else ble
    }

    method SetMotorOwner(link: Link, port: nat, running: bool) returns (granted: nat)
      requires Valid() && port < PORTS
      modifies this`nextToken, classic, ble, token
      ensures Valid() && Value() == SetOwner(old(Value()), link, port, running)
      ensures granted == if running then nextToken else 0
    {
      classic[port] := false;
      ble[port] := false;
      token[port] := 0;
      granted := 0;
      if running {
        nextToken := nextToken + 1;
        var row := Row(link);
        row[port] := true;
        token[port] := nextToken;
        granted := nextToken;
      }
    }

    method EndMotorIfOwned(link: Link, port: nat, held: nat, rc: int, coasted: bool)
      returns (result: int, actuated: bool)
      requires Valid()
      modifies this`nextToken, classic, ble, token
      ensures Valid() && EndResult(Value(), result, actuated) == EndOwned(old(Value()), link, port, held, rc, coasted)
    {
      if port >= PORTS || held == 0 { return EINVAL, false; }
      var row := Row(link);
      if !row[port] || token[port] != held { return ESTALE, false; }
      result, actuated := rc, true;
      if (rc == ENODEV || rc == EAGAIN) && coasted {
        var _ := SetMotorOwner(link, port, false);
      }
      if rc == 0 {
        var _ := SetMotorOwner(link, port, false);
      }
    }

    /** `stopped` lists, in order, the ports that were sent a stop. */
    method StopOwned(link: Link) returns (stopped: seq<nat>)
      requires Valid()
      modifies this`nextToken, classic, ble, token
      ensures Valid() && Value() == MotorModel.StopOwned(old(Value()), link)
      ensures forall p: nat :: p in stopped <==> p < PORTS && old(Value()).Row(link)[p]
    {
      var row := Row(link);
      stopped := [];
      for port := 0 to PORTS
        invariant Valid() && row == Row(link)
        invariant forall p :: 0 <= p < PORTS ==> row[p] == (p >= port && old(Value()).Row(link)[p])
        invariant forall p :: 0 <= p < PORTS ==>
          token[p] == if p < port && old(Value()).Row(link)[p] then 0 else old(token[p])
        invariant link.Classic? ==> ble[..] == old(ble[..])
        invariant link.Ble? ==> classic[..] == old(classic[..])
        invariant nextToken == old(nextToken) && classicGeneration == old(classicGeneration)
          && bleGeneration == old(bleGeneration)
        invariant forall p: nat :: p in stopped <==> p < port && old(Value()).Row(link)[p]
      {
        if row[port] {
          row[port] := false;
          token[port] := 0;
          stopped := stopped + [port];
        }
      }
      assert row[..] == NO_PORTS;
      assert token[..] == Cleared(old(token[..]), old(Value()).Row(link));
    }

    method LinkState(link: Link, connected: bool, generation: nat)
      requires Valid()
      modifies this, classic, ble, token
      ensures Valid() && Value() == LinkReport(old(Value()), link, connected, generation)
    {
      var current := if link.Classic? then classicGeneration else bleGeneration;
      if connected {
        if current != 0 && current != generation {
          var _ := StopOwned(link);
        }
        if link.Classic? { classicGeneration := generation; } else { bleGeneration := generation; }
      } else if current == generation {
        var _ := StopOwned(link);
      }
    }

    method ShutDown()
      requires Valid()
      modifies this`nextToken, classic, ble, token
      ensures Valid() && Value() == Shutdown(old(Value()))
    {
      var _ := StopOwned(Classic);
      var _ := StopOwned(Ble);
    }
  }

  /** The pending runs of the Classic adapter. */
  class PendingRuns {
    const pending: array<Pending>
    var generation: nat

    ghost predicate Valid()
      reads this
    {
      pending.Length == PORTS
    }

    constructor ()
      ensures Valid() && fresh(pending) && pending[..] == NONE_PENDING && generation == 0
    {
      pending := new Pending[PORTS](_ => IDLE);
      generation := 0;
    }

    /** The record part of start_timed and start_degrees, once the motor has been commanded. */
    method Admit(port: nat, request: Request, now: nat, token: nat)
      requires Valid() && port < PORTS
      modifies this`generation, pending
      ensures generation == old(generation) + 1
      ensures pending[..] == old(pending[..])[port := NewRun(request, now, generation, token)]
    {
      generation := generation + 1;
      var run := IDLE;
      if request.Timed? {
        run := run.(deadline := now + request.time, generation := generation, token := token);
      } else {
        run := run.(degrees := true, lastPosition := request.baseline,
                    target := if request.angle < 0 then -request.angle else request.angle,
                    direction := if Driven(request) < 0 then -1 else 1,
                    expires := now + TIMED_MAX_MS, progress := now, deadline := now + POLL_MS,
                    token := token, generation := generation);
      }
      pending[port] := run.(id := request.id, endState := request.endState, active := true);
    }

    /** The first region of the timer's visit to a port: the record is updated field by field. */
    method Visit(port: nat, first: nat, now: nat, encoder: Encoder) returns (look: Look)
      requires Valid() && port < PORTS && first <= now
      modifies pending
      ensures look == LookAt(old(pending[port]), first, now, encoder)
      ensures pending[..] == old(pending[..])[port := if look.NotDue? then old(pending[port]) else look.run]
    {
      var completed := pending[port];
      if !completed.active || completed.deadline > first { return NotDue; }
      var rc := 0;
      if completed.degrees {
        var measured := if encoder.rc == 0 then encoder.measured else completed.lastPosition;
        rc := if encoder.rc == EAGAIN then 0 else encoder.rc;
        if rc == 0 && measured != completed.lastPosition {
          var raw := RawDelta(measured, completed.lastPosition);
          if raw == 0x8000_0000 {
            rc := EOVERFLOW;
          } else {
            var delta := if raw < 0x8000_0000 then raw else raw - 0x1_0000_0000;
            pending[port] := pending[port].(displacement := pending[port].displacement + delta,
                                            lastPosition := measured, progress := now);
          }
        }
        var reached := pending[port].displacement * completed.direction >= completed.target;
        if rc == 0 && !reached && now < completed.expires && now - pending[port].progress < NO_PROGRESS_MS {
          pending[port] := pending[port].(deadline := now + POLL_MS);
          return Continue(pending[port]);
        }
        if rc == 0 && !reached { rc := ETIMEDOUT; }
      }
      return Finish(pending[port], rc);
    }

    /** The second region: only the visit whose run is still there takes it. */
    method Claim(port: nat, completed: Pending) returns (owned: bool)
      requires Valid() && port < PORTS
      modifies pending
      ensures owned <==> old(pending[port]).active && old(pending[port]).generation == completed.generation
      ensures pending[..] == if owned then old(pending[..])[port := old(pending[port]).(active := false)]
        else old(pending[..])
    {
      owned := false;
      if pending[port].active && pending[port].generation == completed.generation {
        pending[port] := pending[port].(active := false);
        owned := true;
      }
    }

    /** Takes every run off its port. */
    method TakeAll() returns (taken: seq<Pending>)
      requires Valid()
      modifies pending
      ensures taken == old(pending[..]) && pending[..] == NONE_PENDING
    {
      taken := pending[..];
      for port := 0 to PORTS
        invariant forall p :: 0 <= p < port ==> pending[p] == IDLE
      {
        pending[port] := IDLE;
      }
    }

    /** The timer delay that arm_next_locked asks for. */
    method NextDelay(now: nat) returns (delay: Option<nat>)
      requires Valid()
      ensures delay == Delay(pending[..], now)
    {
      var earliest := UINT64_MAX;
      for port := 0 to PORTS
        invariant earliest == Earliest(pending[..port])
      {
        assert pending[..port + 1][..port] == pending[..port];
        if pending[port].active && pending[port].deadline < earliest { earliest := pending[port].deadline; }
      }
      assert pending[..PORTS] == pending[..];
      if earliest == UINT64_MAX { return None; }
      return Some(if earliest <= now then 1 else if earliest - now > UINT32_MAX then UINT32_MAX else earliest - now);
    }
  }
}
