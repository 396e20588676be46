/** Degrees runs: displacement from wrapped readings, and the bound on polling. */
module MotorEncoder {
  import opened Basics
  import opened MotorModel

  const HALF := 0x8000_0000
  const RANGE := 0x1_0000_0000

  // ---- One sample -------------------------------------------------------------------------

  lemma ModUnique(x: int, k: int, r: int)
    requires r == x + k * RANGE && 0 <= r < RANGE
    ensures x % RANGE == r
  {
  }

  /** The difference of two wrapped readings is the wrapped difference of the positions. */
  lemma RawDeltaOfWrapped(x: int, y: int)
    ensures RawDelta(Wrap32(y), Wrap32(x)) == (y - x) % RANGE
  {
    var j: int :| Wrap32(x) == x + j * RANGE;
    var k: int :| Wrap32(y) == y + k * RANGE;
    var q := (y - x) / RANGE;
    hide Wrap32;
    ModUnique(Wrap32(y) - Wrap32(x), j - k - q, (y - x) % RANGE);
  }

  lemma SmallMod(d: int)
    requires -HALF < d < HALF
    ensures d % RANGE == if d >= 0 then d else d + RANGE
  {
    if d >= 0 { ModUnique(d, 0, d); } else { ModUnique(d, 1, d + RANGE); }
  }

  lemma WrappedEqual(x: int, y: int)
    requires -HALF < y - x < HALF
    ensures Wrap32(x) == Wrap32(y) <==> x == y
  {
    RawDeltaOfWrapped(x, y);
    SmallMod(y - x);
    if Wrap32(x) == Wrap32(y) {
      ModUnique(Wrap32(y) - Wrap32(x), 0, 0);
    }
  }

  /** A fresh sample less than half the counter's range away is accounted for exactly. */
  lemma SampleExact(p: Pending, now: nat, x: int, y: int)
    requires p.lastPosition == Wrap32(x) && -HALF < y - x < HALF
    ensures var (q, rc) := Sampled(p, now, Encoder(0, Wrap32(y)));
      rc == 0 && q.displacement == p.displacement + (y - x) && q.lastPosition == Wrap32(y)
  {
    RawDeltaOfWrapped(x, y);
    SmallMod(y - x);
    WrappedEqual(x, y);
    hide Wrap32, RawDelta;
  }

  /** The exact reach of the accounting: no error and the true difference, exactly when the two
      positions are less than half the range apart; exactly half is refused. */
  lemma SampleExactOnlyBelowHalf(p: Pending, now: nat, x: int, y: int)
    requires p.lastPosition == Wrap32(x)
    ensures var (q, rc) := Sampled(p, now, Encoder(0, Wrap32(y)));
      && (rc == 0 && q.displacement == p.displacement + (y - x) <==> -HALF < y - x < HALF)
      && ((y - x) % RANGE == HALF ==> rc == EOVERFLOW && q == p)
  {
    RawDeltaOfWrapped(x, y);
    if -HALF < y - x < HALF {
      SampleExact(p, now, x, y);
      SmallMod(y - x);
    } else {
      SampleStep(p, now, x, y);
    }
  }

  /** Whatever the sample, the displacement changes by less than half the range. */
  lemma SampleStep(p: Pending, now: nat, x: int, y: int)
    requires p.lastPosition == Wrap32(x)
    ensures var (q, rc) := Sampled(p, now, Encoder(0, Wrap32(y)));
      && -HALF < q.displacement - p.displacement < HALF
      && ((y - x) % RANGE == HALF ==> rc == EOVERFLOW && q == p)
  {
    RawDeltaOfWrapped(x, y);
    if Wrap32(x) == Wrap32(y) { ModUnique(Wrap32(y) - Wrap32(x), 0, 0); }
    hide Wrap32;
  }

  // ---- A whole run ------------------------------------------------------------------------

  /** One visit of the timer to the run's port; `position` is where the motor really is. */
  datatype Poll = Poll(first: nat, now: nat, updated: bool, position: int)
  {
    function Reading(): Encoder { if updated then Encoder(0, Wrap32(position)) else Encoder(EAGAIN, 0) }

    function AsVisit(): Visit { Visit(first, now, Reading()) }
  }

  /** The run after the polls; None once one of them has ended it. */
  function After(p: Pending, polls: seq<Poll>): Option<Pending> {
    if polls == [] then Some(p)
    else
      var last := polls[|polls| - 1];
      match After(p, polls[..|polls| - 1])
      case None => None
      case Some(q) =>
        match LookAt(q, last.first, last.now, last.Reading())
        case NotDue => Some(q)
        case Continue(r) => Some(r)
        case Finish(_, _) => None
  }

  /** The true position at the last fresh sample that was folded in, `x` before any. */
  function Seen(p: Pending, x: int, polls: seq<Poll>): int {
    if polls == [] then x
    else
      var last, front := polls[|polls| - 1], polls[..|polls| - 1];
      var before := After(p, front);
      if before.Some? && last.updated && before.value.deadline <= last.first then last.position else Seen(p, x, front)
  }

  /** When the last poll that found the motor at another position was made, `start` before any. */
  function Moved(p: Pending, x: int, polls: seq<Poll>, start: nat): nat {
    if polls == [] then start
    else
      var last, front := polls[|polls| - 1], polls[..|polls| - 1];
      if Seen(p, x, polls) != Seen(p, x, front) then last.now else Moved(p, x, front, start)
  }

  /** Successive fresh samples are less than half the counter's range apart. */
  predicate Followable(p: Pending, x: int, polls: seq<Poll>) {
    polls == [] ||
    (var last, front := polls[|polls| - 1], polls[..|polls| - 1];
     && Followable(p, x, front)
     && (last.updated ==> -HALF < last.position - Seen(p, x, front) < HALF))
  }

  lemma SampleOfPoll(q: Pending, poll: Poll, x: int)
    requires q.lastPosition == Wrap32(x) && (poll.updated ==> -HALF < poll.position - x < HALF)
    ensures var (r, rc) := Sampled(q, poll.now, poll.Reading());
      var y := if poll.updated then poll.position else x;
      rc == 0 && r.displacement == q.displacement + (y - x) && r.lastPosition == Wrap32(y)
      && r.direction == q.direction && r.target == q.target && r.active == q.active && r.degrees == q.degrees
      && r.expires == q.expires && r.progress == if y == x then q.progress else poll.now
  {
    if poll.updated {
      SampleExact(q, poll.now, x, poll.position);
      WrappedEqual(x, poll.position);
    }
    hide Wrap32, RawDelta;
  }

  /** Throughout a run the displacement is the true one, although only wrapped readings are seen. */
  lemma {:induction false} DisplacementExact(p: Pending, x: int, polls: seq<Poll>)
    requires p.active && p.degrees && p.lastPosition == Wrap32(x) && p.displacement == 0 && Followable(p, x, polls)
    ensures After(p, polls).Some? ==>
      var q := After(p, polls).value;
      && q.displacement == Seen(p, x, polls) - x && q.lastPosition == Wrap32(Seen(p, x, polls))
      && q.active && q.degrees && q.direction == p.direction && q.target == p.target
      && q.expires == p.expires && q.progress == Moved(p, x, polls, p.progress)
  {
    if polls != [] {
      var last, front := polls[|polls| - 1], polls[..|polls| - 1];
      DisplacementExact(p, x, front);
      if After(p, front).Some? {
        var q := After(p, front).value;
        SampleOfPoll(q, last, Seen(p, x, front));
        hide Sampled, Wrap32, Followable;
      }
    }
  }

  /** A due poll reports success exactly when the motor has truly gone the requested way. */
  lemma SucceedsExactlyWhenReached(p: Pending, x: int, polls: seq<Poll>, poll: Poll)
    requires p.active && p.degrees && p.lastPosition == Wrap32(x) && p.displacement == 0
    requires Followable(p, x, polls + [poll]) && After(p, polls).Some? && After(p, polls).value.deadline <= poll.first
    ensures var look := LookAt(After(p, polls).value, poll.first, poll.now, poll.Reading());
      (look.Finish? && look.motion == 0) <==> (Seen(p, x, polls + [poll]) - x) * p.direction >= p.target
  {
    hide *;
    LastPoll(p, x, polls, poll);
    DisplacementExact(p, x, polls);
    var q := After(p, polls).value;
    SampleOfPoll(q, poll, Seen(p, x, polls));
    LookSucceeds(q, poll.first, poll.now, poll.Reading());
  }

  /** It goes on exactly when it has not, is young enough and has moved lately. */
  lemma ContinuesExactlyWhileProgressing(p: Pending, x: int, polls: seq<Poll>, poll: Poll)
    requires p.active && p.degrees && p.lastPosition == Wrap32(x) && p.displacement == 0
    requires Followable(p, x, polls + [poll]) && After(p, polls).Some? && After(p, polls).value.deadline <= poll.first
    ensures LookAt(After(p, polls).value, poll.first, poll.now, poll.Reading()).Continue? <==>
      && (Seen(p, x, polls + [poll]) - x) * p.direction < p.target
      && poll.now < p.expires && poll.now - Moved(p, x, polls + [poll], p.progress) < 1000
  {
    hide *;
    LastPoll(p, x, polls, poll);
    DisplacementExact(p, x, polls);
    var q := After(p, polls).value;
    SampleOfPoll(q, poll, Seen(p, x, polls));
    LookContinues(q, poll.first, poll.now, poll.Reading());
    LastMoved(p, x, polls, poll);
  }

  lemma LastMoved(p: Pending, x: int, polls: seq<Poll>, poll: Poll)
    ensures Moved(p, x, polls + [poll], p.progress) ==
      if Seen(p, x, polls + [poll]) != Seen(p, x, polls) then poll.now else Moved(p, x, polls, p.progress)
  {
    assert (polls + [poll])[..|polls|] == polls;
    hide Seen;
  }

  lemma LookContinues(q: Pending, first: nat, now: nat, e: Encoder)
    requires q.active && q.degrees && q.deadline <= first
    ensures var (r, rc) := Sampled(q, now, e);
      LookAt(q, first, now, e).Continue? <==>
        rc == 0 && r.displacement * r.direction < r.target && now < q.expires && now - r.progress < 1000
  {
    hide Sampled;
  }

  /** What a further poll adds to a path and asks of it. */
  lemma LastPoll(p: Pending, x: int, polls: seq<Poll>, poll: Poll)
    requires Followable(p, x, polls + [poll]) && After(p, polls).Some? && After(p, polls).value.deadline <= poll.first
    ensures Followable(p, x, polls) && (poll.updated ==> -HALF < poll.position - Seen(p, x, polls) < HALF)
    ensures Seen(p, x, polls + [poll]) == if poll.updated then poll.position else Seen(p, x, polls)
  {
    assert (polls + [poll])[..|polls|] == polls;
    hide After;
  }

  /** A due look at a degrees run reports success exactly when the sample is good and far enough. */
  lemma LookSucceeds(q: Pending, first: nat, now: nat, e: Encoder)
    requires q.active && q.degrees && q.deadline <= first
    ensures var (r, rc) := Sampled(q, now, e);
      var look := LookAt(q, first, now, e);
      (look.Finish? && look.motion == 0) <==> rc == 0 && r.displacement * r.direction >= r.target
  {
    hide Sampled;
  }

  // ---- How long a run can be continued ------------------------------------------------------

  /** How many of the visits continued the run. */
  function Continued(p: Pending, visits: seq<Visit>): nat {
    if visits == [] then 0
    else
      var last, front := visits[|visits| - 1], visits[..|visits| - 1];
      var before := AfterVisits(p, front);
      Continued(p, front)
      + if before.Some? && LookAt(before.value, last.first, last.now, last.encoder).Continue? then 1 else 0
  }

  /** A visit with any encoder behaviour whatever. */
  datatype Visit = Visit(first: nat, now: nat, encoder: Encoder)

  function AfterVisits(p: Pending, visits: seq<Visit>): Option<Pending> {
    if visits == [] then Some(p)
    else
      var last := visits[|visits| - 1];
      match AfterVisits(p, visits[..|visits| - 1])
      case None => None
      case Some(q) =>
        match LookAt(q, last.first, last.now, last.encoder)
        case NotDue => Some(q)
        case Continue(r) => Some(r)
        case Finish(_, _) => None
  }

  lemma ContinueMovesDeadline(q: Pending, v: Visit)
    requires v.first <= v.now
    ensures var look := LookAt(q, v.first, v.now, v.encoder);
      look.Continue? ==>
        q.deadline + POLL_MS <= look.run.deadline && look.run.deadline < q.expires + POLL_MS
          && look.run.expires == q.expires
  {
    hide RawDelta;
  }

  lemma {:induction false} DeadlinesAdvance(p: Pending, visits: seq<Visit>)
    requires forall v | v in visits :: v.first <= v.now
    ensures AfterVisits(p, visits).Some? ==>
      var q := AfterVisits(p, visits).value;
      q.expires == p.expires && q.deadline >= p.deadline + POLL_MS * Continued(p, visits)
    ensures Continued(p, visits) > 0 ==> p.deadline + POLL_MS * Continued(p, visits) < p.expires + POLL_MS
    ensures AfterVisits(p, visits).None? && visits != [] ==>
      Continued(p, visits) == Continued(p, visits[..|visits| - 1])
  {
    if visits != [] {
      var last, front := visits[|visits| - 1], visits[..|visits| - 1];
      assert last in visits && forall v | v in front :: v in visits;
      DeadlinesAdvance(p, front);
      if AfterVisits(p, front).Some? {
        ContinueMovesDeadline(AfterVisits(p, front).value, last);
        hide LookAt;
      }
    }
  }

  /** For any encoder behaviour a degrees run is continued by fewer than 3000 polls. */
  lemma PollsBounded(r: Request, start: nat, generation: nat, token: nat, visits: seq<Visit>)
    requires r.Degrees? && forall v | v in visits :: v.first <= v.now
    ensures Continued(NewRun(r, start, generation, token), visits) < 3000
  {
    DeadlinesAdvance(NewRun(r, start, generation, token), visits);
    hide Continued, AfterVisits;
  }
}
