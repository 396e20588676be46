/** The scheduler's tables in their own form: a slot array and watch records changed in place. */
module SchedulerTable {
  import opened Basics
  import opened SchedulerModel

  class Table {
    const slots: array<Option<nat>>
    var watches: Watches

    constructor ()
      ensures fresh(slots) && slots.Length == MAX_WATCHES && watches == map[]
      ensures forall i | 0 <= i < slots.Length :: slots[i].None?
    {
      slots := new Option<nat>[MAX_WATCHES](_ => None);
      watches := map[];
    }

    /** watch_start: the first NULL slot, or -ENOSPC. */
    method StartWatch(w: nat, fd: int) returns (ok: bool)
      modifies this`watches, slots
      ensures var r := Started(old(slots[..]), old(watches), w, fd);
        && (ok <==> r.Some?)
        && (if ok then slots[..] == r.value.0 && watches == r.value.1
            else slots[..] == old(slots[..]) && watches == old(watches))
      ensures ok <==> exists i | 0 <= i < slots.Length :: old(slots[i]).None?
      ensures ok ==> Some(w) in slots[..] && w in watches && watches[w] == Watch(fd, true, false, false)
    {
      for i := 0 to slots.Length
        invariant slots[..] == old(slots[..])
        invariant FreeSlot(slots[..], 0) == FreeSlot(slots[..], i)
      {
        if slots[i].None? {
          slots[i] := Some(w);
          watches := watches[w := Watch(fd, true, false, false)];
          return true;
        }
      }
      return false;
    }

    /** The end of watch_stop: the first slot that holds the watch is cleared. */
    method RemoveWatch(w: nat)
      modifies slots
      ensures slots[..] == Removed(old(slots[..]), w)
    {
      var i := 0;
      while i < slots.Length && slots[i] != Some(w)
        invariant 0 <= i <= slots.Length
        invariant forall k | 0 <= k < i :: slots[k] != Some(w)
        invariant slots[..] == old(slots[..])
      {
        i := i + 1;
      }
      RemovedAt(slots[..], w, i);
      if i < slots.Length { slots[i] := None; }
    }

    /** The worker's first region: the round of active watches, each marked as being polled. */
    method BuildRound() returns (round: seq<nat>)
      modifies this`watches
      ensures round == RoundOf(slots[..], old(watches), slots.Length)
      ensures watches == Marked(old(watches), round, true)
    {
      round := [];
      MarkedNone(watches);
      for i := 0 to slots.Length
        invariant round == RoundOf(slots[..], old(watches), i)
        invariant watches == Marked(old(watches), round, true)
      {
        if slots[i].Some? && slots[i].value in watches && watches[slots[i].value].active {
          var w := slots[i].value;
          MarkedOne(old(watches), round, w, true);
          watches := watches[w := watches[w].(polling := true)];
          round := round + [w];
        }
      }
    }

    /** The end of a round: no watch of it is polled any longer. */
    method EndRound(round: seq<nat>)
      requires forall w | w in round :: w in watches
      modifies this`watches
      ensures watches == Marked(old(watches), round, false)
    {
      MarkedNone(watches);
      for i := 0 to |round|
        invariant watches == Marked(old(watches), round[..i], false)
      {
        assert round[i] in round && round[..i + 1] == round[..i] + [round[i]];
        MarkedOne(old(watches), round[..i], round[i], false);
        watches := watches[round[i] := watches[round[i]].(polling := false)];
      }
      assert round[..|round|] == round;
    }
  }

  lemma {:induction false} RemovedAt(slots: Slots, w: nat, i: nat)
    requires i <= |slots| && (forall k | 0 <= k < i :: slots[k] != Some(w)) && (i < |slots| ==> slots[i] == Some(w))
    ensures Removed(slots, w) == if i < |slots| then slots[i := None] else slots
    decreases i
  {
    if slots != [] {
      var head, rest := slots[0], slots[1..];
      assert slots == [head] + rest;
      if i == 0 {
        assert slots[0 := None] == [None] + rest;
      } else {
        assert forall k | 0 <= k < |rest| :: rest[k] == slots[k + 1];
        RemovedAt(rest, w, i - 1);
        assert i < |slots| ==> slots[i := None] == [head] + rest[i - 1 := None];
        assert Removed(slots, w) == [head] + Removed(rest, w);
        hide Removed;
      }
    }
  }

  lemma MarkedNone(watches: Watches)
    ensures Marked(watches, [], true) == watches && Marked(watches, [], false) == watches
  {
  }

  lemma MarkedOne(watches: Watches, round: seq<nat>, w: nat, polling: bool)
    requires w in watches
    ensures Marked(watches, round + [w], polling) ==
            Marked(watches, round, polling)[w := Marked(watches, round, polling)[w].(polling := polling)]
  {
  }
}
