/** The two-pass image equals the recursive one, and the whole volume reads back. */
module RomfsImage {
  import opened Basics
  import opened Octets
  import opened RomfsModel
  import opened RomfsWriter
  import opened RomfsRecords
  import opened RomfsRoundTrip

  // ---- Two passes over flattened nodes == recursion on the tree ------------------------------

  lemma RecordsEmpty(nodes: seq<Node>, start: nat, i: nat)
    requires i <= |nodes| && Linked(nodes)
    ensures Records(nodes, start, i, i) == []
  {
  }

  lemma {:induction false} RecordsConcat(nodes: seq<Node>, start: nat, a: nat, b: nat, c: nat)
    requires a <= b <= c <= |nodes| && Linked(nodes)
    ensures Records(nodes, start, a, c) == Records(nodes, start, a, b) + Records(nodes, start, b, c)
    decreases c
  {
    hide *;
    if b == c {
      RecordsEmpty(nodes, start, b);
    } else {
      RecordsConcat(nodes, start, a, b, c - 1);
      RecordsNext(nodes, start, a, c - 1);
      RecordsNext(nodes, start, b, c - 1);
      Associative(Records(nodes, start, a, b), Records(nodes, start, b, c - 1), NodeRecord(nodes, start, c - 1));
    }
  }

  lemma Associative(x: Bytes, y: Bytes, z: Bytes)
    ensures x + y + z == x + (y + z)
  {
  }

  lemma RecordsOne(nodes: seq<Node>, start: nat, i: nat)
    requires i < |nodes| && Linked(nodes)
    ensures Records(nodes, start, i, i + 1) == NodeRecord(nodes, start, i)
  {
    hide *;
    RecordsEmpty(nodes, start, i);
    RecordsNext(nodes, start, i, i);
  }

  /** The record of a node that is known, in terms of where its links lead. */
  lemma NodeRecordIs(nodes: seq<Node>, start: nat, i: nat, n: Node)
    requires i < |nodes| && Linked(nodes) && nodes[i] == n
    ensures InRange(nodes, n.following) && InRange(nodes, n.special)
    ensures NodeRecord(nodes, start, i) ==
      Record(ModeWord(Target(nodes, start, n.following), n.kind, n.exec), Target(nodes, start, n.special), n.name,
             n.data)
    ensures Offset(nodes, start, i + 1) == Offset(nodes, start, i) + RecordLen(n.name, n.data)
  {
    hide Record, ModeWord, RecordLen;
  }

  /** `part` is the stretch of `nodes` from `base` on. */
  predicate Holds(nodes: seq<Node>, base: nat, part: seq<Node>) {
    base + |part| <= |nodes| && nodes[base..base + |part|] == part
  }

  lemma HoldsSplit(nodes: seq<Node>, base: nat, a: seq<Node>, b: seq<Node>)
    requires Holds(nodes, base, a + b)
    ensures Holds(nodes, base, a) && Holds(nodes, base + |a|, b)
  {
    assert nodes[base..base + |a|] == nodes[base..base + |a + b|][..|a|];
    assert nodes[base + |a|..base + |a| + |b|] == nodes[base..base + |a + b|][|a|..];
  }

  lemma HoldsBound(nodes: seq<Node>, base: nat, part: seq<Node>)
    requires Holds(nodes, base, part)
    ensures base + |part| <= |nodes|
  {
  }

  lemma {:induction false} FlattenEmits(nodes: seq<Node>, start: nat, t: Tree, base: nat, following: Option<nat>,
                                        parent: nat)
    requires Linked(nodes) && InRange(nodes, following) && parent < |nodes|
    requires Holds(nodes, base, Flatten(t, base, following, parent))
    ensures Offset(nodes, start, base + Size(t)) == Offset(nodes, start, base) + Extent(t)
    ensures Records(nodes, start, base, base + Size(t)) ==
            Emit(t, Offset(nodes, start, base), Target(nodes, start, following), Offset(nodes, start, parent))
    decreases t, 0
  {
    hide *;
    if t.Dir? {
      DirEmits(nodes, start, t, base, following, parent);
    } else {
      var n := LeafFlattens(t, base, following, parent);
      HoldsOne(nodes, base, n);
      NodeRecordIs(nodes, start, base, n);
      NoTarget(nodes, start);
      LeafEmits(t, Offset(nodes, start, base), Target(nodes, start, following), Offset(nodes, start, parent), n);
      RecordsOne(nodes, start, base);
    }
  }

  lemma HoldsOne(nodes: seq<Node>, base: nat, n: Node)
    requires Holds(nodes, base, [n])
    ensures base < |nodes| && nodes[base] == n
  {
    assert nodes[base] == nodes[base..base + 1][0];
  }

  lemma NoTarget(nodes: seq<Node>, start: nat)
    ensures InRange(nodes, None) && Target(nodes, start, None) == 0
  {
  }

  lemma LeafFlattens(t: Tree, base: nat, following: Option<nat>, parent: nat) returns (n: Node)
    requires !t.Dir?
    ensures Flatten(t, base, following, parent) == [n] && Size(t) == 1
    ensures n == Node(t.name, if t.File? then 2 else 3, t.File? && t.exec, t.data, following, None)
  {
    n := Flatten(t, base, following, parent)[0];
  }

  lemma LeafEmits(t: Tree, off: nat, next: nat, parent: nat, n: Node)
    requires !t.Dir? && n.name == t.name && n.data == t.data
    requires n.kind == (if t.File? then 2 else 3) && n.exec == (t.File? && t.exec)
    ensures Extent(t) == RecordLen(n.name, n.data)
    ensures Emit(t, off, next, parent) == Record(ModeWord(next, n.kind, n.exec), 0, n.name, n.data)
  {
    hide Record, RecordLen, ModeWord;
  }

  lemma {:induction false} DirEmits(nodes: seq<Node>, start: nat, t: Tree, base: nat, following: Option<nat>,
                                    parent: nat)
    requires t.Dir? && Linked(nodes) && InRange(nodes, following) && parent < |nodes|
    requires Holds(nodes, base, Flatten(t, base, following, parent))
    ensures Offset(nodes, start, base + Size(t)) == Offset(nodes, start, base) + Extent(t)
    ensures Records(nodes, start, base, base + Size(t)) ==
            Emit(t, Offset(nodes, start, base), Target(nodes, start, following), Offset(nodes, start, parent))
    decreases t.children, 2
  {
    hide *;
    HoldsBound(nodes, base, Flatten(t, base, following, parent));
    var off := Offset(nodes, start, base);
    SizeDir(t);
    HeadEmits(nodes, start, t, base, following, parent);
    FlattenAllEmits(nodes, start, t.children, base + 3, base);
    RecordsConcat(nodes, start, base, base + 3, base + Size(t));
    ExtentDir(t);
    EntriesShift(t.name, off);
    EmitDir(t, off, Target(nodes, start, following), Offset(nodes, start, parent));
  }

  lemma SizeDir(t: Tree)
    requires t.Dir?
    ensures Size(t) == 3 + SizeAll(t.children)
  {
  }

  lemma EntriesShift(name: Bytes, off: nat)
    ensures EntriesAt(name, off) == off + EntriesAt(name, 0)
  {
  }

  /** A directory's header, "." and "..". */
  lemma HeadEmits(nodes: seq<Node>, start: nat, t: Tree, base: nat, following: Option<nat>, parent: nat)
    requires t.Dir? && Linked(nodes) && InRange(nodes, following) && parent < |nodes|
    requires Holds(nodes, base, Flatten(t, base, following, parent))
    ensures Holds(nodes, base + 3, FlattenAll(t.children, base + 3, base))
    ensures Offset(nodes, start, base + 3) == EntriesAt(t.name, Offset(nodes, start, base))
    ensures Records(nodes, start, base, base + 3) ==
      DirRecords(t.name, t.exec, t.children, Offset(nodes, start, base), Target(nodes, start, following),
                 Offset(nodes, start, parent))
  {
    hide Record, RecordLen, Offset, Records, NodeRecord, Linked, FlattenAll, ModeWord;
    var a := Node(t.name, 1, t.exec, [], following, Some(base + 1));
    var b := Node(DOT, 0, false, [], Some(base + 2), Some(base));
    var c := Node(DOTDOT, 0, false, [], if t.children == [] then None else Some(base + 3), Some(parent));
    HoldsSplit(nodes, base, [a, b, c], FlattenAll(t.children, base + 3, base));
    HoldsThree(nodes, base, a, b, c);
    NodeRecordIs(nodes, start, base, a);
    NodeRecordIs(nodes, start, base + 1, b);
    NodeRecordIs(nodes, start, base + 2, c);
    ThreeRecords(nodes, start, base);
  }

  lemma HoldsThree(nodes: seq<Node>, base: nat, a: Node, b: Node, c: Node)
    requires Holds(nodes, base, [a, b, c])
    ensures base + 3 <= |nodes| && nodes[base] == a && nodes[base + 1] == b && nodes[base + 2] == c
  {
    var slice := nodes[base..base + 3];
    assert slice[0] == nodes[base] && slice[1] == nodes[base + 1] && slice[2] == nodes[base + 2];
  }

  lemma ThreeRecords(nodes: seq<Node>, start: nat, base: nat)
    requires base + 3 <= |nodes| && Linked(nodes)
    ensures Records(nodes, start, base, base + 3) ==
            NodeRecord(nodes, start, base) + NodeRecord(nodes, start, base + 1) + NodeRecord(nodes, start, base + 2)
  {
    hide *;
    RecordsOne(nodes, start, base);
    RecordsNext(nodes, start, base, base + 1);
    RecordsNext(nodes, start, base, base + 2);
  }

  lemma {:induction false} FlattenAllEmits(nodes: seq<Node>, start: nat, ts: seq<Tree>, base: nat, parent: nat)
    requires Linked(nodes) && parent < |nodes| && Holds(nodes, base, FlattenAll(ts, base, parent))
    ensures Offset(nodes, start, base + SizeAll(ts)) == Offset(nodes, start, base) + ExtentAll(ts)
    ensures Records(nodes, start, base, base + SizeAll(ts)) ==
            EmitAll(ts, Offset(nodes, start, base), Offset(nodes, start, parent))
    decreases ts, 1
  {
    hide *;
    HoldsBound(nodes, base, FlattenAll(ts, base, parent));
    if ts == [] {
      NothingFlattened(ts, Offset(nodes, start, base), Offset(nodes, start, parent));
      RecordsEmpty(nodes, start, base);
    } else {
      FlattenAllSplit(ts, base, parent);
      var rest := base + Size(ts[0]);
      var following := Follower(ts, base);
      HoldsSplit(nodes, base, Flatten(ts[0], base, following, parent), FlattenAll(ts[1..], rest, parent));
      FollowerInRange(nodes, start, ts, base, parent);
      FlattenEmits(nodes, start, ts[0], base, following, parent);
      FollowerTarget(nodes, start, ts, base);
      FlattenAllEmits(nodes, start, ts[1..], rest, parent);
      RecordsConcat(nodes, start, base, rest, rest + SizeAll(ts[1..]));
      EmitAllSplit(ts, Offset(nodes, start, base), Offset(nodes, start, parent));
      ExtentAllSplit(ts);
    }
  }

  lemma NothingFlattened(ts: seq<Tree>, off: nat, parent: nat)
    requires ts == []
    ensures SizeAll(ts) == 0 && ExtentAll(ts) == 0 && EmitAll(ts, off, parent) == []
  {
  }

  function Follower(ts: seq<Tree>, base: nat): Option<nat>
    requires ts != []
  {
    if |ts| == 1 then None else Some(base + Size(ts[0]))
  }

  lemma FlattenAllSplit(ts: seq<Tree>, base: nat, parent: nat)
    requires ts != []
    ensures FlattenAll(ts, base, parent) ==
            Flatten(ts[0], base, Follower(ts, base), parent) + FlattenAll(ts[1..], base + Size(ts[0]), parent)
    ensures SizeAll(ts) == Size(ts[0]) + SizeAll(ts[1..])
  {
    hide Flatten, Size;
  }

  lemma FollowerInRange(nodes: seq<Node>, start: nat, ts: seq<Tree>, base: nat, parent: nat)
    requires ts != [] && Holds(nodes, base + Size(ts[0]), FlattenAll(ts[1..], base + Size(ts[0]), parent))
    ensures InRange(nodes, Follower(ts, base))
  {
    hide FlattenAll, Size;
  }

  lemma FollowerTarget(nodes: seq<Node>, start: nat, ts: seq<Tree>, base: nat)
    requires ts != [] && InRange(nodes, Follower(ts, base)) && base + Size(ts[0]) <= |nodes|
    requires Offset(nodes, start, base + Size(ts[0])) == Offset(nodes, start, base) + Extent(ts[0])
    ensures Target(nodes, start, Follower(ts, base)) == NextOf(ts, Offset(nodes, start, base))
  {
    hide Offset, Extent, Size;
  }

  /** The body of the image: the root, its "..", and its entries. */
  function RootBody(exec: bool, children: seq<Tree>, start: nat): Bytes {
    var second := start + RecordLen(DOT, []);
    var third := second + RecordLen(DOTDOT, []);
    Record(ModeWord(second, 1, exec), start, DOT, [])
    + Record(ModeWord(FirstOf(children, third), 0, false), start, DOTDOT, [])
    + EmitAll(children, third, start)
  }

  function RootExtent(children: seq<Tree>): nat { RecordLen(DOT, []) + RecordLen(DOTDOT, []) + ExtentAll(children) }

  lemma RootEmits(exec: bool, children: seq<Tree>, start: nat)
    requires Linked(RootNodes(exec, children))
    ensures var nodes := RootNodes(exec, children);
      && Offset(nodes, start, |nodes|) == start + RootExtent(children)
      && Records(nodes, start, 0, |nodes|) == RootBody(exec, children, start)
  {
    hide Records, Offset, Record, RecordLen, EmitAll, FlattenAll, Linked, NodeRecord, ModeWord;
    var nodes := RootNodes(exec, children);
    var a := Node(DOT, 1, exec, [], Some(1), Some(0));
    var b := Node(DOTDOT, 0, false, [], if children == [] then None else Some(2), Some(0));
    RootHolds(exec, children);
    hide RootNodes, Holds;
    NodeRecordIs(nodes, start, 0, a);
    NodeRecordIs(nodes, start, 1, b);
    OffsetZero(nodes, start);
    RecordsOne(nodes, start, 0);
    RecordsNext(nodes, start, 0, 1);
    FlattenAllEmits(nodes, start, children, 2, 0);
    RecordsConcat(nodes, start, 0, 2, |nodes|);
  }

  lemma RootHolds(exec: bool, children: seq<Tree>)
    ensures var nodes := RootNodes(exec, children);
      && |nodes| == 2 + SizeAll(children)
      && nodes[0] == Node(DOT, 1, exec, [], Some(1), Some(0))
      && nodes[1] == Node(DOTDOT, 0, false, [], if children == [] then None else Some(2), Some(0))
      && Holds(nodes, 2, FlattenAll(children, 2, 0))
  {
    hide FlattenAll;
  }

  // ---- Names ---------------------------------------------------------------------------------

  lemma {:induction false} FlattenNames(t: Tree, base: nat, following: Option<nat>, parent: nat)
    ensures AllNamesOk(Flatten(t, base, following, parent)) <==> NamesOk(t)
    decreases t, 0
  {
    var nodes := Flatten(t, base, following, parent);
    if t.Dir? {
      FlattenAllNames(t.children, base + 3, base);
      var rest := FlattenAll(t.children, base + 3, base);
      assert nodes[0].name == t.name && nodes[1].name == DOT && nodes[2].name == DOTDOT && nodes[3..] == rest;
      assert forall i | 0 <= i < |rest| :: rest[i] == nodes[i + 3];
      assert forall i | 3 <= i < |nodes| :: nodes[i] == rest[i - 3];
    } else {
      assert nodes[0].name == t.name;
    }
  }

  lemma {:induction false} FlattenAllNames(ts: seq<Tree>, base: nat, parent: nat)
    ensures AllNamesOk(FlattenAll(ts, base, parent)) <==> forall t | t in ts :: NamesOk(t)
    decreases ts, 1
  {
    if ts != [] {
      var rest := base + Size(ts[0]);
      var following := if |ts| == 1 then None else Some(rest);
      var a, b := Flatten(ts[0], base, following, parent), FlattenAll(ts[1..], rest, parent);
      FlattenNames(ts[0], base, following, parent);
      FlattenAllNames(ts[1..], rest, parent);
      assert FlattenAll(ts, base, parent) == a + b;
      hide *;
      NamesConcat(a, b);
      HeadAndTail(ts);
    }
  }

  lemma HeadAndTail(ts: seq<Tree>)
    requires ts != []
    ensures (forall t | t in ts :: NamesOk(t)) <==> NamesOk(ts[0]) && forall t | t in ts[1..] :: NamesOk(t)
  {
    hide NamesOk;
    assert ts == [ts[0]] + ts[1..];
  }

  lemma NamesConcat(a: seq<Node>, b: seq<Node>)
    ensures AllNamesOk(a + b) <==> AllNamesOk(a) && AllNamesOk(b)
  {
    if AllNamesOk(a + b) {
      forall i | 0 <= i < |a| ensures NameOk(a[i].name) { assert a[i] == (a + b)[i]; }
      forall i | 0 <= i < |b| ensures NameOk(b[i].name) { assert b[i] == (a + b)[|a| + i]; }
    }
  }

  lemma RootNames(exec: bool, children: seq<Tree>)
    ensures AllNamesOk(RootNodes(exec, children)) <==> forall t | t in children :: NamesOk(t)
  {
    FlattenAllNames(children, 2, 0);
    NamesConcat([Node(DOT, 1, exec, [], Some(1), Some(0)),
                 Node(DOTDOT, 0, false, [], if children == [] then None else Some(2), Some(0))],
                FlattenAll(children, 2, 0));
    assert NameOk(DOT) && NameOk(DOTDOT);
  }
}
