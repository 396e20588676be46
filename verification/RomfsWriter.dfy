/** Writing a ROMFS image: the two passes over the flattened nodes of tools/make_romfs.py. */
module RomfsWriter {
  import opened Basics
  import opened Octets
  import opened RomfsModel

  // ---- Records ---------------------------------------------------------------------------

  function NameField(name: Bytes): Bytes { Padded(name + [0], 16) }

  function RecordLen(name: Bytes, data: Bytes): (r: nat)
    ensures r > 16
  {
    16 + |NameField(name)| + |Padded(data, 16)|
  }

  function HeaderWith(word: nat, spec: nat, size: nat, check: nat, name: Bytes): (r: Bytes)
    ensures |r| == 16 + |NameField(name)|
  {
    Encode32(word) + Encode32(spec) + Encode32(size) + Encode32(check) + NameField(name)
  }

  /** Lines 94-96. */
  function HeaderBytes(word: nat, spec: nat, size: nat, name: Bytes): Bytes {
    HeaderWith(word, spec, size, Checksum(HeaderWith(word, spec, size, 0, name)), name)
  }

  /** Lines 94-98: a header with its checksum, then the padded data. */
  function Record(word: nat, spec: nat, name: Bytes, data: Bytes): (r: Bytes)
    ensures |r| == RecordLen(name, data)
  {
    HeaderBytes(word, spec, |data|, name) + Padded(data, 16)
  }

  /** Lines 89-90: offsets are multiples of 16, so the mode bits are simply added. */
  function ModeWord(next: nat, kind: nat, exec: bool): nat { next + kind + if exec then 8 else 0 }

  // ---- Flattening ------------------------------------------------------------------------

  /** A node of the flattened tree; links to other nodes are positions in the flattened list. */
  datatype Node = Node(name: Bytes, kind: nat, exec: bool, data: Bytes, following: Option<nat>, special: Option<nat>)

  function Size(t: Tree): (r: nat)
    ensures r >= 1
  {
    if t.Dir? then 3 + SizeAll(t.children) else 1
  }

  function SizeAll(ts: seq<Tree>): nat {
    if ts == [] then 0 else Size(ts[0]) + SizeAll(ts[1..])
  }

  /** Lines 36-57: the subtree's nodes in preorder, from position `base` on, with "." and ".."
      in front of a directory's entries and siblings chained. */
  function Flatten(t: Tree, base: nat, following: Option<nat>, parent: nat): (r: seq<Node>)
    ensures |r| == Size(t)
  {
    match t
    case File(name, exec, data) => [Node(name, 2, exec, data, following, None)]
    case Symlink(name, data) => [Node(name, 3, false, data, following, None)]
    case Dir(name, exec, children) =>
      [Node(name, 1, exec, [], following, Some(base + 1)),
       Node(DOT, 0, false, [], Some(base + 2), Some(base)),
       Node(DOTDOT, 0, false, [], if children == [] then None else Some(base + 3), Some(parent))]
      + FlattenAll(children, base + 3, base)
  }

  function FlattenAll(ts: seq<Tree>, base: nat, parent: nat): (r: seq<Node>)
    ensures |r| == SizeAll(ts)
  {
    if ts == [] then []
    else
      var rest := base + Size(ts[0]);
      Flatten(ts[0], base, if |ts| == 1 then None else Some(rest), parent) + FlattenAll(ts[1..], rest, parent)
  }

  /** Lines 71-77: the root gives up its "." entry, is its own first entry, and is followed by "..". */
  function RootNodes(exec: bool, children: seq<Tree>): seq<Node> {
    [Node(DOT, 1, exec, [], Some(1), Some(0)),
     Node(DOTDOT, 0, false, [], if children == [] then None else Some(2), Some(0))]
    + FlattenAll(children, 2, 0)
  }

  /** Every link leads to a node of the list. */
  predicate Linked(nodes: seq<Node>) {
    forall i | 0 <= i < |nodes| ::
      && (nodes[i].following.Some? ==> nodes[i].following.value < |nodes|)
      && (nodes[i].special.Some? ==> nodes[i].special.value < |nodes|)
  }

  function NodeLen(n: Node): nat { RecordLen(n.name, n.data) }

  /** Lines 80-84: where node `i` starts. */
  function Offset(nodes: seq<Node>, start: nat, i: nat): (r: nat)
    requires i <= |nodes|
    ensures r >= start + i
  {
    if i == 0 then start else Offset(nodes, start, i - 1) + NodeLen(nodes[i - 1])
  }

  lemma OffsetZero(nodes: seq<Node>, start: nat)
    ensures Offset(nodes, start, 0) == start
  {
  }

  lemma OffsetNext(nodes: seq<Node>, start: nat, i: nat)
    requires i < |nodes|
    ensures Offset(nodes, start, i + 1) == Offset(nodes, start, i) + NodeLen(nodes[i])
  {
  }

  predicate InRange(nodes: seq<Node>, link: Option<nat>) { link.Some? ==> link.value < |nodes| }

  function Target(nodes: seq<Node>, start: nat, link: Option<nat>): nat
    requires InRange(nodes, link)
  {
    if link.Some? then Offset(nodes, start, link.value) else 0
  }

  function NodeRecord(nodes: seq<Node>, start: nat, i: nat): (r: Bytes)
    requires i < |nodes| && Linked(nodes)
    ensures |r| == NodeLen(nodes[i])
  {
    var n := nodes[i];
    Record(ModeWord(Target(nodes, start, n.following), n.kind, n.exec), Target(nodes, start, n.special), n.name, n.data)
  }

  /** Lines 88-98: the records of nodes `from` to `end`, one after the other. */
  function Records(nodes: seq<Node>, start: nat, from: nat, end: nat): (r: Bytes)
    requires from <= end <= |nodes| && Linked(nodes)
    ensures |r| == Offset(nodes, start, end) - Offset(nodes, start, from)
    decreases end
  {
    if from == end then [] else Records(nodes, start, from, end - 1) + NodeRecord(nodes, start, end - 1)
  }

  lemma RecordsNone(nodes: seq<Node>, start: nat)
    requires Linked(nodes)
    ensures Records(nodes, start, 0, 0) == []
  {
  }

  lemma RecordsNext(nodes: seq<Node>, start: nat, from: nat, end: nat)
    requires from <= end < |nodes| && Linked(nodes)
    ensures Records(nodes, start, from, end + 1) == Records(nodes, start, from, end) + NodeRecord(nodes, start, end)
  {
  }

  // ---- The whole image -------------------------------------------------------------------

  function VolumeField(volume: Bytes): Bytes { Padded(volume + [0], 16) }

  function Start(volume: Bytes): (r: nat)
    ensures r > 16
  {
    16 + |VolumeField(volume)|
  }

  function ImageWith(total: nat, check: nat, volume: Bytes, body: Bytes): (r: Bytes)
    ensures |r| == Start(volume) + |body|
  {
    MAGIC + Encode32(total) + Encode32(check) + VolumeField(volume) + body
  }

  function Min(a: nat, b: nat): nat { if a < b then a else b }

  /** Lines 99-101: size and checksum are filled in last, then the image is padded. */
  function Seal(volume: Bytes, body: Bytes): Bytes {
    var total := Start(volume) + |body|;
    var blank := ImageWith(total, 0, volume, body);
    Padded(ImageWith(total, Checksum(blank[..Min(512, |blank|)]), volume, body), 1024)
  }

  datatype Error = RootNotDirectory | NulInVolume | Unsupported | NulInName | TooLarge

  predicate AllNamesOk(nodes: seq<Node>) { forall i :: 0 <= i < |nodes| ==> NameOk(nodes[i].name) }

  /** Lines 78-101 for the nodes in hand. */
  function Assemble(nodes: seq<Node>, volume: Bytes): Result<Bytes, Error>
    requires Linked(nodes)
  {
    var start := Start(volume);
    if !AllNamesOk(nodes) then Err(NulInName)
    else if Offset(nodes, start, |nodes|) > LIMIT then Err(TooLarge)
    else Ok(Seal(volume, Records(nodes, start, 0, |nodes|)))
  }

  /** The image, or the first error the script raises. */
  function ImageOf(root: Source, volume: Bytes): Result<Bytes, Error> {
    if !root.SourceDir? then Err(RootNotDirectory)
    else if 0 in volume then Err(NulInVolume)
    else if !Supported(root) then Err(Unsupported)
    else
      RootLinked(root.exec, Canonical(root).children);
      Assemble(RootNodes(root.exec, Canonical(root).children), volume)
  }

  method MakeImage(root: Source, volume: Bytes) returns (r: Result<Bytes, Error>)
    ensures r == ImageOf(root, volume)
  {
    if !root.SourceDir? { return Err(RootNotDirectory); }
    if 0 in volume { return Err(NulInVolume); }
    if !Supported(root) { return Err(Unsupported); }
    var tree := Canonical(root);
    RootLinked(root.exec, tree.children);
    r := AssembleNodes(RootNodes(root.exec, tree.children), volume);
  }

  method AssembleNodes(nodes: seq<Node>, volume: Bytes) returns (r: Result<Bytes, Error>)
    requires Linked(nodes)
    ensures r == Assemble(nodes, volume)
  {
    var offsets, total, ok := PlaceNodes(nodes, Start(volume));
    if !ok { return Err(NulInName); }
    if total > LIMIT { return Err(TooLarge); }
    var body := WriteNodes(nodes, Start(volume), offsets);
    return Ok(Seal(volume, body));
  }

  /** First pass, lines 79-84: names are checked and every node gets its offset. */
  method PlaceNodes(nodes: seq<Node>, start: nat) returns (offsets: array<nat>, total: nat, ok: bool)
    ensures ok <==> AllNamesOk(nodes)
    ensures ok ==> total == Offset(nodes, start, |nodes|) && offsets.Length == |nodes|
    ensures ok ==> forall k :: 0 <= k < |nodes| ==> offsets[k] == Offset(nodes, start, k)
  {
    hide RecordLen, Offset;
    total := start;
    offsets := new nat[|nodes|];
    OffsetZero(nodes, start);
    for i := 0 to |nodes|
      invariant total == Offset(nodes, start, i)
      invariant forall k :: 0 <= k < i ==> offsets[k] == Offset(nodes, start, k)
      invariant forall k :: 0 <= k < i ==> NameOk(nodes[k].name)
    {
      if 0 in nodes[i].name { return offsets, total, false; }
      OffsetNext(nodes, start, i);
      offsets[i] := total;
      total := total + RecordLen(nodes[i].name, nodes[i].data);
    }
    ok := true;
  }

  /** Second pass, lines 87-98: records with the offsets filled in. */
  method WriteNodes(nodes: seq<Node>, start: nat, offsets: array<nat>) returns (body: Bytes)
    requires Linked(nodes) && offsets.Length == |nodes|
    requires forall k :: 0 <= k < |nodes| ==> offsets[k] == Offset(nodes, start, k)
    ensures body == Records(nodes, start, 0, |nodes|)
  {
    hide Offset, Record, Records;
    body := [];
    RecordsNone(nodes, start);
    for i := 0 to |nodes|
      invariant body == Records(nodes, start, 0, i)
    {
      RecordsNext(nodes, start, 0, i);
      var n := nodes[i];
      var next := if n.following.Some? then offsets[n.following.value] else 0;
      var special := if n.special.Some? then offsets[n.special.value] else 0;
      body := body + Record(ModeWord(next, n.kind, n.exec), special, n.name, n.data);
    }
  }

  // ---- Links stay inside the list -----------------------------------------------------------

  predicate LinksWithin(nodes: seq<Node>, limit: nat) {
    forall i | 0 <= i < |nodes| ::
      && (nodes[i].following.Some? ==> nodes[i].following.value < limit)
      && (nodes[i].special.Some? ==> nodes[i].special.value < limit)
  }

  lemma {:induction false} FlattenLinks(t: Tree, base: nat, following: Option<nat>, parent: nat, limit: nat)
    requires base + Size(t) <= limit && parent < limit && (following.Some? ==> following.value < limit)
    ensures LinksWithin(Flatten(t, base, following, parent), limit)
    decreases t, 0
  {
    if t.Dir? { FlattenAllLinks(t.children, base + 3, base, limit); }
  }

  lemma {:induction false} FlattenAllLinks(ts: seq<Tree>, base: nat, parent: nat, limit: nat)
    requires base + SizeAll(ts) <= limit && parent < limit
    ensures LinksWithin(FlattenAll(ts, base, parent), limit)
    decreases ts, 1
  {
    if ts != [] {
      var rest := base + Size(ts[0]);
      assert |ts| > 1 ==> SizeAll(ts[1..]) >= 1;
      FlattenLinks(ts[0], base, if |ts| == 1 then None else Some(rest), parent, limit);
      FlattenAllLinks(ts[1..], rest, parent, limit);
    }
  }

  lemma RootLinked(exec: bool, children: seq<Tree>)
    ensures Linked(RootNodes(exec, children))
  {
    FlattenAllLinks(children, 2, 0, 2 + SizeAll(children));
    assert children != [] ==> SizeAll(children) >= 1;
  }
}
