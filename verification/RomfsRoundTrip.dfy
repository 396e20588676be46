/** The image written for any tree reads back as exactly that tree. */
module RomfsRoundTrip {
  import opened Basics
  import opened Octets
  import opened RomfsModel
  import opened RomfsWriter
  import opened RomfsRecords

  // ---- The image as a recursion on the tree ---------------------------------------------------

  /** Bytes of the subtree's records, wherever it is placed. */
  function Extent(t: Tree): (r: nat)
    ensures r > 16
  {
    match t
    case File(name, _, data) => RecordLen(name, data)
    case Symlink(name, data) => RecordLen(name, data)
    case Dir(name, _, children) =>
      RecordLen(name, []) + RecordLen(DOT, []) + RecordLen(DOTDOT, []) + ExtentAll(children)
  }

  function ExtentAll(ts: seq<Tree>): nat {
    if ts == [] then 0 else Extent(ts[0]) + ExtentAll(ts[1..])
  }

  /** Where a directory placed at `off` has its ".", its ".." and its first entry. */
  function DotAt(name: Bytes, off: nat): nat { off + RecordLen(name, []) }
  function DotDotAt(name: Bytes, off: nat): nat { DotAt(name, off) + RecordLen(DOT, []) }
  function EntriesAt(name: Bytes, off: nat): nat { DotDotAt(name, off) + RecordLen(DOTDOT, []) }

  function FirstOf(ts: seq<Tree>, off: nat): nat { if ts == [] then 0 else off }

  function DirRecords(name: Bytes, exec: bool, children: seq<Tree>, off: nat, next: nat, parent: nat): (r: Bytes)
    ensures |r| == EntriesAt(name, off) - off
  {
    Record(ModeWord(next, 1, exec), DotAt(name, off), name, [])
    + Record(ModeWord(DotDotAt(name, off), 0, false), off, DOT, [])
    + Record(ModeWord(FirstOf(children, EntriesAt(name, off)), 0, false), parent, DOTDOT, [])
  }

  function Emit(t: Tree, off: nat, next: nat, parent: nat): (r: Bytes)
    ensures |r| == Extent(t)
  {
    match t
    case File(name, exec, data) => Record(ModeWord(next, 2, exec), 0, name, data)
    case Symlink(name, data) => Record(ModeWord(next, 3, false), 0, name, data)
    case Dir(name, exec, children) =>
      DirRecords(name, exec, children, off, next, parent) + EmitAll(children, EntriesAt(name, off), off)
  }

  function EmitAll(ts: seq<Tree>, off: nat, parent: nat): (r: Bytes)
    ensures |r| == ExtentAll(ts)
  {
    if ts == [] then []
    else
      var rest := off + Extent(ts[0]);
      Emit(ts[0], off, FirstOf(ts[1..], rest), parent) + EmitAll(ts[1..], rest, parent)
  }

  // ---- Alignment -----------------------------------------------------------------------------

  lemma RecordAligned(name: Bytes, data: Bytes)
    ensures Aligned(RecordLen(name, data))
  {
    GapAligns(|name| + 1, 16);
    GapAligns(|data|, 16);
    AlignedAdd(16, |NameField(name)|);
    AlignedAdd(16 + |NameField(name)|, |Padded(data, 16)|);
  }

  lemma PlacesAligned(name: Bytes, off: nat)
    requires Aligned(off)
    ensures Aligned(DotAt(name, off)) && Aligned(DotDotAt(name, off)) && Aligned(EntriesAt(name, off))
    ensures off + 16 < DotAt(name, off) && DotAt(name, off) + 16 < DotDotAt(name, off)
      && DotDotAt(name, off) + 16 < EntriesAt(name, off)
  {
    hide Aligned, RecordLen;
    RecordAligned(name, []);
    RecordAligned(DOT, []);
    RecordAligned(DOTDOT, []);
    AlignedAdd(off, RecordLen(name, []));
    AlignedAdd(DotAt(name, off), RecordLen(DOT, []));
    AlignedAdd(DotDotAt(name, off), RecordLen(DOTDOT, []));
  }

  lemma {:induction false} ExtentAligned(t: Tree)
    ensures Aligned(Extent(t))
    decreases t, 0
  {
    match t
    case File(name, _, data) => RecordAligned(name, data);
    case Symlink(name, data) => RecordAligned(name, data);
    case Dir(name, _, children) =>
      assert Aligned(0);
      hide Aligned, RecordLen;
      PlacesAligned(name, 0);
      ExtentAllAligned(children);
      AlignedAdd(EntriesAt(name, 0), ExtentAll(children));
  }

  lemma {:induction false} ExtentAllAligned(ts: seq<Tree>)
    ensures Aligned(ExtentAll(ts))
    decreases ts, 1
  {
    if ts != [] {
      hide Aligned;
      ExtentAligned(ts[0]);
      ExtentAllAligned(ts[1..]);
      AlignedAdd(Extent(ts[0]), ExtentAll(ts[1..]));
    }
  }

  // ---- Reading back --------------------------------------------------------------------------

  /** `ts` is written at `off`, inside an image whose records all lie below 2^32. */
  ghost predicate Written(image: Bytes, ts: seq<Tree>, off: nat, parent: nat) {
    && off > 0 && Aligned(off) && off + ExtentAll(ts) <= LIMIT
    && parent < off
    && Has(image, off, EmitAll(ts, off, parent))
    && forall t | t in ts :: NamesOk(t)
  }

  /** The first of the siblings at `off`, and its successor pointer. */
  ghost predicate WrittenTree(image: Bytes, t: Tree, off: nat, next: nat, parent: nat) {
    && off > 0 && Aligned(off) && off + Extent(t) <= LIMIT && parent < off && NamesOk(t)
    && (next == 0 || next > off) && Aligned(next) && next + 16 <= WORD
    && Has(image, off, Emit(t, off, next, parent))
  }

  function NextOf(ts: seq<Tree>, off: nat): nat
    requires ts != []
  {
    FirstOf(ts[1..], off + Extent(ts[0]))
  }

  lemma WrittenSplit(image: Bytes, ts: seq<Tree>, off: nat, parent: nat)
    requires Written(image, ts, off, parent) && ts != []
    ensures WrittenTree(image, ts[0], off, NextOf(ts, off), parent)
    ensures Written(image, ts[1..], off + Extent(ts[0]), parent)
  {
    hide Aligned, Extent, ExtentAll, Emit, EmitAll, Has, NamesOk;
    var rest, next := off + Extent(ts[0]), NextOf(ts, off);
    ExtentAligned(ts[0]);
    ExtentAllSplit(ts);
    if ts[1..] != [] { ExtentAllSplit(ts[1..]); }
    AlignedZero();
    EmitAllSplit(ts, off, parent);
    AlignedAdd(off, Extent(ts[0]));
    HasSplit(image, off, Emit(ts[0], off, next, parent), EmitAll(ts[1..], rest, parent));
  }

  lemma ExtentDir(t: Tree)
    requires t.Dir?
    ensures Extent(t) == EntriesAt(t.name, 0) + ExtentAll(t.children)
  {
  }

  lemma AlignedZero()
    ensures Aligned(0)
  {
  }

  lemma ExtentAllSplit(ts: seq<Tree>)
    requires ts != []
    ensures ExtentAll(ts) == Extent(ts[0]) + ExtentAll(ts[1..])
  {
  }

  lemma EmitAllSplit(ts: seq<Tree>, off: nat, parent: nat)
    requires ts != []
    ensures EmitAll(ts, off, parent) ==
            Emit(ts[0], off, NextOf(ts, off), parent) + EmitAll(ts[1..], off + Extent(ts[0]), parent)
  {
    hide Emit, Extent;
  }

  lemma EmitDir(t: Tree, off: nat, next: nat, parent: nat)
    requires t.Dir?
    ensures Emit(t, off, next, parent) ==
      DirRecords(t.name, t.exec, t.children, off, next, parent) + EmitAll(t.children, EntriesAt(t.name, off), off)
  {
    hide DirRecords, EmitAll, EntriesAt;
  }

  lemma DirRecordsAre(t: Tree, off: nat, next: nat, parent: nat)
    requires t.Dir?
    ensures DirRecords(t.name, t.exec, t.children, off, next, parent) ==
      Record(ModeWord(next, 1, t.exec), DotAt(t.name, off), t.name, [])
      + Record(ModeWord(DotDotAt(t.name, off), 0, false), off, DOT, [])
      + Record(ModeWord(FirstOf(t.children, EntriesAt(t.name, off)), 0, false), parent, DOTDOT, [])
  {
    hide Record, ModeWord, RecordLen;
  }

  lemma DirPlaces(name: Bytes, off: nat)
    ensures DotAt(name, off) == off + RecordLen(name, [])
    ensures DotDotAt(name, off) == DotAt(name, off) + RecordLen(DOT, [])
    ensures EntriesAt(name, off) == DotDotAt(name, off) + RecordLen(DOTDOT, [])
  {
    hide RecordLen;
  }

  lemma DirHas(image: Bytes, t: Tree, off: nat, next: nat, parent: nat)
    requires t.Dir? && Has(image, off, Emit(t, off, next, parent))
    ensures Has(image, off, Record(ModeWord(next, 1, t.exec), DotAt(t.name, off), t.name, []))
    ensures Has(image, DotAt(t.name, off), Record(ModeWord(DotDotAt(t.name, off), 0, false), off, DOT, []))
    ensures Has(image, DotDotAt(t.name, off),
                Record(ModeWord(FirstOf(t.children, EntriesAt(t.name, off)), 0, false), parent, DOTDOT, []))
    ensures Has(image, EntriesAt(t.name, off), EmitAll(t.children, EntriesAt(t.name, off), off))
  {
    hide *;
    var name, children := t.name, t.children;
    var dot, dotdot, entries := DotAt(name, off), DotDotAt(name, off), EntriesAt(name, off);
    var a := Record(ModeWord(next, 1, t.exec), dot, name, []);
    var b := Record(ModeWord(dotdot, 0, false), off, DOT, []);
    var c := Record(ModeWord(FirstOf(children, entries), 0, false), parent, DOTDOT, []);
    EmitDir(t, off, next, parent);
    DirRecordsAre(t, off, next, parent);
    DirPlaces(name, off);
    HasSplit(image, off, a + b + c, EmitAll(children, entries, off));
    HasSplit(image, off, a + b, c);
    HasSplit(image, off, a, b);
  }

  lemma DirWritten(image: Bytes, t: Tree, off: nat, next: nat, parent: nat)
    requires t.Dir? && WrittenTree(image, t, off, next, parent)
    ensures Written(image, t.children, EntriesAt(t.name, off), off)
    ensures EntriesAt(t.name, off) + ExtentAll(t.children) <= LIMIT
    ensures t.children != [] ==> EntriesAt(t.name, off) + 16 <= LIMIT
  {
    assert Extent(t) == EntriesAt(t.name, 0) + ExtentAll(t.children) by { hide *; ExtentDir(t); }
    if t.children != [] { ExtentAllSplit(t.children); }
    hide Aligned, Extent, ExtentAll, Emit, EmitAll, Has, Record, RecordLen;
    DirHas(image, t, off, next, parent);
    PlacesAligned(t.name, off);
  }

  /** What parsing a directory's three headers needs to know. */
  lemma DirRoom(image: Bytes, t: Tree, off: nat, next: nat, parent: nat)
    requires t.Dir? && WrittenTree(image, t, off, next, parent)
    ensures Has(image, off, Emit(t, off, next, parent))
    ensures Aligned(off) && Aligned(next) && NameOk(DOT) && NameOk(DOTDOT) && NameOk(t.name)
    ensures next + 16 <= WORD && 0 < WORD && off < WORD && parent < WORD
    ensures DotAt(t.name, off) < WORD && DotDotAt(t.name, off) + 16 <= WORD
    ensures var first := FirstOf(t.children, EntriesAt(t.name, off)); Aligned(first) && first + 16 <= WORD
  {
    AlignedZero();
    DirWritten(image, t, off, next, parent);
    hide Aligned, Emit, Has, Record, RecordLen, Written, DotAt, DotDotAt, EntriesAt;
    PlacesAligned(t.name, off);
  }

  /** The directory's own header, and its "." and ".." entries. */
  lemma DirHeaders(image: Bytes, t: Tree, off: nat, next: nat, parent: nat) returns (a: Header, b: Header, c: Header)
    requires t.Dir? && WrittenTree(image, t, off, next, parent)
    ensures ParseHeader(image, off) == Some(a) && a.next == next && a.kind == 1 && a.exec == t.exec
    ensures a.spec == DotAt(t.name, off) && a.name == t.name
    ensures ParseHeader(image, DotAt(t.name, off)) == Some(b)
    ensures b.next == DotDotAt(t.name, off) && b.kind == 0 && b.spec == off && b.name == DOT
    ensures ParseHeader(image, DotDotAt(t.name, off)) == Some(c)
    ensures c.next == FirstOf(t.children, EntriesAt(t.name, off)) && c.kind == 0 && c.spec == parent && c.name == DOTDOT
  {
    hide *;
    DirRoom(image, t, off, next, parent);
    DirHas(image, t, off, next, parent);
    PlacesAligned(t.name, off);
    var first := FirstOf(t.children, EntriesAt(t.name, off));
    ParseRecord(image, off, next, 1, t.exec, DotAt(t.name, off), t.name, []);
    ParseRecord(image, DotAt(t.name, off), DotDotAt(t.name, off), 0, false, off, DOT, []);
    ParseRecord(image, DotDotAt(t.name, off), first, 0, false, parent, DOTDOT, []);
    a := ParseHeader(image, off).value;
    b := ParseHeader(image, DotAt(t.name, off)).value;
    c := ParseHeader(image, DotDotAt(t.name, off)).value;
  }

  lemma {:induction false} ReadBack(image: Bytes, ts: seq<Tree>, off: nat, self: nat, parent: nat)
    requires Written(image, ts, off, self)
    ensures ReadList(image, FirstOf(ts, off), self, parent) == Some(ts)
    decreases ts
  {
    hide *;
    FirstIs(ts, off);
    if ts == [] {
      ReadEnds(image, self, parent);
    } else {
      NextIs(ts, off);
      WrittenSplit(image, ts, off, self);
      ReadBack(image, ts[1..], off + Extent(ts[0]), self, parent);
      if ts[0].Dir? {
        DirWritten(image, ts[0], off, NextOf(ts, off), self);
        ReadBack(image, ts[0].children, EntriesAt(ts[0].name, off), off, self);
        ReadDirBack(image, ts[0], off, NextOf(ts, off), self, parent, ts[1..]);
      } else {
        ReadLeafBack(image, ts[0], off, NextOf(ts, off), self, parent, ts[1..]);
      }
      assert ts == [ts[0]] + ts[1..];
    }
  }

  lemma FirstIs(ts: seq<Tree>, off: nat)
    ensures FirstOf(ts, off) == if ts == [] then 0 else off
  {
  }

  lemma NextIs(ts: seq<Tree>, off: nat)
    requires ts != []
    ensures NextOf(ts, off) == FirstOf(ts[1..], off + Extent(ts[0]))
  {
    hide Extent;
  }

  lemma ReadEnds(image: Bytes, self: nat, parent: nat)
    ensures ReadList(image, 0, self, parent) == Some([])
  {
  }

  lemma ReadLeafBack(image: Bytes, t: Tree, off: nat, next: nat, self: nat, parent: nat, rest: seq<Tree>)
    requires !t.Dir? && WrittenTree(image, t, off, next, self)
    requires ReadList(image, next, self, parent) == Some(rest)
    ensures ReadList(image, off, self, parent) == Some([t] + rest)
  {
    hide ParseHeader, Has, Emit, EmitAll, Extent, ExtentAll, Aligned, Record, NamesOk, NameOk, NameField;
    assert off > 0 && (next == 0 || next > off);
    hide WrittenTree;
    LeafWritten(image, t, off, next, self, if t.File? then 2 else 3, if t.File? then t.exec else false);
    var h := ParseHeader(image, off).value;
    assert h.next == next && image[h.dataAt..h.dataAt + h.size] == t.data;
  }

  lemma LeafWritten(image: Bytes, t: Tree, off: nat, next: nat, parent: nat, kind: nat, exec: bool)
    requires !t.Dir? && WrittenTree(image, t, off, next, parent)
    requires kind == (if t.File? then 2 else 3) && exec == if t.File? then t.exec else false
    ensures var dataAt := off + 16 + |NameField(t.name)|;
      && ParseHeader(image, off) == Some(Header(next, kind, exec, 0, |t.data|, t.name, dataAt))
      && dataAt + |t.data| <= |image| && image[dataAt..dataAt + |t.data|] == t.data
  {
    hide ParseHeader, Has, Record, Aligned, ModeWord;
    assert |t.data| < WORD;
    ParseRecord(image, off, next, kind, exec, 0, t.name, t.data);
  }

  lemma ReadDirBack(image: Bytes, t: Tree, off: nat, next: nat, self: nat, parent: nat, rest: seq<Tree>)
    requires t.Dir? && WrittenTree(image, t, off, next, self)
    requires ReadList(image, next, self, parent) == Some(rest)
    requires ReadList(image, FirstOf(t.children, EntriesAt(t.name, off)), off, self) == Some(t.children)
    ensures ReadList(image, off, self, parent) == Some([t] + rest)
  {
    hide ParseHeader, Has, Emit, EmitAll, Extent, ExtentAll, DotAt, DotDotAt, EntriesAt, Aligned, NamesOk, NameOk;
    assert off > 0 && (next == 0 || next > off) && Aligned(off);
    var a, b, c := DirHeaders(image, t, off, next, self);
    PlacesAligned(t.name, off);
    hide WrittenTree;
    assert ReadList(image, DotDotAt(t.name, off), off, self) == Some(t.children);
    assert ReadList(image, DotAt(t.name, off), off, self) == Some(t.children);
  }
}
