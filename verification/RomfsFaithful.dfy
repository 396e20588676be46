/** What an image holds, said of the host's files directly: every file, link and directory with its name,
    mode and contents, once, in byte order; and what makes the writer refuse them. */
module RomfsFaithful {
  import opened Basics
  import opened Octets
  import opened RomfsModel
  import opened RomfsWriter
  import opened RomfsRecords
  import opened RomfsRoundTrip
  import opened RomfsImage
  import opened RomfsOrder
  import opened RomfsTheorems

  // ---- Byte order -----------------------------------------------------------------------------

  /** Up to `k` the names agree; there the first ends, or has the smaller byte. */
  predicate BeforeAt(a: Bytes, b: Bytes, k: nat) {
    && k <= |a| && k < |b| && a[..k] == b[..k]
    && (k < |a| ==> a[k] < b[k])
  }

  predicate Before(a: Bytes, b: Bytes) { exists k | 0 <= k <= |a| :: BeforeAt(a, b, k) }

  lemma BeforeNext(a: Bytes, b: Bytes, k: nat)
    requires a != [] && b != [] && a[0] == b[0]
    ensures BeforeAt(a, b, k + 1) <==> BeforeAt(a[1..], b[1..], k)
  {
    if k <= |a[1..]| && k < |b[1..]| {
      assert a[..k + 1] == [a[0]] + a[1..][..k] && b[..k + 1] == [b[0]] + b[1..][..k];
      assert a[1..][..k] == a[..k + 1][1..] && b[1..][..k] == b[..k + 1][1..];
    }
  }

  lemma FirstAgrees(a: Bytes, b: Bytes, k: nat)
    requires k > 0 && BeforeAt(a, b, k)
    ensures a != [] && b != [] && a[0] == b[0]
  {
    assert a[0] == a[..k][0] && b[0] == b[..k][0];
  }

  lemma {:induction false} LexLessIsBefore(a: Bytes, b: Bytes)
    ensures LexLess(a, b) <==> Before(a, b)
    decreases |a|
  {
    if b == [] || a == [] || a[0] != b[0] {
      assert b != [] && (a == [] || a[0] < b[0]) ==> BeforeAt(a, b, 0);
      forall k: nat | BeforeAt(a, b, k) ensures k == 0 {
        if k > 0 { FirstAgrees(a, b, k); }
      }
    } else {
      LexLessIsBefore(a[1..], b[1..]);
      if Before(a[1..], b[1..]) {
        var k :| 0 <= k <= |a[1..]| && BeforeAt(a[1..], b[1..], k);
        BeforeNext(a, b, k);
      }
      if Before(a, b) {
        var k :| 0 <= k <= |a| && BeforeAt(a, b, k);
        assert k > 0;
        BeforeNext(a, b, k - 1);
      }
    }
  }

  predicate InByteOrder(ts: seq<Tree>) {
    forall i, j | 0 <= i < j < |ts| :: !Before(ts[j].name, ts[i].name)
  }

  // ---- The tree that is written ------------------------------------------------------------------

  /** Every number below `n`, once each. */
  predicate Permutes(order: seq<nat>, n: nat) {
    && |order| == n && (forall k | 0 <= k < n :: order[k] < n)
    && forall i, j | 0 <= i < j < n :: order[i] != order[j]
  }

  /** The tree holds what the host has at `s`, directories in byte order. */
  ghost predicate Describes(s: Source, t: Tree)
    decreases s
  {
    match s
    case SourceDir(name, exec, entries) =>
      && t.Dir? && t.name == name && t.exec == exec && |t.children| == |entries| && InByteOrder(t.children)
      && (exists order: seq<nat> ::
            && Permutes(order, |entries|)
            && forall k | 0 <= k < |order| :: Describes(entries[order[k]], t.children[k]))
    case SourceFile(name, exec, data) => t == File(name, exec, data)
    case SourceLink(name, target) => t == Symlink(name, target)
    case SourceOther(_) => false
  }

  lemma {:induction false} InsertPlaces(t: Tree, sorted: seq<Tree>) returns (at: nat)
    ensures at <= |sorted| && Insert(t, sorted) == sorted[..at] + [t] + sorted[at..]
    decreases |sorted|
  {
    if sorted == [] || LexLess(t.name, sorted[0].name) {
      at := 0;
    } else {
      var rest := InsertPlaces(t, sorted[1..]);
      at := rest + 1;
      assert sorted[..at] == [sorted[0]] + sorted[1..][..rest] && sorted[at..] == sorted[1..][rest..];
    }
  }

  lemma Splice(front: seq<nat>, n: nat, at: nat)
    requires Permutes(front, n) && at <= n
    ensures Permutes(front[..at] + [n] + front[at..], n + 1)
  {
    var order := front[..at] + [n] + front[at..];
    assert forall k | 0 <= k < n + 1 :: order[k] == if k < at then front[k] else if k == at then n else front[k - 1];
  }

  /** Sorting moves every entry to exactly one place. */
  lemma {:induction false} SortPermutes(ts: seq<Tree>) returns (order: seq<nat>)
    ensures Permutes(order, |ts|) && |SortByName(ts)| == |ts|
    ensures forall k | 0 <= k < |ts| :: order[k] < |ts| && SortByName(ts)[k] == ts[order[k]]
    decreases |ts|
  {
    if ts == [] {
      order := [];
    } else {
      var n := |ts| - 1;
      var front := SortPermutes(ts[..n]);
      var sorted := SortByName(ts[..n]);
      var at := InsertPlaces(ts[n], sorted);
      order := front[..at] + [n] + front[at..];
      SortStep(ts);
      Splice(front, n, at);
      Spliced(ts, front, sorted, at);
      hide SortByName, Insert, Permutes;
    }
  }

  lemma Spliced(ts: seq<Tree>, front: seq<nat>, sorted: seq<Tree>, at: nat)
    requires ts != [] && |front| == |sorted| == |ts| - 1 && at <= |front|
    requires forall k | 0 <= k < |front| :: front[k] < |front| && sorted[k] == ts[front[k]]
    ensures var order, next := front[..at] + [|front|] + front[at..], sorted[..at] + [ts[|front|]] + sorted[at..];
      forall k | 0 <= k < |ts| :: order[k] < |ts| && next[k] == ts[order[k]]
  {
    var order, next := front[..at] + [|front|] + front[at..], sorted[..at] + [ts[|front|]] + sorted[at..];
    forall k | 0 <= k < |ts| ensures order[k] < |ts| && next[k] == ts[order[k]] {
      if k < at {
        assert order[k] == front[k] && next[k] == sorted[k];
      } else if k > at {
        assert order[k] == front[k - 1] && next[k] == sorted[k - 1];
      }
    }
  }

  lemma SortStep(ts: seq<Tree>)
    requires ts != []
    ensures SortByName(ts) == Insert(ts[|ts| - 1], SortByName(ts[..|ts| - 1]))
  {
  }

  lemma OrderedIsByteOrder(ts: seq<Tree>)
    requires Ordered(ts)
    ensures InByteOrder(ts)
  {
    forall i, j | 0 <= i < j < |ts| ensures !Before(ts[j].name, ts[i].name) {
      LexLessIsBefore(ts[j].name, ts[i].name);
    }
  }

  lemma {:induction false} CanonicalDescribes(s: Source)
    requires Supported(s)
    ensures Describes(s, Canonical(s))
    decreases s
  {
    if s.SourceDir? {
      DirCanonical(s);
      forall e | e in s.entries ensures Describes(e, Canonical(e)) { CanonicalDescribes(e); }
      DirDescribes(s);
    }
  }

  lemma DirDescribes(s: Source)
    requires s.SourceDir? && Supported(s) && forall e | e in s.entries :: Describes(e, Canonical(e))
    ensures Describes(s, Dir(s.name, s.exec, SortByName(CanonicalAll(s.entries))))
  {
    var all := CanonicalAll(s.entries);
    var order := SortPermutes(all);
    SortByNameSorts(all);
    OrderedIsByteOrder(SortByName(all));
    hide Canonical, CanonicalAll, SortByName, InByteOrder, Ordered;
    forall k | 0 <= k < |order| ensures Describes(s.entries[order[k]], SortByName(all)[k]) {
      assert SortByName(all)[k] == all[order[k]] == Canonical(s.entries[order[k]]);
    }
  }

  /** Whatever is written, a reader finds the host's files in it: from either starting point the
      volume's name, the root's mode, and below it every entry with its name, mode, data or link
      target, once, in byte order at every depth. */
  lemma ReadsTheFiles(root: Source, volume: Bytes, image: Bytes, begin: Entry) returns (v: Volume)
    requires ImageOf(root, volume) == Ok(image)
    ensures ReadVolume(image, begin) == Some(v)
    ensures v.name == volume && root.SourceDir? && Describes(root, Dir(root.name, v.exec, v.children))
  {
    RoundTrip(root, volume, image, begin);
    CanonicalDescribes(root);
    assert Canonical(root) == Dir(root.name, root.exec, Canonical(root).children);
    v := Volume(volume, root.exec, Canonical(root).children);
  }

  // ---- What is refused ------------------------------------------------------------------------------

  /** Something below is neither a directory, nor a file, nor a link. */
  predicate HoldsOther(s: Source) {
    s.SourceOther? || (s.SourceDir? && exists e | e in s.entries :: HoldsOther(e))
  }

  /** A name here or below has a NUL in it. */
  predicate HoldsNul(s: Source) {
    0 in s.name || (s.SourceDir? && exists e | e in s.entries :: HoldsNul(e))
  }

  lemma {:induction false} SupportedExactly(s: Source)
    ensures Supported(s) <==> !HoldsOther(s)
    decreases s
  {
    if s.SourceDir? {
      forall e | e in s.entries ensures Supported(e) <==> !HoldsOther(e) { SupportedExactly(e); }
    }
  }

  lemma {:induction false} NamesOkExactly(s: Source)
    requires Supported(s)
    ensures NamesOk(Canonical(s)) <==> !HoldsNul(s)
    decreases s
  {
    if s.SourceDir? {
      forall e | e in s.entries ensures NamesOk(Canonical(e)) <==> !HoldsNul(e) { NamesOkExactly(e); }
      ChildrenOkExactly(s.entries);
      hide Canonical, CanonicalAll, SortByName;
      assert Canonical(s).name == s.name && AllOk(Canonical(s).children) <==>
        forall e | e in s.entries :: NamesOk(Canonical(e)) by {
        assert Canonical(s).children == SortByName(CanonicalAll(s.entries)) by { DirCanonical(s); }
      }
    }
  }

  lemma DirCanonical(s: Source)
    requires s.SourceDir? && Supported(s)
    ensures Canonical(s) == Dir(s.name, s.exec, SortByName(CanonicalAll(s.entries)))
  {
  }

  lemma ChildrenOkExactly(entries: seq<Source>)
    requires forall e | e in entries :: Supported(e)
    ensures AllOk(SortByName(CanonicalAll(entries))) <==> forall e | e in entries :: NamesOk(Canonical(e))
  {
    var all := CanonicalAll(entries);
    SortByNameSorts(all);
    hide Canonical, CanonicalAll, SortByName, NamesOk;
    SameMembers(SortByName(all), all);
    AllOkAt(all);
    EntriesOkAt(entries);
    assert AllOk(SortByName(all)) <==> AllOk(all);
    hide AllOk;
  }

  lemma AllOkAt(ts: seq<Tree>)
    ensures AllOk(ts) <==> forall k | 0 <= k < |ts| :: NamesOk(ts[k])
  {
    hide NamesOk;
  }

  lemma EntriesOkAt(entries: seq<Source>)
    requires forall e | e in entries :: Supported(e)
    ensures (forall e | e in entries :: NamesOk(Canonical(e))) <==>
      forall k | 0 <= k < |entries| :: NamesOk(Canonical(entries[k]))
  {
    hide NamesOk, Canonical, Supported;
  }

  lemma SameMembers(a: seq<Tree>, b: seq<Tree>)
    requires multiset(a) == multiset(b)
    ensures forall t :: t in a <==> t in b
  {
    assert forall t :: t in a <==> t in multiset(a);
    assert forall t :: t in b <==> t in multiset(b);
  }

  // ---- How much room they need ------------------------------------------------------------------------

  function Up16(n: nat): nat { (n + 15) / 16 * 16 }

  /** Sixteen bytes, the name with its NUL and the data, each in whole units of sixteen. */
  function RecordSize(name: nat, data: nat): nat { 16 + Up16(name + 1) + Up16(data) }

  /** A directory needs a record of its own, its two dot entries, and what is below it. */
  function Footprint(s: Source): nat {
    match s
    case SourceDir(name, _, entries) => RecordSize(|name|, 0) + 64 + Footprints(entries)
    case SourceFile(name, _, data) => RecordSize(|name|, |data|)
    case SourceLink(name, target) => RecordSize(|name|, |target|)
    case SourceOther(_) => 0
  }

  function Footprints(entries: seq<Source>): nat {
    if entries == [] then 0 else Footprint(entries[0]) + Footprints(entries[1..])
  }

  function Needed(root: Source, volume: Bytes): nat
    requires root.SourceDir?
  {
    16 + Up16(|volume| + 1) + 64 + Footprints(root.entries)
  }

  lemma PaddedTo16(data: Bytes)
    ensures |Padded(data, 16)| == Up16(|data|)
  {
  }

  lemma RecordTakes(name: Bytes, data: Bytes)
    ensures RecordLen(name, data) == RecordSize(|name|, |data|)
  {
    PaddedTo16(name + [0]);
    PaddedTo16(data);
  }

  lemma {:induction false} InsertExtent(t: Tree, sorted: seq<Tree>)
    ensures ExtentAll(Insert(t, sorted)) == Extent(t) + ExtentAll(sorted)
    decreases |sorted|
  {
    hide Extent;
    if sorted != [] && !LexLess(t.name, sorted[0].name) {
      InsertExtent(t, sorted[1..]);
      var rest := Insert(t, sorted[1..]);
      assert ([sorted[0]] + rest)[1..] == rest;
    } else {
      assert ([t] + sorted)[1..] == sorted;
    }
  }

  lemma {:induction false} AppendExtent(ts: seq<Tree>, t: Tree)
    ensures ExtentAll(ts + [t]) == ExtentAll(ts) + Extent(t)
    decreases |ts|
  {
    hide Extent;
    if ts == [] {
      assert [] + [t] == [t] && [t][1..] == [];
    } else {
      AppendExtent(ts[1..], t);
      assert (ts + [t])[1..] == ts[1..] + [t];
    }
  }

  lemma {:induction false} SortKeepsExtent(ts: seq<Tree>)
    ensures ExtentAll(SortByName(ts)) == ExtentAll(ts)
    decreases |ts|
  {
    hide Extent, Insert;
    if ts != [] {
      var front, last := ts[..|ts| - 1], ts[|ts| - 1];
      SortKeepsExtent(front);
      InsertExtent(last, SortByName(front));
      AppendExtent(front, last);
      assert ts == front + [last];
    }
  }

  lemma {:induction false} CanonicalTakes(s: Source)
    requires Supported(s)
    ensures Extent(Canonical(s)) == Footprint(s)
    decreases s, 0
  {
    hide RecordLen;
    RecordTakes(s.name, []);
    DotsTake();
    if s.SourceDir? {
      CanonicalsTake(s.entries);
      SortKeepsExtent(CanonicalAll(s.entries));
      DirCanonical(s);
      hide Canonical;
    } else {
      var data := Canonical(s).data;
      RecordTakes(s.name, data);
    }
  }

  lemma DotsTake()
    ensures RecordLen(DOT, []) == 32 && RecordLen(DOTDOT, []) == 32
  {
  }

  lemma {:induction false} CanonicalsTake(entries: seq<Source>)
    requires forall e | e in entries :: Supported(e)
    ensures ExtentAll(CanonicalAll(entries)) == Footprints(entries)
    decreases entries, 1
  {
    if entries != [] {
      CanonicalTakes(entries[0]);
      CanonicalsTake(entries[1..]);
      hide Canonical, Extent;
      assert ([Canonical(entries[0])] + CanonicalAll(entries[1..]))[1..] == CanonicalAll(entries[1..]);
    }
  }

  /** Exactly which inputs are refused, with which error, and how long the image of any other is. */
  lemma RefusesExactly(root: Source, volume: Bytes)
    ensures ImageOf(root, volume) == Err(RootNotDirectory) <==> !root.SourceDir?
    ensures root.SourceDir? ==>
      var r := ImageOf(root, volume);
      var nul, other, name := 0 in volume, HoldsOther(root), exists e | e in root.entries :: HoldsNul(e);
      && (r == Err(NulInVolume) <==> nul)
      && (r == Err(Unsupported) <==> !nul && other)
      && (r == Err(NulInName) <==> !nul && !other && name)
      && (r == Err(TooLarge) <==> !nul && !other && !name && Needed(root, volume) > 0xFFFF_FFFF)
      && (r.Ok? ==> |r.value| == (Needed(root, volume) + 1023) / 1024 * 1024)
  {
    hide *;
    SupportedExactly(root);
    RefusedExactly(root, volume);
    if root.SourceDir? && 0 !in volume && Supported(root) {
      NamesRefused(root);
      NeededExactly(root, volume);
      WrittenOrTooLarge(root, volume);
    }
  }

  lemma NamesRefused(root: Source)
    requires root.SourceDir? && Supported(root)
    ensures AllOk(Canonical(root).children) <==> !exists e | e in root.entries :: HoldsNul(e)
  {
    DirCanonical(root);
    ChildrenOkExactly(root.entries);
    forall e | e in root.entries ensures NamesOk(Canonical(e)) <==> !HoldsNul(e) { NamesOkExactly(e); }
    hide Canonical, AllOk, NamesOk, HoldsNul;
  }

  lemma WrittenOrTooLarge(root: Source, volume: Bytes)
    requires root.SourceDir? && Supported(root) && 0 !in volume
    ensures var r := ImageOf(root, volume);
      && (r.Ok? || r == Err(NulInName) || r == Err(TooLarge))
      && (r.Ok? ==> |r.value| == (Needed(root, volume) + 1023) / 1024 * 1024)
  {
    hide Seal, Offset, Records, RootNodes, Linked, Canonical, Start, AllNamesOk;
    if ImageOf(root, volume).Ok? {
      hide *;
      var body := RootBody(root.exec, Canonical(root).children, Start(volume));
      AcceptedInputs(root, volume);
      NeededExactly(root, volume);
      SealTakes(volume, body);
      RootBodyLength(root.exec, Canonical(root).children, Start(volume));
    }
  }

  lemma SealTakes(volume: Bytes, body: Bytes)
    ensures |Seal(volume, body)| == (Start(volume) + |body| + 1023) / 1024 * 1024
  {
    SealHas(volume, body);
    hide Seal, Unpadded;
  }

  lemma NeededExactly(root: Source, volume: Bytes)
    requires root.SourceDir? && Supported(root)
    ensures Start(volume) + RootExtent(Canonical(root).children) == Needed(root, volume)
  {
    CanonicalsTake(root.entries);
    SortKeepsExtent(CanonicalAll(root.entries));
    DirCanonical(root);
    DotsTake();
    PaddedTo16(volume + [0]);
    hide Canonical, RecordLen, ExtentAll, Footprints, Padded;
  }

  // ---- The root's entries -------------------------------------------------------------------------------

  lemma RecordNames(image: Bytes, at: nat, word: nat, spec: nat, name: Bytes)
    requires Has(image, at, Record(word, spec, name, []))
    ensures at + 17 + |name| <= |image| && image[at + 16..at + 17 + |name|] == name + [0]
  {
    var record := Record(word, spec, name, []);
    assert |NameField(name)| > |name|;
    assert record[16..17 + |name|] == name + [0] by {
      var front := Encode32(word) + Encode32(spec) + Encode32(0) +
        Encode32(Checksum(HeaderWith(word, spec, 0, 0, name)));
      assert record == front + (NameField(name) + Padded([], 16));
      hide Encode32, Checksum;
      assert |front| == 16;
      assert NameField(name)[..|name| + 1] == name + [0];
    }
    hide Record, NameField;
    Subslice(image, at, |record|, 16, 17 + |name|);
  }

  lemma DotBytes()
    ensures DOT == [46] && DOTDOT == [46, 46]
  {
  }

  lemma RecordFits(image: Bytes, at: nat, word: nat, spec: nat, name: Bytes)
    requires Has(image, at, Record(word, spec, name, []))
    ensures at + RecordLen(name, []) <= |image|
  {
    hide Record;
  }

  lemma DotRecord(image: Bytes, at: nat, word: nat, spec: nat)
    requires Has(image, at, Record(word, spec, DOT, []))
    ensures at + 18 <= |image| && image[at + 16..at + 18] == [46, 0]
  {
    hide *;
    RecordNames(image, at, word, spec, DOT);
    DotBytes();
  }

  lemma DotDotRecord(image: Bytes, at: nat, word: nat, spec: nat)
    requires Has(image, at, Record(word, spec, DOTDOT, []))
    ensures at + 32 <= |image| && image[at + 16..at + 19] == [46, 46, 0]
  {
    hide *;
    RecordNames(image, at, word, spec, DOTDOT);
    RecordFits(image, at, word, spec, DOTDOT);
    DotsTake();
    DotBytes();
  }

  lemma RootRecords(image: Bytes, exec: bool, children: seq<Tree>, start: nat)
    requires Has(image, start, RootBody(exec, children, start))
    ensures start + 64 <= |image|
    ensures image[start + 16..start + 18] == [46, 0] && image[start + 48..start + 51] == [46, 46, 0]
  {
    hide *;
    RootHas(image, exec, children, start);
    DotsTake();
    DotRecord(image, start, ModeWord(start + 32, 1, exec), start);
    DotDotRecord(image, start + 32, ModeWord(FirstOf(children, start + 64), 0, false), start);
  }

  lemma StartTakes(volume: Bytes)
    ensures Start(volume) == 16 + Up16(|volume| + 1)
  {
    PaddedTo16(volume + [0]);
  }

  /** The root's records come right after the volume's name, and are named "." and "..". */
  lemma RootIsDot(root: Source, volume: Bytes, image: Bytes)
    requires ImageOf(root, volume) == Ok(image)
    ensures var at := 16 + Up16(|volume| + 1);
      at + 64 <= |image| && image[at + 16..at + 18] == [46, 0] && image[at + 48..at + 51] == [46, 46, 0]
  {
    hide *;
    AcceptedInputs(root, volume);
    StartTakes(volume);
    var children := Canonical(root).children;
    SealParts(volume, RootBody(root.exec, children, Start(volume)));
    RootRecords(image, root.exec, children, Start(volume));
  }
}
