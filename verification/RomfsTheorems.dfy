/** What tools/make_romfs.py promises: whatever is written reads back, from either starting point. */
module RomfsTheorems {
  import opened Basics
  import opened Octets
  import opened RomfsModel
  import opened RomfsWriter
  import opened RomfsRecords
  import opened RomfsRoundTrip
  import opened RomfsImage
  import opened RomfsOrder

  // ---- The sealed image ----------------------------------------------------------------------

  function Check(volume: Bytes, body: Bytes): nat {
    var blank := ImageWith(Start(volume) + |body|, 0, volume, body);
    Checksum(blank[..Min(512, |blank|)])
  }

  function Unpadded(volume: Bytes, body: Bytes): Bytes {
    ImageWith(Start(volume) + |body|, Check(volume, body), volume, body)
  }

  lemma SealHas(volume: Bytes, body: Bytes)
    ensures Seal(volume, body) == Padded(Unpadded(volume, body), 1024)
    ensures |Seal(volume, body)| >= 1024 && |Unpadded(volume, body)| == Start(volume) + |body|
    ensures Has(Seal(volume, body), 0, Unpadded(volume, body))
  {
    hide Encode32, Checksum, VolumeField;
    GapAligns(|Unpadded(volume, body)|, 1024);
  }

  lemma SealParts(volume: Bytes, body: Bytes)
    ensures var image := Seal(volume, body);
      && Has(image, 0, MAGIC)
      && Has(image, 8, Encode32(Start(volume) + |body|))
      && Has(image, 16, VolumeField(volume))
      && Has(image, Start(volume), body)
  {
    SealHas(volume, body);
    var image := Seal(volume, body);
    var size, check := Encode32(Start(volume) + |body|), Encode32(Check(volume, body));
    assert Unpadded(volume, body) == MAGIC + size + check + VolumeField(volume) + body;
    assert Start(volume) == 16 + |VolumeField(volume)|;
    hide Seal, Has, Encode32, VolumeField, Start, Check;
    HasSplit(image, 0, MAGIC + size + check + VolumeField(volume), body);
    HasSplit(image, 0, MAGIC + size + check, VolumeField(volume));
    HasSplit(image, 0, MAGIC + size, check);
    HasSplit(image, 0, MAGIC, size);
  }

  lemma VolumeReads(volume: Bytes, body: Bytes)
    requires NameOk(volume)
    ensures ReadName(Seal(volume, body), 16) == Some(volume)
  {
    SealParts(volume, body);
    var field := VolumeField(volume);
    assert field[..|volume|] == volume && field[|volume|] == 0 by { assert (volume + [0])[..|volume|] == volume; }
    hide Seal, Has, VolumeField;
    FieldReads(Seal(volume, body), 16, field, volume);
  }

  /** Cutting both images after the checksum word leaves the same rest. */
  lemma PrefixOf(total: nat, check: nat, volume: Bytes, body: Bytes, n: nat)
    requires 16 <= n <= Start(volume) + |body|
    ensures ImageWith(total, check, volume, body)[..n] ==
            (MAGIC + Encode32(total)) + Encode32(check) + (VolumeField(volume) + body)[..n - 16]
  {
    hide Encode32, VolumeField;
  }

  lemma PrefixSum(volume: Bytes, body: Bytes, n: nat)
    requires n == Min(512, Start(volume) + |body|)
    ensures WordSum(Unpadded(volume, body)[..n]) % WORD == 0
  {
    var total, check := Start(volume) + |body|, Check(volume, body);
    var rest := (VolumeField(volume) + body)[..n - 16];
    assert check == Checksum(ImageWith(total, 0, volume, body)[..n]);
    assert |MAGIC + Encode32(total)| == 12;
    hide Checksum, WordSum, Encode32, VolumeField, Check;
    PrefixOf(total, check, volume, body, n);
    PrefixOf(total, 0, volume, body, n);
    hide ImageWith;
    WordSumPatch(MAGIC + Encode32(total), check, rest);
  }

  /** The first 512 bytes of the image sum to zero, also when the padding is part of them. */
  lemma VolumeSumsToZero(volume: Bytes, body: Bytes)
    requires Aligned(|body|)
    ensures WordSum(Seal(volume, body)[..512]) % WORD == 0
  {
    hide *;
    var n := Min(512, Start(volume) + |body|);
    SealHas(volume, body);
    PrefixSum(volume, body, n);
    WholeWords(volume, body);
    PaddingAddsNothing(Seal(volume, body), Unpadded(volume, body), n);
  }

  lemma WholeWords(volume: Bytes, body: Bytes)
    requires Aligned(|body|)
    ensures (Start(volume) + |body|) % 4 == 0
  {
    GapAligns(|volume| + 1, 16);
    AlignedAdd(16, |VolumeField(volume)|);
    hide Aligned, Start;
    AlignedAdd(Start(volume), |body|);
    AlignedWords(Start(volume) + |body|);
  }

  lemma FourDivides(k: nat)
    ensures 4 * k % 4 == 0
  {
  }

  lemma AlignedWords(n: nat)
    requires Aligned(n)
    ensures n % 4 == 0
  {
    FourDivides(4 * (n / 16));
  }

  lemma PaddingAddsNothing(image: Bytes, front: Bytes, n: nat)
    requires |image| >= 1024 && image == Padded(front, 1024) && n == Min(512, |front|) && |front| % 4 == 0
    ensures WordSum(image[..512]) == WordSum(front[..n])
  {
    hide WordSum;
    if n == 512 {
      assert image[..512] == front[..512] by { assert image[..|front|] == front; }
    } else {
      assert image[..512] == front + Zeros(512 - n);
      assert front[..n] == front;
      WordSumConcat(front, Zeros(512 - n));
      WordSumZeros(512 - n);
    }
  }

  // ---- Reading the volume ----------------------------------------------------------------------

  lemma RootAligned(children: seq<Tree>, volume: Bytes)
    ensures Aligned(RootExtent(children)) && Aligned(Start(volume))
    ensures Aligned(Start(volume) + RecordLen(DOT, []))
      && Aligned(Start(volume) + RecordLen(DOT, []) + RecordLen(DOTDOT, []))
  {
    GapAligns(|volume| + 1, 16);
    AlignedAdd(16, |VolumeField(volume)|);
    hide Aligned, RecordLen, Start;
    RecordAligned(DOT, []);
    RecordAligned(DOTDOT, []);
    ExtentAllAligned(children);
    AlignedAdd(RecordLen(DOT, []), RecordLen(DOTDOT, []));
    AlignedAdd(RecordLen(DOT, []) + RecordLen(DOTDOT, []), ExtentAll(children));
    AlignedAdd(Start(volume), RecordLen(DOT, []));
    AlignedAdd(Start(volume) + RecordLen(DOT, []), RecordLen(DOTDOT, []));
  }

  lemma RootBodyLength(exec: bool, children: seq<Tree>, start: nat)
    ensures |RootBody(exec, children, start)| == RootExtent(children)
  {
    hide Record, EmitAll, RecordLen, ModeWord;
  }

  lemma RootHas(image: Bytes, exec: bool, children: seq<Tree>, start: nat)
    requires Has(image, start, RootBody(exec, children, start))
    ensures var second := start + RecordLen(DOT, []);
      var third := second + RecordLen(DOTDOT, []);
      && Has(image, start, Record(ModeWord(second, 1, exec), start, DOT, []))
      && Has(image, second, Record(ModeWord(FirstOf(children, third), 0, false), start, DOTDOT, []))
      && Has(image, third, EmitAll(children, third, start))
  {
    hide Has, Record, EmitAll, RecordLen, ModeWord;
    var second := start + RecordLen(DOT, []);
    var third := second + RecordLen(DOTDOT, []);
    var a := Record(ModeWord(second, 1, exec), start, DOT, []);
    var b := Record(ModeWord(FirstOf(children, third), 0, false), start, DOTDOT, []);
    HasSplit(image, start, a + b, EmitAll(children, third, start));
    HasSplit(image, start, a, b);
  }

  predicate AllOk(ts: seq<Tree>) { forall t | t in ts :: NamesOk(t) }

  /** The root header, the ".." entry, and where the children lie. */
  lemma RootHeaders(image: Bytes, exec: bool, children: seq<Tree>, volume: Bytes)
    requires Has(image, Start(volume), RootBody(exec, children, Start(volume)))
    requires Start(volume) + RootExtent(children) <= LIMIT && AllOk(children)
    ensures var start := Start(volume);
      var second := start + RecordLen(DOT, []);
      var third := second + RecordLen(DOTDOT, []);
      && ParseHeader(image, start) == Some(Header(second, 1, exec, start, 0, DOT, start + 16 + |NameField(DOT)|))
      && ParseHeader(image, second) ==
           Some(Header(FirstOf(children, third), 0, false, start, 0, DOTDOT, second + 16 + |NameField(DOTDOT)|))
      && Written(image, children, third, start)
  {
    hide *;
    var start := Start(volume);
    var second := start + RecordLen(DOT, []);
    var third := second + RecordLen(DOTDOT, []);
    var first := FirstOf(children, third);
    DotsOk();
    RootAligned(children, volume);
    RootRoom(children, volume);
    AlignedZero();
    RootHas(image, exec, children, start);
    FirstIsZeroOrLater(children, third);
    ParseRecord(image, start, second, 1, exec, start, DOT, []);
    ParseRecord(image, second, first, 0, false, start, DOTDOT, []);
    ChildrenWritten(image, children, third, start);
  }

  lemma DotsOk()
    ensures NameOk(DOT) && NameOk(DOTDOT)
  {
  }

  lemma RootRoom(children: seq<Tree>, volume: Bytes)
    requires Start(volume) + RootExtent(children) <= LIMIT
    ensures var third := Start(volume) + RecordLen(DOT, []) + RecordLen(DOTDOT, []);
      && third + ExtentAll(children) <= LIMIT && FirstOf(children, third) + 16 <= WORD
      && 0 < Start(volume) < WORD && Start(volume) + RecordLen(DOT, []) + 16 <= WORD
  {
    hide RecordLen, Start, Extent, ExtentAll;
    if children != [] { ExtentAllSplit(children); }
  }

  lemma ChildrenWritten(image: Bytes, children: seq<Tree>, off: nat, parent: nat)
    requires off > 0 && Aligned(off) && off + ExtentAll(children) <= LIMIT && parent < off
    requires Has(image, off, EmitAll(children, off, parent)) && AllOk(children)
    ensures Written(image, children, off, parent)
  {
    hide Aligned, ExtentAll, Has, EmitAll, NamesOk;
  }

  /** A directory listing that starts with an accepted "..". */
  lemma ReadPastDotDot(image: Bytes, off: nat, h: Header, self: nat, children: seq<Tree>)
    requires off > 0 && ParseHeader(image, off) == Some(h) && (h.next == 0 || h.next > off)
    requires h.kind == 0 && h.name == DOTDOT && h.spec == self
    requires ReadList(image, h.next, self, self) == Some(children)
    ensures ReadList(image, off, self, self) == Some(children)
  {
    hide ParseHeader;
  }

  lemma RootReads(image: Bytes, exec: bool, children: seq<Tree>, volume: Bytes)
    requires Has(image, Start(volume), RootBody(exec, children, Start(volume)))
    requires Start(volume) + RootExtent(children) <= LIMIT && AllOk(children)
    ensures ReadList(image, Start(volume) + RecordLen(DOT, []), Start(volume), Start(volume)) == Some(children)
  {
    hide *;
    var start := Start(volume);
    var second := start + RecordLen(DOT, []);
    var third := second + RecordLen(DOTDOT, []);
    RootHeaders(image, exec, children, volume);
    ReadBack(image, children, third, start, start);
    var h := ParseHeader(image, second).value;
    FirstIsZeroOrLater(children, third);
    ReadPastDotDot(image, second, h, start, children);
  }

  lemma FirstIsZeroOrLater(ts: seq<Tree>, off: nat)
    ensures FirstOf(ts, off) == 0 || FirstOf(ts, off) == off
  {
  }

  /** When every check of the reader passes. */
  lemma ReadVolumeAccepts(image: Bytes, begin: Entry, volume: Bytes, h: Header, children: seq<Tree>)
    requires |image| >= 512 && image[..8] == MAGIC && Decode32(image, 8) <= |image|
    requires WordSum(image[..512]) % WORD == 0 && ReadName(image, 16) == Some(volume)
    requires ParseHeader(image, Start(volume)) == Some(h) && h.kind == 1 && h.name == DOT
    requires h.spec == Start(volume) && h.next > Start(volume)
    requires ReadList(image, h.next, Start(volume), Start(volume)) == Some(children)
    ensures ReadVolume(image, begin) == Some(Volume(volume, h.exec, children))
  {
    StartIs(volume);
    hide Start, ParseHeader, ReadList, ReadName, WordSum, Decode32, Gap;
  }

  lemma MagicFirst(image: Bytes)
    requires Has(image, 0, MAGIC)
    ensures |image| >= 8 && image[..8] == MAGIC
  {
  }

  lemma SealReads(volume: Bytes, exec: bool, children: seq<Tree>, begin: Entry)
    requires NameOk(volume) && Start(volume) + RootExtent(children) <= LIMIT && AllOk(children)
    ensures ReadVolume(Seal(volume, RootBody(exec, children, Start(volume))), begin) ==
      Some(Volume(volume, exec, children))
  {
    hide *;
    var start := Start(volume);
    var body := RootBody(exec, children, start);
    var image := Seal(volume, body);
    RootBodyLength(exec, children, start);
    RootAligned(children, volume);
    SealHas(volume, body);
    SealFits(volume, body);
    SealParts(volume, body);
    MagicFirst(image);
    SizeFits(image, start + |body|);
    VolumeSumsToZero(volume, body);
    VolumeReads(volume, body);
    RootHeaders(image, exec, children, volume);
    RootReads(image, exec, children, volume);
    ReadVolumeAccepts(image, begin, volume, ParseHeader(image, start).value, children);
  }

  lemma SealFits(volume: Bytes, body: Bytes)
    ensures |Seal(volume, body)| >= Start(volume) + |body|
    ensures |Seal(volume, body)| % 1024 == 0
  {
    SealHas(volume, body);
    hide Start, Unpadded, Seal;
    GapAligns(|Unpadded(volume, body)|, 1024);
  }

  lemma StartIs(volume: Bytes)
    ensures Start(volume) == 16 + (|volume| + 1) + Gap(|volume| + 1, 16)
  {
  }

  lemma SizeFits(image: Bytes, total: nat)
    requires Has(image, 8, Encode32(total)) && total <= LIMIT
    ensures Decode32(image, 8) == total
  {
    DecodeAt(image, 8, Encode32(total), 0);
  }

  // ---- Main results ----------------------------------------------------------------------------

  /** Whatever is written reads back as the same volume name and the same tree, names, modes,
      data and link targets included, from either starting point a reader may use. */
  lemma RoundTrip(root: Source, volume: Bytes, image: Bytes, begin: Entry)
    requires ImageOf(root, volume) == Ok(image)
    ensures root.SourceDir? && Supported(root)
    ensures ReadVolume(image, begin) == Some(Volume(volume, root.exec, Canonical(root).children))
    ensures |image| % 1024 == 0
  {
    hide *;
    AcceptedInputs(root, volume);
    var children := Canonical(root).children;
    SealFits(volume, RootBody(root.exec, children, Start(volume)));
    SealReads(volume, root.exec, children, begin);
  }

  lemma AcceptedInputs(root: Source, volume: Bytes)
    requires ImageOf(root, volume).Ok?
    ensures root.SourceDir? && Supported(root) && NameOk(volume)
    ensures AllOk(Canonical(root).children) && Start(volume) + RootExtent(Canonical(root).children) <= LIMIT
    ensures ImageOf(root, volume).value == Seal(volume, RootBody(root.exec, Canonical(root).children, Start(volume)))
  {
    hide Seal, Offset, Records, RootNodes, Linked, Canonical, NamesOk, RootBody, RootExtent, Start, AllNamesOk;
    var children := Canonical(root).children;
    RootLinked(root.exec, children);
    RootNames(root.exec, children);
    RootEmits(root.exec, children, Start(volume));
  }

  /** Exactly which inputs are refused, and with which error. */
  lemma RefusedExactly(root: Source, volume: Bytes)
    ensures ImageOf(root, volume) == Err(RootNotDirectory) <==> !root.SourceDir?
    ensures ImageOf(root, volume) == Err(NulInVolume) <==> root.SourceDir? && 0 in volume
    ensures ImageOf(root, volume) == Err(Unsupported) <==> root.SourceDir? && 0 !in volume && !Supported(root)
    ensures root.SourceDir? && 0 !in volume && Supported(root) ==>
      var children := Canonical(root).children;
      && (ImageOf(root, volume) == Err(NulInName) <==> !AllOk(children))
      && (ImageOf(root, volume).Ok? <==>
            AllOk(children) && Start(volume) + RootExtent(children) <= 0xFFFF_FFFF)
  {
    if root.SourceDir? && 0 !in volume && Supported(root) {
      var children := Canonical(root).children;
      hide Seal, Offset, Records, RootNodes, Linked, Canonical, NamesOk, RootExtent, RootBody;
      RootLinked(root.exec, children);
      RootNames(root.exec, children);
      RootEmits(root.exec, children, Start(volume));
    }
  }

  /** The first bytes of every image, literally: the magic "-rom1fs-", the size of everything that is
      written before the final padding, most significant byte first, after the checksum the volume name
      and its NUL; and whole kilobytes, of which only the last is padded. */
  lemma ImageStarts(root: Source, volume: Bytes, image: Bytes)
    requires ImageOf(root, volume) == Ok(image)
    ensures |image| >= 1024 && |image| % 1024 == 0 && 16 + |volume| < |image|
    ensures image[..8] == [45, 114, 111, 109, 49, 102, 115, 45]
    ensures image[16..16 + |volume|] == volume && image[16 + |volume|] == 0
    ensures var size :=
        image[8] as nat * 16777216 + image[9] as nat * 65536 + image[10] as nat * 256 + image[11] as nat;
      && size <= |image| < size + 1024
      && forall i | size <= i < |image| :: image[i] == 0
  {
    hide *;
    AcceptedInputs(root, volume);
    var children := Canonical(root).children;
    var body := RootBody(root.exec, children, Start(volume));
    RootBodyLength(root.exec, children, Start(volume));
    SealHas(volume, body);
    SealFits(volume, body);
    SealParts(volume, body);
    MagicBytes(image);
    SizeBytes(image, Start(volume) + |body|);
    PaddingIsShort(Unpadded(volume, body));
    VolumeBytes(image, volume);
  }

  lemma MagicBytes(image: Bytes)
    requires Has(image, 0, MAGIC)
    ensures |image| >= 8 && image[..8] == [45, 114, 111, 109, 49, 102, 115, 45]
  {
  }

  lemma SizeBytes(image: Bytes, total: nat)
    requires Has(image, 8, Encode32(total)) && total <= LIMIT
    ensures |image| >= 12
    ensures image[8] as nat * 16777216 + image[9] as nat * 65536 + image[10] as nat * 256 + image[11] as nat == total
  {
    assert image[8..12] == Encode32(total);
    assert image[8] == image[8..12][0] && image[9] == image[8..12][1];
    assert image[10] == image[8..12][2] && image[11] == image[8..12][3];
  }

  lemma PaddingIsShort(data: Bytes)
    ensures |data| <= |Padded(data, 1024)| < |data| + 1024
    ensures forall i | |data| <= i < |Padded(data, 1024)| :: Padded(data, 1024)[i] == 0
  {
  }

  lemma VolumeBytes(image: Bytes, volume: Bytes)
    requires Has(image, 16, VolumeField(volume))
    ensures 16 + |volume| < |image| && image[16..16 + |volume|] == volume && image[16 + |volume|] == 0
  {
    var field := VolumeField(volume);
    assert field[..|volume|] == volume && field[|volume|] == 0 by { assert (volume + [0])[..|volume|] == volume; }
    hide VolumeField;
    assert image[16..16 + |volume|] == image[16..16 + |field|][..|volume|];
    assert image[16 + |volume|] == image[16..16 + |field|][|volume|];
  }

  /** The image is a function of the files alone: host directory order never shows. */
  lemma Deterministic(a: Source, b: Source, volume: Bytes)
    requires a.SourceDir? && b.SourceDir? && SameFiles(a, b)
    requires Supported(a) && Supported(b) && DistinctNames(a) && DistinctNames(b)
    ensures ImageOf(a, volume) == ImageOf(b, volume)
  {
    HostOrderIrrelevant(a, b);
  }

  /** Different volumes never share an image. */
  lemma ImageIdentifiesTree(a: Source, b: Source, v: Bytes, w: Bytes, image: Bytes)
    requires ImageOf(a, v) == Ok(image) && ImageOf(b, w) == Ok(image)
    ensures v == w && a.exec == b.exec && Canonical(a).children == Canonical(b).children
  {
    RoundTrip(a, v, image, AtRootHeader);
    RoundTrip(b, w, image, AtRootHeader);
  }
}
