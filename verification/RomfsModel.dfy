/** The ROMFS image writer of tools/make_romfs.py, and a reader that follows the ROMFS format. */
module RomfsModel {
  import opened Basics
  import opened Octets

  const LIMIT: nat := 0xFFFF_FFFF
  const WORD: nat := 0x1_0000_0000

  // ---- Bytes -----------------------------------------------------------------------------

  /** Only these alignments occur. */
  predicate Alignment(a: nat) { a == 16 || a == 1024 }

  function Gap(n: nat, alignment: nat): (r: nat)
    requires Alignment(alignment)
    ensures r < alignment
  {
    if n % alignment == 0 then 0 else alignment - n % alignment
  }

  lemma GapAligns(n: nat, alignment: nat)
    requires Alignment(alignment)
    ensures (n + Gap(n, alignment)) % alignment == 0
  {
  }

  predicate Aligned(n: nat) { n % 16 == 0 }

  lemma AlignedAdd(a: nat, b: nat)
    requires Aligned(a) && Aligned(b)
    ensures Aligned(a + b)
  {
  }

  /** Line 32: zero bytes up to the next multiple of the alignment. */
  function Padded(data: Bytes, alignment: nat): (r: Bytes)
    requires Alignment(alignment)
    ensures |r| == |data| + Gap(|data|, alignment)
    ensures r[..|data|] == data
    ensures forall i :: |data| <= i < |r| ==> r[i] == 0
  {
    data + Zeros(Gap(|data|, alignment))
  }

  /** Big-endian; offsets and sizes are checked to fit before anything is written. */
  function Encode32(n: nat): (r: Bytes)
    ensures |r| == 4
    ensures n < WORD ==> Decode32(r, 0) == n
  {
    var high, low := n / 0x1_0000 % 0x1_0000, n % 0x1_0000;
    [(high / 256) as byte, (high % 256) as byte, (low / 256) as byte, (low % 256) as byte]
  }

  function Decode32(data: Bytes, at: nat): (r: nat)
    requires at + 4 <= |data|
    ensures r < WORD
  {
    data[at] as nat * 0x100_0000 + data[at + 1] as nat * 0x1_0000 + data[at + 2] as nat * 256 + data[at + 3] as nat
  }

  /** The sum of the big-endian words of `data`. */
  function WordSum(data: Bytes): nat {
    if |data| < 4 then 0 else Decode32(data, 0) + WordSum(data[4..])
  }

  /** Lines 60-62. */
  function Checksum(data: Bytes): (r: nat)
    ensures r < WORD && (WordSum(data) + r) % WORD == 0
  {
    (WORD - WordSum(data) % WORD) % WORD
  }

  // ---- Trees -----------------------------------------------------------------------------

  /** What the host file system holds; the order of a directory's entries is the host's. */
  datatype Source =
    | SourceDir(name: Bytes, exec: bool, entries: seq<Source>)
    | SourceFile(name: Bytes, exec: bool, data: Bytes)
    | SourceLink(name: Bytes, target: Bytes)
    | SourceOther(name: Bytes)

  datatype Tree =
    | Dir(name: Bytes, exec: bool, children: seq<Tree>)
    | File(name: Bytes, exec: bool, data: Bytes)
    | Symlink(name: Bytes, data: Bytes)

  predicate Supported(s: Source) {
    match s
    case SourceDir(_, _, entries) => forall e | e in entries :: Supported(e)
    case SourceOther(_) => false
    case _ => true
  }

  predicate LexLess(a: Bytes, b: Bytes) {
    if b == [] then false
    else if a == [] then true
    else a[0] < b[0] || (a[0] == b[0] && LexLess(a[1..], b[1..]))
  }

  /** Insertion after every entry that is not greater: a stable sort by name. */
  function Insert(t: Tree, sorted: seq<Tree>): seq<Tree> {
    if sorted == [] then [t]
    else if LexLess(t.name, sorted[0].name) then [t] + sorted
    else [sorted[0]] + Insert(t, sorted[1..])
  }

  function SortByName(trees: seq<Tree>): seq<Tree> {
    if trees == [] then [] else Insert(trees[|trees| - 1], SortByName(trees[..|trees| - 1]))
  }

  /** Lines 36-51: the tree that is written, entries in byte order of their names. */
  function Canonical(s: Source): (r: Tree)
    requires Supported(s)
    ensures s.SourceDir? <==> r.Dir?
    ensures r.name == s.name
  {
    match s
    case SourceDir(name, exec, entries) =>
      Dir(name, exec, SortByName(CanonicalAll(entries)))
    case SourceFile(name, exec, data) => File(name, exec, data)
    case SourceLink(name, target) => Symlink(name, target)
  }

  function CanonicalAll(entries: seq<Source>): (r: seq<Tree>)
    requires forall e | e in entries :: Supported(e)
    ensures |r| == |entries|
    ensures forall i :: 0 <= i < |r| ==> r[i] == Canonical(entries[i])
  {
    if entries == [] then [] else [Canonical(entries[0])] + CanonicalAll(entries[1..])
  }

  predicate NameOk(name: Bytes) { 0 !in name }

  predicate NamesOk(t: Tree) {
    NameOk(t.name) && (t.Dir? ==> forall c | c in t.children :: NamesOk(c))
  }

  const DOT: Bytes := [46]
  const DOTDOT: Bytes := [46, 46]

  // ---- Reading ---------------------------------------------------------------------------

  datatype Header = Header(next: nat, kind: nat, exec: bool, spec: nat, size: nat, name: Bytes, dataAt: nat)

  /** The bytes from `at` up to the first NUL; None when there is none. */
  function ReadName(image: Bytes, at: nat): (r: Option<Bytes>)
    requires at <= |image|
    ensures r.Some? ==> at + |r.value| < |image| && r.value == image[at..at + |r.value|]
    decreases |image| - at
  {
    if at == |image| then None
    else if image[at] == 0 then Some([])
    else match ReadName(image, at + 1)
      case None => None
      case Some(rest) => Some([image[at]] + rest)
  }

  /** A file header at `off`: next pointer with the mode in its low four bits, special info,
      size, checksum, and a NUL-terminated name padded to 16 bytes; its words must sum to 0. */
  function ParseHeader(image: Bytes, off: nat): (r: Option<Header>)
    ensures r.Some? ==> off + 16 <= |image| && r.value.dataAt + r.value.size <= |image|
  {
    if off + 16 > |image| then None
    else
      match ReadName(image, off + 16)
      case None => None
      case Some(name) =>
        var dataAt := off + 16 + (|name| + 1) + Gap(|name| + 1, 16);
        var word, size := Decode32(image, off), Decode32(image, off + 8);
        if dataAt + size > |image| then None
        else if WordSum(image[off..dataAt]) % WORD != 0 then None
        else Some(Header(word / 16 * 16, word % 8, word % 16 >= 8, Decode32(image, off + 4), size, name, dataAt))
  }

  function Remaining(image: Bytes, off: nat): nat {
    if off == 0 || off >= |image| then 0 else |image| - off
  }

  /** Follows the sibling chain from `off` (0 ends it). Hard links are only accepted as the
      entries "." for the directory itself and ".." for its parent. */
  function ReadList(image: Bytes, off: nat, self: nat, parent: nat): Option<seq<Tree>>
    decreases Remaining(image, off)
  {
    if off == 0 then Some([])
    else match ParseHeader(image, off)
      case None => None
      case Some(h) =>
        if h.next != 0 && h.next <= off then None
        else match ReadList(image, h.next, self, parent)
          case None => None
          case Some(rest) =>
            match h.kind
            case 0 =>
              if (h.name == DOT && h.spec == self) || (h.name == DOTDOT && h.spec == parent) then Some(rest) else None
            case 1 =>
              if h.spec <= off then None
              else (match ReadList(image, h.spec, off, self)
                    case None => None
                    case Some(children) => Some([Dir(h.name, h.exec, children)] + rest))
            case 2 => Some([File(h.name, h.exec, image[h.dataAt..h.dataAt + h.size])] + rest)
            case 3 => Some([Symlink(h.name, image[h.dataAt..h.dataAt + h.size])] + rest)
            case _ => None
  }

  const MAGIC: Bytes := [45, 114, 111, 109, 49, 102, 115, 45]

  datatype Volume = Volume(name: Bytes, exec: bool, children: seq<Tree>)

  /** Where a reader starts in the root directory: at the root header itself, following its
      siblings, or at the root's special-info pointer. */
  datatype Entry = AtRootHeader | AtSpecialInfo

  /** The volume header: magic, full size, first 512 bytes summing to 0, name; then the root. */
  function ReadVolume(image: Bytes, begin: Entry): Option<Volume> {
    if |image| < 512 || image[..8] != MAGIC || Decode32(image, 8) > |image| then None
    else if WordSum(image[..512]) % WORD != 0 then None
    else match ReadName(image, 16)
      case None => None
      case Some(name) =>
        var root := 16 + (|name| + 1) + Gap(|name| + 1, 16);
        match ParseHeader(image, root)
        case None => None
        case Some(h) =>
          if h.kind != 1 || h.name != DOT then None
          else
            // The root header doubles as the "." entry of its own listing.
            var first := if begin.AtRootHeader? then root else h.spec;
            if first != root || (h.next != 0 && h.next <= root) then None
            else match ReadList(image, h.next, root, root)
              case None => None
              case Some(children) => Some(Volume(name, h.exec, children))
  }
}
