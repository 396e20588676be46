/** The image scan of tools/check_ti_free_image.py: a rolling hash that finds exactly what hashing
    every window would, so that no long enough piece of the service pack goes unreported. */
module ImageScan {
  import opened Basics
  import opened Octets
  import opened RollingHash

  const CHUNK: nat := 256
  const BASE: nat := 257
  const MODULUS: nat := 0x1FFF_FFFF_FFFF_FFFF

  function Values(data: Bytes): (r: seq<nat>)
    ensures |r| == |data| && forall i :: 0 <= i < |r| ==> r[i] == data[i] as nat
  {
    seq(|data|, i requires 0 <= i < |data| => data[i] as nat)
  }

  /** Lines 69-73. */
  function Roll(window: Bytes): (r: nat)
    ensures r < MODULUS
  {
    Direct(Values(window), BASE, MODULUS)
  }

  /** The hash that stored fingerprints hold, byte by byte. */
  lemma RollAppends(window: Bytes, b: byte)
    ensures Roll([]) == 0 && Roll(window + [b]) == (Roll(window) * 257 + b as nat) % 2305843009213693951
  {
    assert Values([]) == [] && Values(window + [b]) == Values(window) + [b as nat];
    PolyAppend(Values(window), b as nat, 257);
    ModStep(Poly(Values(window), 257), 257, b as nat, 2305843009213693951);
  }

  /** Lines 59-66; None for a service pack shorter than one chunk. */
  function Chunks(data: Bytes): (r: Option<seq<Bytes>>)
    ensures r.None? <==> |data| < CHUNK
    ensures r.Some? ==>
      && |r.value| == |data| / CHUNK + (if |data| % CHUNK == 0 then 0 else 1)
      && (forall i | 0 <= i < |r.value| :: |r.value[i]| == CHUNK)
      && (forall i | 0 <= i < |data| / CHUNK ::
        CHUNK * i + CHUNK <= |data| && r.value[i] == data[CHUNK * i..CHUNK * i + CHUNK])
      && (|data| % CHUNK != 0 ==> r.value[|r.value| - 1] == data[|data| - CHUNK..])
  {
    if |data| < CHUNK then None
    else
      var whole := seq(|data| / CHUNK, i requires 0 <= i < |data| / CHUNK => data[CHUNK * i..CHUNK * i + CHUNK]);
      Some(if |data| % CHUNK == 0 then whole else whole + [data[|data| - CHUNK..]])
  }

  /** A fingerprint entry: the rolling hash and the strong digest of one chunk. */
  datatype Entry<D> = Entry(rolling: nat, digest: D)

  function Fingerprint<D>(pieces: seq<Bytes>, sha: Bytes -> D): (r: seq<Entry<D>>)
    ensures |r| == |pieces|
    ensures forall i :: 0 <= i < |r| ==> r[i] == Entry(Roll(pieces[i]), sha(pieces[i]))
  {
    seq(|pieces|, i requires 0 <= i < |pieces| => Entry(Roll(pieces[i]), sha(pieces[i])))
  }

  // ---- What a naive scan reports ----------------------------------------------------------

  predicate Matches<D(==)>(data: Bytes, entry: Entry<D>, sha: Bytes -> D, offset: nat)
    requires offset + CHUNK <= |data|
  {
    var window := data[offset..offset + CHUNK];
    Roll(window) == entry.rolling && sha(window) == entry.digest
  }

  /** Hashing the windows before `end` one by one: the offsets that match, in order. */
  function Hits<D(==)>(data: Bytes, entry: Entry<D>, sha: Bytes -> D, end: nat): seq<nat>
    requires end == 0 || end - 1 + CHUNK <= |data|
  {
    if end == 0 then []
    else Hits(data, entry, sha, end - 1) + if Matches(data, entry, sha, end - 1) then [end - 1] else []
  }

  /** How many windows there are. */
  function Windows(data: Bytes): nat { if |data| < CHUNK then 0 else |data| - CHUNK + 1 }

  lemma {:induction false} HitsExactly<D>(data: Bytes, entry: Entry<D>, sha: Bytes -> D, end: nat, offset: nat)
    requires end == 0 || end - 1 + CHUNK <= |data|
    ensures offset in Hits(data, entry, sha, end) <==> offset < end && Matches(data, entry, sha, offset)
    ensures forall i, j | 0 <= i < j < |Hits(data, entry, sha, end)| ::
      Hits(data, entry, sha, end)[i] < Hits(data, entry, sha, end)[j]
    ensures forall h | h in Hits(data, entry, sha, end) :: h < end
    decreases end
  {
    hide Matches;
    if end > 0 {
      HitsExactly(data, entry, sha, end - 1, offset);
      var front := Hits(data, entry, sha, end - 1);
      assert Hits(data, entry, sha, end) == front + (if Matches(data, entry, sha, end - 1) then [end - 1] else []);
      assert forall i | 0 <= i < |front| :: front[i] in front;
    }
  }

  // ---- The scan ---------------------------------------------------------------------------

  /** The entries with this rolling hash, with their indices, in order. */
  function Bucket<D>(entries: seq<Entry<D>>, rolling: nat): (r: seq<(nat, D)>)
    ensures forall e | e in r :: e.0 < |entries|
  {
    if entries == [] then []
    else
      var n := |entries| - 1;
      Bucket(entries[..n], rolling) + if entries[n].rolling == rolling then [(n, entries[n].digest)] else []
  }

  lemma {:induction false} BucketExactly<D>(entries: seq<Entry<D>>, rolling: nat, e: (nat, D))
    ensures e in Bucket(entries, rolling) <==> e.0 < |entries| && entries[e.0] == Entry(rolling, e.1)
    ensures Increasing(Bucket(entries, rolling))
  {
    if entries != [] {
      var n := |entries| - 1;
      BucketExactly(entries[..n], rolling, e);
      BucketNext(entries, rolling);
      var front, last := Bucket(entries[..n], rolling), (n, entries[n].digest);
      InLast(front, last, e);
      IncreasingAppend(front, last);
      hide Bucket, Increasing;
    }
  }

  lemma IncreasingAppend<D>(front: seq<(nat, D)>, last: (nat, D))
    requires Increasing(front) && forall x | x in front :: x.0 < last.0
    ensures Increasing(front + [last])
  {
    assert forall i | 0 <= i < |front| :: front[i] in front;
  }

  lemma BucketNext<D>(entries: seq<Entry<D>>, rolling: nat)
    requires entries != []
    ensures var n := |entries| - 1;
      var front := Bucket(entries[..n], rolling);
      && Bucket(entries, rolling) == (if entries[n].rolling == rolling then front + [(n, entries[n].digest)] else front)
      && forall x | x in front :: x.0 < n
  {
  }

  lemma InLast<T>(s: seq<T>, last: T, x: T)
    ensures x in s + [last] <==> x in s || x == last
  {
  }

  /** Lines 109-111. */
  method Index<D>(entries: seq<Entry<D>>) returns (byRoll: map<nat, seq<(nat, D)>>)
    ensures forall r: nat :: Bucket(entries, r) == if r in byRoll then byRoll[r] else []
  {
    byRoll := map[];
    for i := 0 to |entries|
      invariant forall r: nat :: Bucket(entries[..i], r) == if r in byRoll then byRoll[r] else []
    {
      assert entries[..i + 1][..i] == entries[..i];
      var rolling := entries[i].rolling;
      var before := if rolling in byRoll then byRoll[rolling] else [];
      byRoll := byRoll[rolling := before + [(i, entries[i].digest)]];
    }
    assert entries[..|entries|] == entries;
  }

  /** `found` holds, for every entry, exactly the hits before `end`. */
  ghost predicate Reports<D>(found: map<nat, seq<nat>>, data: Bytes, entries: seq<Entry<D>>, sha: Bytes -> D, end: nat)
    requires end == 0 || end - 1 + CHUNK <= |data|
  {
    && (forall index | index in found :: index < |entries| && found[index] != [])
    && (forall index | 0 <= index < |entries| ::
          Hits(data, entries[index], sha, end) == Listed(found, index))
  }

  predicate Increasing<D>(bucket: seq<(nat, D)>) { forall i, j | 0 <= i < j < |bucket| :: bucket[i].0 < bucket[j].0 }

  function Listed(found: map<nat, seq<nat>>, index: nat): seq<nat> { if index in found then found[index] else [] }

  /** Lines 122-125: the entries of the bucket whose digest agrees get `start` appended. */
  method Append<D(==)>(bucket: seq<(nat, D)>, digest: D, start: nat, before: map<nat, seq<nat>>)
    returns (found: map<nat, seq<nat>>)
    requires Increasing(bucket)
    ensures forall index: nat ::
      Listed(found, index) == Listed(before, index) + if (index, digest) in bucket then [start] else []
    ensures forall index | index in found :: found[index] != [] || (index in before && before[index] == [])
    ensures forall index | index in found :: index in before || exists e | e in bucket :: e.0 == index
  {
    found := before;
    for k := 0 to |bucket|
      invariant forall index: nat ::
        Listed(found, index) == Listed(before, index) + if (index, digest) in bucket[..k] then [start] else []
      invariant forall index | index in found :: found[index] != [] || (index in before && before[index] == [])
      invariant forall index | index in found :: index in before || exists e | e in bucket :: e.0 == index
    {
      var (index, expected) := bucket[k];
      assert bucket[k] in bucket;
      assert bucket[..k + 1] == bucket[..k] + [bucket[k]];
      assert (index, digest) !in bucket[..k];
      if digest == expected {
        found := found[index := Listed(found, index) + [start]];
      }
    }
    assert bucket[..|bucket|] == bucket;
  }

  lemma BucketHolds<D>(data: Bytes, entries: seq<Entry<D>>, sha: Bytes -> D, start: nat, index: nat)
    requires start + CHUNK <= |data| && index < |entries|
    ensures var window := data[start..start + CHUNK];
      (index, sha(window)) in Bucket(entries, Roll(window)) <==> Matches(data, entries[index], sha, start)
  {
    hide Roll, Bucket;
    var window := data[start..start + CHUNK];
    BucketExactly(entries, Roll(window), (index, sha(window)));
  }

  /** One window: the entries with its rolling hash are compared by digest. */
  method Compare<D(==)>(data: Bytes, entries: seq<Entry<D>>, sha: Bytes -> D, bucket: seq<(nat, D)>, start: nat,
                        before: map<nat, seq<nat>>)
      returns (found: map<nat, seq<nat>>)
    requires start + CHUNK <= |data| && bucket == Bucket(entries, Roll(data[start..start + CHUNK]))
    requires Reports(before, data, entries, sha, start)
    ensures Reports(found, data, entries, sha, start + 1)
  {
    hide Roll, Bucket, Matches;
    var digest := sha(data[start..start + CHUNK]);
    BucketExactly(entries, Roll(data[start..start + CHUNK]), (0, digest));
    found := Append(bucket, digest, start, before);
    forall index | 0 <= index < |entries| ensures Hits(data, entries[index], sha, start + 1) == Listed(found, index) {
      BucketHolds(data, entries, sha, start, index);
    }
  }

  lemma WindowIsValues(data: Bytes, start: nat)
    requires start + CHUNK <= |data|
    ensures Roll(data[start..start + CHUNK]) == WindowHash(Values(data), start, CHUNK, BASE, MODULUS)
  {
    assert Values(data[start..start + CHUNK]) == Values(data)[start..start + CHUNK];
  }

  /** The weight of the byte that leaves the window. */
  function High(): nat { Pow(BASE, CHUNK - 1) % MODULUS }

  lemma RollNext(data: Bytes, start: nat)
    requires start + CHUNK < |data|
    ensures ((Roll(data[start..start + CHUNK]) - data[start] as nat * High()) * BASE +
             data[start + CHUNK] as nat) % MODULUS ==
            Roll(data[start + 1..start + 1 + CHUNK])
  {
    hide Pow, Roll, WindowHash;
    WindowIsValues(data, start);
    WindowIsValues(data, start + 1);
    SlideIsDirect(Values(data), start, CHUNK, BASE, MODULUS);
  }

  /** Lines 107-130: exactly the (chunk, offset) pairs that hashing every window directly gives. */
  method Scan<D(==)>(data: Bytes, entries: seq<Entry<D>>, sha: Bytes -> D) returns (found: map<nat, seq<nat>>)
    ensures Reports(found, data, entries, sha, Windows(data))
  {
    hide Bucket, Roll, Hits, High, Pow, Reports;
    var byRoll := Index(entries);
    found := map[];
    NoHits(data, entries, sha);
    if |data| < CHUNK { return; }
    var high := High();
    FoldIsRoll(data);
    var value := Fold(Values(data[..CHUNK]), BASE, MODULUS);
    var last := |data| - CHUNK;
    var start := 0;
    while true
      invariant 0 <= start <= last
      invariant value == Roll(data[start..start + CHUNK])
      invariant Reports(found, data, entries, sha, start)
      decreases last - start
    {
      var bucket := if value in byRoll then byRoll[value] else [];
      found := Compare(data, entries, sha, bucket, start, found);
      if start == last { return; }
      RollNext(data, start);
      value := ((value - data[start] as nat * high) * BASE + data[start + CHUNK] as nat) % MODULUS;
      start := start + 1;
    }
  }

  lemma NoHits<D>(data: Bytes, entries: seq<Entry<D>>, sha: Bytes -> D)
    ensures Reports(map[], data, entries, sha, 0)
  {
  }

  lemma FoldIsRoll(data: Bytes)
    requires |data| >= CHUNK
    ensures Direct(Values(data[..CHUNK]), BASE, MODULUS) == Roll(data[0..CHUNK])
  {
    assert data[..CHUNK] == data[0..CHUNK];
  }

  // ---- What the scan guarantees -------------------------------------------------------------

  /** The image holds `length` bytes of the service pack, from `at` on, starting at byte `from`. */
  predicate Embeds(image: Bytes, pack: Bytes, at: nat, from: nat, length: nat) {
    at + length <= |image| && from + length <= |pack| && image[at..at + length] == pack[from..from + length]
  }

  /** The chunk grid point inside any 511 consecutive bytes. */
  lemma ChunkInside(from: nat, length: nat) returns (i: nat)
    requires length >= 511
    ensures from <= CHUNK * i && CHUNK * i + CHUNK <= from + length
  {
    i := (from + 255) / CHUNK;
  }

  lemma EmbeddedChunk(image: Bytes, pack: Bytes, at: nat, from: nat, length: nat, i: nat)
    requires Embeds(image, pack, at, from, length) && from <= CHUNK * i && CHUNK * i + CHUNK <= from + length
    ensures var offset := at + (CHUNK * i - from);
      offset + CHUNK <= |image| && image[offset..offset + CHUNK] == pack[CHUNK * i..CHUNK * i + CHUNK]
  {
    var skip := CHUNK * i - from;
    Subslice(image, at, length, skip, skip + CHUNK);
    Subslice(pack, from, length, skip, skip + CHUNK);
  }

  lemma ChunkAt(pack: Bytes, i: nat)
    requires CHUNK * i + CHUNK <= |pack|
    ensures Chunks(pack).Some? && i < |Chunks(pack).value|
      && Chunks(pack).value[i] == pack[CHUNK * i..CHUNK * i + CHUNK]
  {
    assert i < |pack| / CHUNK;
  }

  /** Any image with 511 or more consecutive service-pack bytes, at any alignment, is reported. */
  lemma EmbeddedIsReported<D>(image: Bytes, pack: Bytes, sha: Bytes -> D, at: nat, from: nat, length: nat,
                              found: map<nat, seq<nat>>)
    requires Chunks(pack).Some? && Embeds(image, pack, at, from, length) && length >= 511
    requires Reports(found, image, Fingerprint(Chunks(pack).value, sha), sha, Windows(image))
    ensures exists i, offset | i in found ::
      && offset in found[i] && from <= CHUNK * i && CHUNK * i + CHUNK <= from + length
      && offset == at + (CHUNK * i - from)
  {
    var entries := Fingerprint(Chunks(pack).value, sha);
    var i := ChunkInside(from, length);
    var offset := at + (CHUNK * i - from);
    hide Roll, Chunks, Hits;
    EmbeddedChunk(image, pack, at, from, length, i);
    ChunkAt(pack, i);
    assert Matches(image, entries[i], sha, offset);
    HitsExactly(image, entries[i], sha, Windows(image), offset);
    assert i in found && offset in found[i];
  }

  /** No window of this image has the digest of the piece without being it. */
  predicate NoCollision<D(==)>(image: Bytes, piece: Bytes, sha: Bytes -> D) {
    forall offset | 0 <= offset < Windows(image) ::
      sha(Window(image, offset)) == sha(piece) ==> Window(image, offset) == piece
  }

  function Window(image: Bytes, offset: nat): Bytes
    requires offset < Windows(image)
  {
    image[offset..offset + CHUNK]
  }

  /** Unless a window of the image collides with the chunk, what is reported for the chunk is exactly
      where it really lies. */
  lemma ReportedIsEmbedded<D>(image: Bytes, pieces: seq<Bytes>, sha: Bytes -> D, found: map<nat, seq<nat>>, i: nat,
                              offset: nat)
    requires Reports(found, image, Fingerprint(pieces, sha), sha, Windows(image)) && i < |pieces|
    requires NoCollision(image, pieces[i], sha)
    ensures (i in found && offset in found[i]) <==>
      offset + CHUNK <= |image| && image[offset..offset + CHUNK] == pieces[i]
  {
    hide Roll;
    var entry := Fingerprint(pieces, sha)[i];
    HitsExactly(image, entry, sha, Windows(image), offset);
    assert offset < Windows(image) ==> Window(image, offset) == image[offset..offset + CHUNK];
  }

  // ---- 511 cannot be lowered ------------------------------------------------------------------

  /** Two chunks, marked at the very first and the very last byte. */
  function Marked(): (r: Bytes)
    ensures |r| == 512 && r[0] == 1 && r[511] == 1
    ensures r[1..511] == Zeros(510)
  {
    [1] + Zeros(510) + [1]
  }

  lemma MarkedChunks()
    ensures Chunks(Marked()).Some? && |Chunks(Marked()).value| == 2
    ensures Chunks(Marked()).value[0][0] == 1 && Chunks(Marked()).value[1][255] == 1
  {
    var pieces := Chunks(Marked()).value;
    assert pieces[0] == Marked()[0..256] && pieces[1] == Marked()[256..512];
  }

  /** 510 consecutive service-pack bytes can go unreported: for every digest under which no window
      collides with a chunk there is an image that holds bytes 1 to 510 of a service pack and about
      which the scan reports nothing. */
  lemma ShorterMayGoUnreported<D>(sha: Bytes -> D, found: map<nat, seq<nat>>)
    requires NoCollision(Zeros(510), Chunks(Marked()).value[0], sha)
      && NoCollision(Zeros(510), Chunks(Marked()).value[1], sha)
    requires Reports(found, Zeros(510), Fingerprint(Chunks(Marked()).value, sha), sha, Windows(Zeros(510)))
    ensures Embeds(Zeros(510), Marked(), 0, 1, 510) && found == map[]
  {
    assert Embeds(Zeros(510), Marked(), 0, 1, 510) by { assert Zeros(510)[0..510] == Zeros(510); }
    MarkedChunks();
    hide Chunks, Roll, Marked;
    PieceUnreported(Chunks(Marked()).value, sha, found, 0, 0);
    PieceUnreported(Chunks(Marked()).value, sha, found, 1, 255);
  }

  lemma PieceUnreported<D>(pieces: seq<Bytes>, sha: Bytes -> D, found: map<nat, seq<nat>>, i: nat, at: nat)
    requires Reports(found, Zeros(510), Fingerprint(pieces, sha), sha, Windows(Zeros(510))) && i < |pieces|
    requires NoCollision(Zeros(510), pieces[i], sha)
    requires |pieces[i]| == CHUNK && at < CHUNK && pieces[i][at] == 1
    ensures i !in found
  {
    hide Roll, NoCollision;
    assert i in found ==> found[i][0] in found[i];
    forall offset: nat ensures !(i in found && offset in found[i]) {
      ReportedIsEmbedded(Zeros(510), pieces, sha, found, i, offset);
      if offset + CHUNK <= 510 { ZeroWindow(offset, pieces[i], at); }
    }
  }

  /** No window of zeros is a chunk with a mark in it. */
  lemma ZeroWindow(offset: nat, piece: Bytes, at: nat)
    requires offset + CHUNK <= 510 && at < CHUNK && |piece| == CHUNK && piece[at] == 1
    ensures Zeros(510)[offset..offset + CHUNK] != piece
  {
    assert Zeros(510)[offset..offset + CHUNK][at] == 0;
  }
}
