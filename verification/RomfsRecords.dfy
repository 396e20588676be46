/** One ROMFS record: what the writer emits parses back, and its words sum to zero. */
module RomfsRecords {
  import opened Basics
  import opened Octets
  import opened RomfsModel
  import opened RomfsWriter

  lemma {:induction false} WordSumConcat(a: Bytes, b: Bytes)
    requires |a| % 4 == 0
    ensures WordSum(a + b) == WordSum(a) + WordSum(b)
  {
    if a == [] {
      assert a + b == b;
    } else {
      WordSumConcat(a[4..], b);
      assert (a + b)[4..] == a[4..] + b;
      assert Decode32(a + b, 0) == Decode32(a, 0);
    }
  }

  lemma WordSumOne(n: nat)
    requires n < WORD
    ensures WordSum(Encode32(n)) == n
  {
    assert Encode32(n)[4..] == [];
  }

  lemma {:induction false} WordSumZeros(n: nat)
    ensures WordSum(Zeros(n)) == 0
    decreases n
  {
    if n >= 4 {
      assert Zeros(n)[4..] == Zeros(n - 4);
      WordSumZeros(n - 4);
    }
  }

  /** Replacing a zero word by `check` adds exactly `check` to the sum. */
  lemma WordSumPatch(front: Bytes, check: nat, back: Bytes)
    requires |front| % 4 == 0 && check < WORD
    ensures WordSum(front + Encode32(check) + back) == WordSum(front + Encode32(0) + back) + check
  {
    hide Encode32, WordSum;
    WordSumConcat(front + Encode32(check), back) by { assert |front + Encode32(check)| % 4 == 0; }
    WordSumConcat(front, Encode32(check));
    WordSumConcat(front + Encode32(0), back) by { assert |front + Encode32(0)| % 4 == 0; }
    WordSumConcat(front, Encode32(0));
    WordSumOne(check);
    WordSumOne(0);
  }

  lemma HeaderSumsToZero(word: nat, spec: nat, size: nat, name: Bytes)
    ensures WordSum(HeaderBytes(word, spec, size, name)) % WORD == 0
  {
    var front := Encode32(word) + Encode32(spec) + Encode32(size);
    var check := Checksum(HeaderWith(word, spec, size, 0, name));
    WordSumPatch(front, check, NameField(name));
  }

  lemma DecodeAt(image: Bytes, off: nat, piece: Bytes, k: nat)
    requires off + |piece| <= |image| && image[off..off + |piece|] == piece && k + 4 <= |piece|
    ensures Decode32(image, off + k) == Decode32(piece, k)
  {
    var slice := image[off..off + |piece|];
    assert slice[k] == image[off + k] && slice[k + 1] == image[off + k + 1] && slice[k + 2] == image[off + k + 2] &&
           slice[k + 3] == image[off + k + 3];
  }

  lemma FourWords(a: Bytes, b: Bytes, c: Bytes, d: Bytes, rest: Bytes)
    requires |a| == |b| == |c| == |d| == 4
    ensures var h := a + b + c + d + rest; h[0..4] == a && h[4..8] == b && h[8..12] == c && h[16..] == rest
  {
  }

  lemma HeaderFields(word: nat, spec: nat, size: nat, check: nat, name: Bytes)
    requires word < WORD && spec < WORD && size < WORD
    ensures var h := HeaderWith(word, spec, size, check, name);
      Decode32(h, 0) == word && Decode32(h, 4) == spec && Decode32(h, 8) == size && h[16..] == NameField(name)
  {
    var h := HeaderWith(word, spec, size, check, name);
    FourWords(Encode32(word), Encode32(spec), Encode32(size), Encode32(check), NameField(name));
    DecodeAt(h, 0, Encode32(word), 0);
    DecodeAt(h, 4, Encode32(spec), 0);
    DecodeAt(h, 8, Encode32(size), 0);
  }

  lemma ModeWordDecodes(next: nat, kind: nat, exec: bool)
    requires Aligned(next) && kind < 8
    ensures var word := ModeWord(next, kind, exec);
      word / 16 * 16 == next && word % 8 == kind && (word % 16 >= 8 <==> exec)
  {
    var q := next / 16;
    assert next == 16 * q;
  }

  lemma {:induction false} ReadNameFinds(image: Bytes, at: nat, name: Bytes)
    requires NameOk(name) && at + |name| < |image|
    requires image[at..at + |name|] == name && image[at + |name|] == 0
    ensures ReadName(image, at) == Some(name)
    decreases |name|
  {
    if name != [] {
      assert image[at] == image[at..at + |name|][0] == name[0];
      assert image[at + 1..at + 1 + |name[1..]|] == image[at..at + |name|][1..];
      ReadNameFinds(image, at + 1, name[1..]);
    }
  }

  /** `piece` is in the image at `off`. */
  predicate Has(image: Bytes, off: nat, piece: Bytes) {
    off + |piece| <= |image| && image[off..off + |piece|] == piece
  }

  lemma HasSplit(image: Bytes, off: nat, a: Bytes, b: Bytes)
    requires Has(image, off, a + b)
    ensures Has(image, off, a) && Has(image, off + |a|, b)
  {
    assert image[off..off + |a|] == image[off..off + |a + b|][..|a|] == a;
    assert image[off + |a|..off + |a| + |b|] == image[off..off + |a + b|][|a|..] == b;
  }

  /** A written record parses back, and its data lies where the header says. */
  lemma ParseRecord(image: Bytes, off: nat, next: nat, kind: nat, exec: bool, spec: nat, name: Bytes, data: Bytes)
    requires Has(image, off, Record(ModeWord(next, kind, exec), spec, name, data))
    requires Aligned(next) && kind < 8 && next + 16 <= WORD && spec < WORD && |data| < WORD && NameOk(name)
    ensures var dataAt := off + 16 + |NameField(name)|;
      && ParseHeader(image, off) == Some(Header(next, kind, exec, spec, |data|, name, dataAt))
      && dataAt + |data| <= |image| && image[dataAt..dataAt + |data|] == data
  {
    hide *;
    SixteenAligns();
    var word := ModeWord(next, kind, exec);
    var header := HeaderBytes(word, spec, |data|, name);
    RecordSplits(word, spec, name, data);
    ModeWordDecodes(next, kind, exec);
    ModeWordFits(next, kind, exec);
    HasSplit(image, off, header, Padded(data, 16));
    DataLies(image, off + |header|, data);
    HeaderParses(image, off, word, spec, |data|, name);
  }

  lemma SixteenAligns()
    ensures Alignment(16)
  {
  }

  lemma RecordSplits(word: nat, spec: nat, name: Bytes, data: Bytes)
    ensures Record(word, spec, name, data) == HeaderBytes(word, spec, |data|, name) + Padded(data, 16)
    ensures |HeaderBytes(word, spec, |data|, name)| == 16 + |NameField(name)|
  {
    hide HeaderWith, NameField, Padded, Checksum;
  }

  lemma ModeWordFits(next: nat, kind: nat, exec: bool)
    requires next + 16 <= WORD && kind < 8
    ensures ModeWord(next, kind, exec) < WORD
  {
  }

  lemma DataLies(image: Bytes, at: nat, data: Bytes)
    requires Has(image, at, Padded(data, 16))
    ensures at + |data| <= |image| && image[at..at + |data|] == data
  {
    assert image[at..at + |data|] == image[at..at + |Padded(data, 16)|][..|data|];
  }

  lemma HeaderParses(image: Bytes, off: nat, word: nat, spec: nat, size: nat, name: Bytes)
    requires Has(image, off, HeaderBytes(word, spec, size, name))
    requires word < WORD && spec < WORD && size < WORD && NameOk(name)
    requires off + 16 + |NameField(name)| + size <= |image|
    ensures var dataAt := off + 16 + |NameField(name)|;
      ParseHeader(image, off) == Some(Header(word / 16 * 16, word % 8, word % 16 >= 8, spec, size, name, dataAt))
  {
    hide Decode32, WordSum, ReadName, Checksum, Encode32;
    var header := HeaderBytes(word, spec, size, name);
    var check := Checksum(HeaderWith(word, spec, size, 0, name));
    HeaderFields(word, spec, size, check, name);
    DecodeAt(image, off, header, 0);
    DecodeAt(image, off, header, 4);
    DecodeAt(image, off, header, 8);
    HeaderSumsToZero(word, spec, size, name);
    NameFieldReads(image, off, word, spec, size, name);
    assert image[off..off + 16 + |NameField(name)|] == header;
  }

  lemma NameFieldReads(image: Bytes, off: nat, word: nat, spec: nat, size: nat, name: Bytes)
    requires Has(image, off, HeaderBytes(word, spec, size, name)) && NameOk(name)
    ensures ReadName(image, off + 16) == Some(name)
  {
    var header := HeaderBytes(word, spec, size, name);
    var field := NameField(name);
    assert header == header[..16] + field by { assert header[16..] == field by { hide Encode32; } }
    HasSplit(image, off, header[..16], field);
    assert field[..|name|] == name && field[|name|] == 0 by { assert (name + [0])[..|name|] == name; }
    FieldReads(image, off + 16, field, name);
  }

  /** A NUL-terminated, padded name in the image. */
  lemma FieldReads(image: Bytes, at: nat, field: Bytes, name: Bytes)
    requires Has(image, at, field) && |field| > |name| && field[..|name|] == name && field[|name|] == 0 && NameOk(name)
    ensures ReadName(image, at) == Some(name)
  {
    assert image[at..at + |name|] == image[at..at + |field|][..|name|];
    assert image[at + |name|] == image[at..at + |field|][|name|];
    ReadNameFinds(image, at, name);
  }
}
