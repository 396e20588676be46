/** The token matcher of tools/audit_source_similarity.py. Tokenising is not modelled: files are
    sequences of tokens, and `value` stands for the 64-bit digest of a token. */
module Similarity {
  import opened Basics
  import opened RollingHash

  type Token = string

  const WINDOW: nat := 20
  const BASE: nat := 1000003
  const MODULUS: nat := 0x1_0000_0000_0000_0000
  const FREQUENT: nat := 80
  const SENTINEL: nat := 1_000_000_000_000

  // ---- Windows ----------------------------------------------------------------------------

  function Values(tokens: seq<Token>, value: Token -> nat): (r: seq<nat>)
    ensures |r| == |tokens| && forall i :: 0 <= i < |r| ==> r[i] == value(tokens[i])
  {
    seq(|tokens|, i requires 0 <= i < |tokens| => value(tokens[i]))
  }

  function WindowCount(tokens: seq<Token>): nat { if |tokens| < WINDOW then 0 else |tokens| - WINDOW + 1 }

  /** The digest of the window at `at`, computed directly. */
  function Key(tokens: seq<Token>, value: Token -> nat, at: nat): nat
    requires at < WindowCount(tokens)
  {
    Direct(Values(tokens[at..at + WINDOW], value), BASE, MODULUS)
  }

  function High(): nat { Pow(BASE, WINDOW - 1) % MODULUS }

  lemma KeyIsWindowHash(tokens: seq<Token>, value: Token -> nat, at: nat)
    requires at < WindowCount(tokens)
    ensures Key(tokens, value, at) == WindowHash(Values(tokens, value), at, WINDOW, BASE, MODULUS)
  {
    assert Values(tokens[at..at + WINDOW], value) == Values(tokens, value)[at..at + WINDOW];
  }

  lemma KeyNext(tokens: seq<Token>, value: Token -> nat, at: nat)
    requires at + 1 < WindowCount(tokens)
    ensures ((Key(tokens, value, at) - value(tokens[at]) * High()) * BASE + value(tokens[at + WINDOW])) % MODULUS ==
            Key(tokens, value, at + 1)
  {
    hide Pow, Key, WindowHash;
    KeyIsWindowHash(tokens, value, at);
    KeyIsWindowHash(tokens, value, at + 1);
    SlideIsDirect(Values(tokens, value), at, WINDOW, BASE, MODULUS);
  }

  /** Lines 82-94: the rolled digest is the direct one, for every window, in order. */
  method Windows(tokens: seq<Token>, value: Token -> nat) returns (keys: seq<nat>)
    ensures |keys| == WindowCount(tokens)
    ensures forall p | 0 <= p < |keys| :: keys[p] == Key(tokens, value, p)
  {
    hide Pow, High, Direct;
    keys := [];
    var power := High();
    var digest := Fold(Values(if |tokens| < WINDOW then tokens else tokens[..WINDOW], value), BASE, MODULUS);
    if |tokens| >= WINDOW {
      assert tokens[..WINDOW] == tokens[0..WINDOW];
      keys := [digest];
      hide Key;
      for i := WINDOW to |tokens|
        invariant |keys| == i - WINDOW + 1
        invariant digest == Key(tokens, value, i - WINDOW)
        invariant forall p | 0 <= p < |keys| :: keys[p] == Key(tokens, value, p)
      {
        KeyNext(tokens, value, i - WINDOW);
        digest := ((digest - value(tokens[i - WINDOW]) * power) * BASE + value(tokens[i])) % MODULUS;
        keys := keys + [digest];
      }
    }
  }

  // ---- Where a key occurs in the reference -------------------------------------------------

  type Place = (nat, nat)

  /** The windows of file `id`, before `end`, that have this key. */
  function InFile(keys: seq<nat>, id: nat, key: nat, end: nat): seq<Place>
    requires end <= |keys|
  {
    if end == 0 then []
    else InFile(keys, id, key, end - 1) + if keys[end - 1] == key then [(id, end - 1)] else []
  }

  /** All windows of the first `n` files that have this key. */
  function Occurrences(all: seq<seq<nat>>, key: nat, n: nat): seq<Place>
    requires n <= |all|
  {
    if n == 0 then [] else Occurrences(all, key, n - 1) + InFile(all[n - 1], n - 1, key, |all[n - 1]|)
  }

  lemma {:induction false} InFileExactly(keys: seq<nat>, id: nat, key: nat, end: nat, at: Place)
    requires end <= |keys|
    ensures at in InFile(keys, id, key, end) <==> at.0 == id && at.1 < end && keys[at.1] == key
    decreases end
  {
    if end > 0 { InFileExactly(keys, id, key, end - 1, at); }
  }

  lemma {:induction false} OccurrencesExactly(all: seq<seq<nat>>, key: nat, n: nat, at: Place)
    requires n <= |all|
    ensures at in Occurrences(all, key, n) <==> at.0 < n && at.1 < |all[at.0]| && all[at.0][at.1] == key
    decreases n
  {
    hide InFile;
    if n > 0 {
      OccurrencesExactly(all, key, n - 1, at);
      InFileExactly(all[n - 1], n - 1, key, |all[n - 1]|, at);
    }
  }

  /** What the index holds for a key: nothing at all for a key that occurs too often. */
  function Kept(places: seq<Place>): Option<seq<Place>> { if |places| > FREQUENT then None else Some(places) }

  ghost predicate Indexes(index: map<nat, Option<seq<Place>>>, key: nat, places: seq<Place>) {
    if key in index then places != [] && index[key] == Kept(places) else places == []
  }

  /** Lines 102-108. */
  function Noted(index: map<nat, Option<seq<Place>>>, key: nat, at: Place): map<nat, Option<seq<Place>>> {
    var entry := if key in index then index[key] else Some([]);
    if entry.None? then index else index[key := Kept(entry.value + [at])]
  }

  lemma NotedIndexes(index: map<nat, Option<seq<Place>>>, key: nat, at: Place, other: nat, places: seq<Place>)
    requires Indexes(index, other, places)
    ensures Indexes(Noted(index, key, at), other, places + if other == key then [at] else [])
  {
    assert places + [] == places && [] + [at] == [at];
  }

  /** Lines 99-108: building the index of the reference. */
  method BuildIndex(all: seq<seq<nat>>) returns (index: map<nat, Option<seq<Place>>>)
    ensures forall key: nat :: Indexes(index, key, Occurrences(all, key, |all|))
  {
    hide Indexes, Noted, Occurrences, InFile;
    index := map[];
    forall key: nat ensures Indexes(index, key, Occurrences(all, key, 0)) { NothingIndexed(all, key); }
    for n := 0 to |all|
      invariant forall key: nat :: Indexes(index, key, Occurrences(all, key, n))
    {
      forall key: nat ensures Indexes(index, key, Occurrences(all, key, n) + InFile(all[n], n, key, 0)) {
        NothingInFile(all, n, key);
      }
      for p := 0 to |all[n]|
        invariant forall key: nat :: Indexes(index, key, Occurrences(all, key, n) + InFile(all[n], n, key, p))
      {
        var next := Noted(index, all[n][p], (n, p));
        forall key: nat ensures Indexes(next, key, Occurrences(all, key, n) + InFile(all[n], n, key, p + 1)) {
          NotedIndexes(index, all[n][p], (n, p), key, Occurrences(all, key, n) + InFile(all[n], n, key, p));
          InFileNext(all, n, key, p);
        }
        index := next;
      }
      ghost var m := n + 1;
      forall key: nat ensures Indexes(index, key, Occurrences(all, key, m)) { OccurrencesNext(all, n, key); }
    }
  }

  lemma NothingIndexed(all: seq<seq<nat>>, key: nat)
    ensures Indexes(map[], key, Occurrences(all, key, 0))
  {
  }

  lemma NothingInFile(all: seq<seq<nat>>, n: nat, key: nat)
    requires n < |all|
    ensures Occurrences(all, key, n) + InFile(all[n], n, key, 0) == Occurrences(all, key, n)
  {
  }

  lemma InFileNext(all: seq<seq<nat>>, n: nat, key: nat, p: nat)
    requires n < |all| && p < |all[n]|
    ensures Occurrences(all, key, n) + InFile(all[n], n, key, p + 1) ==
            (Occurrences(all, key, n) + InFile(all[n], n, key, p)) + if key == all[n][p] then [(n, p)] else []
  {
  }

  lemma OccurrencesNext(all: seq<seq<nat>>, n: nat, key: nat)
    requires n < |all|
    ensures Occurrences(all, key, n + 1) == Occurrences(all, key, n) + InFile(all[n], n, key, |all[n]|)
  {
  }
}
