/** Seeds, spans, and what the similarity scan reports. */
module SimilaritySpans {
  import opened Basics
  import opened Similarity

  // ---- Seeds ------------------------------------------------------------------------------

  /** One local file against the reference: `all` holds the keys of every reference file. */
  datatype Corpus = Corpus(local: seq<Token>, refs: seq<seq<Token>>, value: Token -> nat, all: seq<seq<nat>>)

  ghost predicate KeysOf(all: seq<seq<nat>>, refs: seq<seq<Token>>, value: Token -> nat) {
    && |all| == |refs|
    && forall id | 0 <= id < |refs| ::
         |all[id]| == WindowCount(refs[id]) && forall p | 0 <= p < |all[id]| :: all[id][p] == Key(refs[id], value, p)
  }

  /** The key occurs at most 80 times in the reference. */
  ghost predicate Usable(c: Corpus, key: nat) { |Occurrences(c.all, key, |c.all|)| <= 80 }

  predicate SameWindow(local: seq<Token>, refs: seq<seq<Token>>, id: nat, at: Place) {
    && id < |refs| && at.0 < WindowCount(local) && at.1 < WindowCount(refs[id])
    && local[at.0..at.0 + WINDOW] == refs[id][at.1..at.1 + WINDOW]
  }

  /** Equal windows whose key is not suppressed. */
  ghost predicate Seed(c: Corpus, id: nat, at: Place) {
    SameWindow(c.local, c.refs, id, at) && Usable(c, Key(c.local, c.value, at.0))
  }

  function PairsFor(pairs: map<nat, seq<Place>>, id: nat): seq<Place> { if id in pairs then pairs[id] else [] }

  /** Lines 114-117: one window of the local file. */
  method Verify(local: seq<Token>, refs: seq<seq<Token>>, lp: nat, places: seq<Place>, before: map<nat, seq<Place>>)
      returns (pairs: map<nat, seq<Place>>)
    requires lp < WindowCount(local)
    requires forall at | at in places :: at.0 < |refs| && at.1 < WindowCount(refs[at.0])
    ensures forall id: nat, at: Place :: at in PairsFor(pairs, id) <==>
      at in PairsFor(before, id)
      || (at.0 == lp && (id, at.1) in places && SameWindow(local, refs, id, at))
  {
    pairs := before;
    for k := 0 to |places|
      invariant forall id: nat, at: Place :: at in PairsFor(pairs, id) <==>
        at in PairsFor(before, id)
        || (at.0 == lp && (id, at.1) in places[..k] && SameWindow(local, refs, id, at))
    {
      assert places[k] in places;
      assert places[..k + 1] == places[..k] + [places[k]];
      var (id, rp) := places[k];
      if local[lp..lp + WINDOW] == refs[id][rp..rp + WINDOW] {
        pairs := pairs[id := PairsFor(pairs, id) + [(lp, rp)]];
      }
    }
    assert places[..|places|] == places;
  }

  function Looked(index: map<nat, Option<seq<Place>>>, key: nat): seq<Place> {
    if key in index && index[key].Some? then index[key].value else []
  }

  lemma SeedExactly(c: Corpus, index: map<nat, Option<seq<Place>>>, places: seq<Place>, id: nat, at: Place)
    requires KeysOf(c.all, c.refs, c.value) && at.0 < WindowCount(c.local)
    requires Indexes(index, Key(c.local, c.value, at.0), Occurrences(c.all, Key(c.local, c.value, at.0), |c.all|))
    requires places == Looked(index, Key(c.local, c.value, at.0))
    ensures forall q | q in places :: q.0 < |c.refs| && q.1 < WindowCount(c.refs[q.0])
    ensures (id, at.1) in places && SameWindow(c.local, c.refs, id, at) <==> Seed(c, id, at)
  {
    hide Occurrences;
    var key := Key(c.local, c.value, at.0);
    forall q: Place
      ensures q in Occurrences(c.all, key, |c.all|) <==> q.0 < |c.all| && q.1 < |c.all[q.0]| && c.all[q.0][q.1] == key {
      OccurrencesExactly(c.all, key, |c.all|, q);
    }
  }

  /** Lines 112-117: all verified seeds of one local file, by reference file. */
  method Pairs(c: Corpus, index: map<nat, Option<seq<Place>>>) returns (pairs: map<nat, seq<Place>>)
    requires KeysOf(c.all, c.refs, c.value) && forall key: nat :: Indexes(index, key, Occurrences(c.all, key, |c.all|))
    ensures forall id: nat, at: Place :: at in PairsFor(pairs, id) <==> Seed(c, id, at)
  {
    hide Key, KeysOf, Indexes, Occurrences, Looked, Usable;
    var keys := Windows(c.local, c.value);
    pairs := map[];
    for lp := 0 to |keys|
      invariant forall id: nat, at: Place :: at in PairsFor(pairs, id) <==> at.0 < lp && Seed(c, id, at)
    {
      var places := Looked(index, keys[lp]);
      forall id: nat, at: Place | at.0 == lp
        ensures (id, at.1) in places && SameWindow(c.local, c.refs, id, at) <==> Seed(c, id, at) {
        SeedExactly(c, index, places, id, at);
      }
      SeedExactly(c, index, places, 0, (lp, 0));
      pairs := Verify(c.local, c.refs, lp, places, pairs);
    }
  }

  // ---- Spans ------------------------------------------------------------------------------

  predicate StrictlyIncreasing(s: seq<nat>) { forall i, j | 0 <= i < j < |s| :: s[i] < s[j] }

  function InsertOnce(x: nat, s: seq<nat>): (r: seq<nat>)
    requires StrictlyIncreasing(s)
    ensures StrictlyIncreasing(r) && forall y :: y in r <==> y == x || y in s
  {
    if s == [] || x < s[0] then [x] + s
    else if x == s[0] then s
    else
      var r := InsertOnce(x, s[1..]);
      assert s == [s[0]] + s[1..];
      assert forall i | 0 <= i < |r| :: r[i] in r;
      [s[0]] + r
  }

  method SortedSet(list: seq<nat>) returns (r: seq<nat>)
    ensures StrictlyIncreasing(r) && forall x :: x in r <==> x in list
  {
    r := [];
    for i := 0 to |list|
      invariant StrictlyIncreasing(r) && forall x :: x in r <==> x in list[..i]
    {
      assert list[..i + 1] == list[..i] + [list[i]];
      r := InsertOnce(list[i], r);
    }
    assert list[..|list|] == list;
  }

  /** A run of consecutive positions that cannot be extended. */
  predicate MaximalRun(positions: seq<nat>, start: nat, last: nat) {
    && start <= last
    && (forall p | start <= p <= last :: p in positions)
    && (start > 0 ==> start - 1 !in positions)
    && last + 1 !in positions
  }

  /** Lines 125-134: the maximal runs of a diagonal that are long enough. The loop ends with a
      sentinel position of 10^12, so positions must stay clear of it. */
  method MergeRuns(ordered: seq<nat>, minimum: nat) returns (runs: seq<(nat, nat)>)
    requires StrictlyIncreasing(ordered) && ordered != [] && forall p | p in ordered :: p + 1 < SENTINEL
    ensures forall r :: r in runs <==> MaximalRun(ordered, r.0, r.1) && r.1 - r.0 + WINDOW >= minimum
    ensures forall r | r in runs :: r.0 <= r.1
  {
    var e := ordered + [SENTINEL];
    runs := [];
    var start: nat, last: nat := e[0], e[0];
    forall r: (nat, nat) ensures !(MaximalRun(ordered, r.0, r.1) && r.1 < start) { FirstIsLeast(ordered, r.1); }
    for i := 1 to |e|
      invariant start <= last == e[i - 1]
      invariant start > 0 ==> start - 1 !in ordered
      invariant i <= |ordered| ==> forall p | start <= p <= last :: p in ordered
      invariant i == |e| ==> start == SENTINEL
      invariant forall r :: r in runs <==> MaximalRun(ordered, r.0, r.1) && r.1 < start && r.1 - r.0 + WINDOW >= minimum
    {
      var position: nat := e[i];
      Gap(ordered, i);
      if position == last + 1 {
        last := position;
      } else {
        var length := last - start + WINDOW;
        forall r: (nat, nat) ensures MaximalRun(ordered, r.0, r.1) && r.1 < position <==>
          (MaximalRun(ordered, r.0, r.1) && r.1 < start) || r == (start, last)
        {
          RunEnds(ordered, start, last, position, r);
        }
        if length >= minimum { runs := runs + [(start, last)]; }
        start, last := position, position;
      }
    }
    forall r: (nat, nat) | MaximalRun(ordered, r.0, r.1) ensures r.1 < start { assert r.1 in ordered; }
  }

  lemma FirstIsLeast(ordered: seq<nat>, p: nat)
    requires StrictlyIncreasing(ordered) && ordered != []
    ensures p in ordered ==> ordered[0] <= p
  {
  }

  /** Between neighbours of the list, sentinel included, there is nothing. */
  lemma Gap(ordered: seq<nat>, i: nat)
    requires StrictlyIncreasing(ordered) && 1 <= i <= |ordered| && forall p | p in ordered :: p + 1 < SENTINEL
    ensures var e := ordered + [SENTINEL];
      e[i - 1] < e[i] && e[i - 1] + 1 < SENTINEL && forall p | p in ordered :: p <= e[i - 1] || e[i] <= p
  {
    var e := ordered + [SENTINEL];
    assert e[i - 1] in ordered;
    forall p | p in ordered ensures p <= e[i - 1] || e[i] <= p {
      var k :| 0 <= k < |ordered| && ordered[k] == p;
      assert k <= i - 1 || i <= k;
    }
  }

  /** The run being closed is the only maximal run that ends between `start` and `position`. */
  lemma RunEnds(ordered: seq<nat>, start: nat, last: nat, position: nat, r: (nat, nat))
    requires start <= last < position && position != last + 1
    requires (forall p | start <= p <= last :: p in ordered) && (start > 0 ==> start - 1 !in ordered)
    requires forall p | p in ordered :: p <= last || position <= p
    ensures MaximalRun(ordered, r.0, r.1) && r.1 < position <==>
      (MaximalRun(ordered, r.0, r.1) && r.1 < start) || r == (start, last)
  {
    if MaximalRun(ordered, r.0, r.1) && start <= r.1 < position {
      assert r.1 in ordered;
      assert r.1 == last;
    }
  }

  datatype Span = Span(local: nat, reference: int, tokens: nat)

  function Diagonal(at: Place): int { at.1 as int - at.0 as int }

  /** Positions on one diagonal. */
  function OnDiagonal(positions: seq<Place>, delta: int): seq<nat> {
    if positions == [] then []
    else
      var n := |positions| - 1;
      OnDiagonal(positions[..n], delta) + if Diagonal(positions[n]) == delta then [positions[n].0] else []
  }

  lemma {:induction false} OnDiagonalExactly(positions: seq<Place>, delta: int, p: nat)
    ensures p in OnDiagonal(positions, delta) <==> exists at | at in positions :: at.0 == p && Diagonal(at) == delta
  {
    if positions != [] {
      var n := |positions| - 1;
      OnDiagonalExactly(positions[..n], delta, p);
      assert positions == positions[..n] + [positions[n]];
    }
  }

  lemma OnDiagonalNext(positions: seq<Place>, i: nat, delta: int)
    requires i < |positions|
    ensures OnDiagonal(positions[..i + 1], delta) ==
      OnDiagonal(positions[..i], delta) + if Diagonal(positions[i]) == delta then [positions[i].0] else []
  {
    assert positions[..i + 1][..i] == positions[..i];
  }

  /** Lines 119-121; `order` lists the dictionary's keys as they were first seen. */
  method Diagonals(positions: seq<Place>) returns (diagonals: map<int, seq<nat>>, order: seq<int>)
    ensures forall delta :: delta in diagonals <==> delta in order
    ensures forall delta :: delta in diagonals <==> OnDiagonal(positions, delta) != []
    ensures forall delta | delta in diagonals :: diagonals[delta] == OnDiagonal(positions, delta)
  {
    diagonals, order := map[], [];
    assert forall d :: OnDiagonal(positions[..0], d) == [];
    hide OnDiagonal;
    for i := 0 to |positions|
      invariant forall delta :: delta in diagonals <==> delta in order
      invariant forall delta :: delta in diagonals <==> OnDiagonal(positions[..i], delta) != []
      invariant forall delta | delta in diagonals :: diagonals[delta] == OnDiagonal(positions[..i], delta)
    {
      forall d ensures OnDiagonal(positions[..i + 1], d) ==
        OnDiagonal(positions[..i], d) + if Diagonal(positions[i]) == d then [positions[i].0] else []
      {
        OnDiagonalNext(positions, i, d);
      }
      var delta := Diagonal(positions[i]);
      if delta !in diagonals { order := order + [delta]; }
      diagonals := diagonals[delta := (if delta in diagonals then diagonals[delta] else []) + [positions[i].0]];
    }
    assert positions[..|positions|] == positions;
  }

  /** A maximal run of positions on the diagonal, long enough to report. */
  ghost predicate SpanOf(positions: seq<Place>, minimum: nat, span: Span) {
    && span.tokens >= WINDOW && span.tokens >= minimum
    && MaximalRun(OnDiagonal(positions, span.reference - span.local), span.local, span.local + span.tokens - WINDOW)
  }

  /** Lines 123-134, for one diagonal. */
  method SpansOn(positions: seq<Place>, delta: int, list: seq<nat>, minimum: nat) returns (spans: seq<Span>)
    requires list == OnDiagonal(positions, delta) && list != [] && forall at | at in positions :: at.0 + 1 < SENTINEL
    ensures forall span :: span in spans <==> SpanOf(positions, minimum, span) && span.reference - span.local == delta
  {
    var ordered := SortedSet(list);
    assert list[0] in ordered;
    forall p | p in ordered ensures p + 1 < SENTINEL { OnDiagonalExactly(positions, delta, p); }
    var runs := MergeRuns(ordered, minimum);
    spans := AsSpans(runs, delta);
    hide OnDiagonal, MaximalRun, SpanOf, StrictlyIncreasing;
    forall span ensures span in spans <==> SpanOf(positions, minimum, span) && span.reference - span.local == delta {
      SpanRuns(positions, ordered, runs, minimum, delta, span);
    }
  }

  lemma SpanHasDiagonal(positions: seq<Place>, minimum: nat, span: Span)
    requires SpanOf(positions, minimum, span)
    ensures OnDiagonal(positions, span.reference - span.local) != []
  {
    assert span.local in OnDiagonal(positions, span.reference - span.local);
  }

  /** Lines 118-134. */
  method Spans(positions: seq<Place>, minimum: nat) returns (spans: seq<Span>)
    requires forall at | at in positions :: at.0 + 1 < SENTINEL
    ensures forall span :: span in spans <==> SpanOf(positions, minimum, span)
  {
    hide OnDiagonal, MaximalRun, SpanOf;
    var diagonals, order := Diagonals(positions);
    spans := [];
    for i := 0 to |order|
      invariant forall span ::
        span in spans <==> SpanOf(positions, minimum, span) && span.reference - span.local in order[..i]
    {
      var delta := order[i];
      assert delta in order && order[..i + 1] == order[..i] + [delta];
      var more := SpansOn(positions, delta, diagonals[delta], minimum);
      spans := spans + more;
    }
    assert order[..|order|] == order;
    forall span | SpanOf(positions, minimum, span) ensures span.reference - span.local in order {
      SpanHasDiagonal(positions, minimum, span);
    }
  }

  function AsSpans(runs: seq<(nat, nat)>, delta: int): (r: seq<Span>)
    requires forall run | run in runs :: run.0 <= run.1
    ensures forall span :: span in r <==>
      exists run | run in runs :: span == Span(run.0, run.0 + delta, run.1 - run.0 + WINDOW)
  {
    if runs == [] then []
    else
      assert runs == [runs[0]] + runs[1..];
      [Span(runs[0].0, runs[0].0 + delta, runs[0].1 - runs[0].0 + WINDOW)] + AsSpans(runs[1..], delta)
  }

  lemma SameRuns(s: seq<nat>, t: seq<nat>, a: nat, b: nat)
    requires forall x :: x in s <==> x in t
    ensures MaximalRun(s, a, b) <==> MaximalRun(t, a, b)
  {
  }

  lemma SpanRuns(positions: seq<Place>, ordered: seq<nat>, runs: seq<(nat, nat)>, minimum: nat, delta: int, span: Span)
    requires forall x :: x in ordered <==> x in OnDiagonal(positions, delta)
    requires forall r | r in runs :: r.0 <= r.1
    requires forall r :: r in runs <==> MaximalRun(ordered, r.0, r.1) && r.1 - r.0 + WINDOW >= minimum
    ensures span in AsSpans(runs, delta) <==> SpanOf(positions, minimum, span) && span.reference - span.local == delta
  {
    forall a: nat, b: nat ensures MaximalRun(ordered, a, b) <==> MaximalRun(OnDiagonal(positions, delta), a, b) {
      SameRuns(ordered, OnDiagonal(positions, delta), a, b);
    }
    assert SpanOf(positions, minimum, span) && span.reference - span.local == delta <==>
      && span.reference == span.local + delta && span.tokens >= WINDOW && span.tokens >= minimum
      && MaximalRun(ordered, span.local, span.local + span.tokens - WINDOW);
    hide OnDiagonal, MaximalRun, SpanOf;
    if span.reference == span.local + delta && span.tokens >= WINDOW {
      var run := (span.local, span.local + span.tokens - WINDOW);
      assert span == Span(run.0, run.0 + delta, run.1 - run.0 + WINDOW);
    }
  }

  // ---- The whole scan ---------------------------------------------------------------------

  /** The reference's keys, file by file. */
  method ReferenceKeys(refs: seq<seq<Token>>, value: Token -> nat) returns (all: seq<seq<nat>>)
    ensures KeysOf(all, refs, value)
  {
    hide Key;
    all := [];
    for id := 0 to |refs|
      invariant |all| == id
      invariant forall k | 0 <= k < id ::
        |all[k]| == WindowCount(refs[k]) && forall p | 0 <= p < |all[k]| :: all[k][p] == Key(refs[k], value, p)
    {
      var keys := Windows(refs[id], value);
      all := all + [keys];
    }
  }

  /** There is a seed at local position `p` on the diagonal. */
  ghost predicate SeedOn(c: Corpus, id: nat, delta: int, p: int) {
    p >= 0 && p + delta >= 0 && Seed(c, id, (p, p + delta))
  }

  /** What is to be reported for one local and one reference file: a run of seeds on a diagonal
      that is long enough and cannot be extended. */
  ghost predicate Reportable(c: Corpus, id: nat, minimum: nat, span: Span) {
    && span.tokens >= WINDOW && span.tokens >= minimum
    && (var delta, last := span.reference - span.local, span.local + span.tokens - WINDOW;
        && (forall p | span.local <= p <= last :: SeedOn(c, id, delta, p))
        && !SeedOn(c, id, delta, span.local - 1)
        && !SeedOn(c, id, delta, last + 1))
  }

  /** Lines 97-139 for one local file: for every reference file exactly the reportable spans. */
  method ScanFile(local: seq<Token>, refs: seq<seq<Token>>, value: Token -> nat, minimum: nat)
    returns (results: map<nat, seq<Span>>, c: Corpus)
    requires |local| < SENTINEL
    ensures c.local == local && c.refs == refs && c.value == value && KeysOf(c.all, refs, value)
    ensures forall id | id in results :: results[id] != []
    ensures forall id: nat, span: Span :: (id in results && span in results[id]) <==> Reportable(c, id, minimum, span)
  {
    hide Indexes, Occurrences, KeysOf, SpanOf, Reportable, Seed;
    var all := ReferenceKeys(refs, value);
    c := Corpus(local, refs, value, all);
    var index := BuildIndex(all);
    var pairs := Pairs(c, index);
    results := map[];
    for id := 0 to |refs|
      invariant forall k | k in results :: results[k] != [] && k < id
      invariant forall k: nat, span: Span ::
        (k in results && span in results[k]) <==> k < id && Reportable(c, k, minimum, span)
    {
      var positions := PairsFor(pairs, id);
      forall at | at in positions ensures at.0 + 1 < SENTINEL { SeedInside(c, id, at); }
      var spans := Spans(positions, minimum);
      forall span ensures span in spans <==> Reportable(c, id, minimum, span) {
        SpanReportable(c, id, positions, minimum, span);
      }
      if spans != [] { results := results[id := spans]; }
    }
    forall id: nat, span | Reportable(c, id, minimum, span) ensures id < |refs| {
      ReportableInside(c, id, minimum, span);
    }
  }

  lemma SeedInside(c: Corpus, id: nat, at: Place)
    requires Seed(c, id, at)
    ensures id < |c.refs| && at.0 + WINDOW <= |c.local| && at.1 + WINDOW <= |c.refs[id]|
  {
    hide Usable, Key;
  }

  lemma ReportableInside(c: Corpus, id: nat, minimum: nat, span: Span)
    requires Reportable(c, id, minimum, span)
    ensures id < |c.refs|
  {
    hide Usable, Key;
    assert SeedOn(c, id, span.reference - span.local, span.local);
  }

  lemma DiagonalSeed(c: Corpus, id: nat, positions: seq<Place>, p: nat, delta: int)
    requires forall at: Place :: at in positions <==> Seed(c, id, at)
    ensures p in OnDiagonal(positions, delta) <==> SeedOn(c, id, delta, p)
  {
    hide Seed;
    OnDiagonalExactly(positions, delta, p);
    if p + delta >= 0 { assert Diagonal((p, p + delta)) == delta; }
  }

  lemma SpanReportable(c: Corpus, id: nat, positions: seq<Place>, minimum: nat, span: Span)
    requires forall at: Place :: at in positions <==> Seed(c, id, at)
    ensures SpanOf(positions, minimum, span) <==> Reportable(c, id, minimum, span)
  {
    var delta := span.reference - span.local;
    forall p: nat ensures p in OnDiagonal(positions, delta) <==> SeedOn(c, id, delta, p) {
      DiagonalSeed(c, id, positions, p, delta);
    }
    assert !SeedOn(c, id, delta, -1);
    hide Seed, OnDiagonal, SeedOn;
  }

  // ---- What the scan guarantees -------------------------------------------------------------

  /** A reported span is a genuine run of equal tokens. */
  lemma SpanGenuine(c: Corpus, id: nat, minimum: nat, span: Span)
    requires Reportable(c, id, minimum, span)
    ensures id < |c.refs| && span.reference >= 0
    ensures span.local + span.tokens <= |c.local| && span.reference + span.tokens <= |c.refs[id]|
    ensures c.local[span.local..span.local + span.tokens] == c.refs[id][span.reference..span.reference + span.tokens]
  {
    var delta, last := span.reference - span.local, span.local + span.tokens - WINDOW;
    hide Usable, Key, SameWindow;
    assert SeedOn(c, id, delta, span.local) && SeedOn(c, id, delta, last);
    SeedInside(c, id, (span.local, span.local + delta));
    SeedInside(c, id, (last, last + delta));
    var x, y := c.local[span.local..span.local + span.tokens], c.refs[id][span.reference..span.reference + span.tokens];
    forall i | 0 <= i < span.tokens ensures x[i] == y[i] {
      var p := if span.local + i <= last then span.local + i else last;
      assert SeedOn(c, id, delta, p);
      SameAt(c.local, c.refs, id, (p, p + delta), span.local + i - p);
    }
  }

  lemma SameAt(local: seq<Token>, refs: seq<seq<Token>>, id: nat, at: Place, i: nat)
    requires SameWindow(local, refs, id, at) && i < WINDOW
    ensures at.0 + i < |local| && at.1 + i < |refs[id]| && local[at.0 + i] == refs[id][at.1 + i]
  {
    assert local[at.0 + i] == local[at.0..at.0 + WINDOW][i];
    assert refs[id][at.1 + i] == refs[id][at.1..at.1 + WINDOW][i];
  }

  /** Two files agree on `n` tokens from `a` and `b` on, and no window of the run is suppressed. */
  ghost predicate UsableRun(c: Corpus, id: nat, a: nat, b: nat, n: nat) {
    && n >= WINDOW && id < |c.refs| && a + n <= |c.local| && b + n <= |c.refs[id]|
    && c.local[a..a + n] == c.refs[id][b..b + n]
    && forall p | a <= p <= a + n - WINDOW :: Usable(c, Key(c.local, c.value, p))
  }

  lemma RunSeeds(c: Corpus, id: nat, a: nat, b: nat, n: nat, p: int)
    requires UsableRun(c, id, a, b, n) && a <= p <= a + n - WINDOW
    ensures SeedOn(c, id, b - a, p)
  {
    hide Usable, Key;
    var k, q := p - a, p + (b - a);
    Subslice(c.local, a, n, k, k + WINDOW);
    Subslice(c.refs[id], b, n, k, k + WINDOW);
    assert Usable(c, Key(c.local, c.value, p));
    assert SameWindow(c.local, c.refs, id, (p, q));
  }

  /** The first seed of the run of seeds that ends at `p`. */
  ghost function First(c: Corpus, id: nat, delta: int, p: nat): (r: nat)
    requires SeedOn(c, id, delta, p)
    ensures r <= p && !SeedOn(c, id, delta, r - 1) && forall q | r <= q <= p :: SeedOn(c, id, delta, q)
  {
    hide Seed;
    if SeedOn(c, id, delta, p - 1) then First(c, id, delta, p - 1) else p
  }

  /** The last seed of the run of seeds that starts at `p`. */
  ghost function Last(c: Corpus, id: nat, delta: int, p: nat): (r: nat)
    requires SeedOn(c, id, delta, p)
    ensures p <= r && !SeedOn(c, id, delta, r + 1) && forall q | p <= q <= r :: SeedOn(c, id, delta, q)
    decreases |c.local| - p
  {
    hide Usable, Key;
    if SeedOn(c, id, delta, p + 1) then Last(c, id, delta, p + 1) else p
  }

  /** No matching run of the minimum length is missed: where two files agree on `n` tokens, at least 20
      and at least the minimum, and none of the run's 20-token windows has a digest that occurs more than
      80 times in the reference files, a span that covers the run is reported. */
  lemma RunReported(c: Corpus, id: nat, minimum: nat, a: nat, b: nat, n: nat) returns (span: Span)
    requires id < |c.refs| && a + n <= |c.local| && b + n <= |c.refs[id]|
    requires n >= 20 && n >= minimum && c.local[a..a + n] == c.refs[id][b..b + n]
    requires forall p | a <= p <= a + n - 20 :: |Occurrences(c.all, Key(c.local, c.value, p), |c.all|)| <= 80
    ensures Reportable(c, id, minimum, span)
    ensures span.local <= a && a + n <= span.local + span.tokens && span.reference - span.local == b - a
  {
    var delta, end := b - a, a + n - 20;
    assert UsableRun(c, id, a, b, n);
    forall p | a <= p <= end ensures SeedOn(c, id, delta, p) { RunSeeds(c, id, a, b, n, p); }
    assert a <= end;
    hide UsableRun, SeedOn;
    span := MaximalAround(c, id, minimum, delta, a, end);
  }

  lemma MaximalAround(c: Corpus, id: nat, minimum: nat, delta: int, a: nat, end: nat) returns (span: Span)
    requires a <= end && end - a + WINDOW >= minimum && forall p | a <= p <= end :: SeedOn(c, id, delta, p)
    ensures Reportable(c, id, minimum, span)
    ensures span.local <= a && end + WINDOW <= span.local + span.tokens && span.reference - span.local == delta
  {
    hide SeedOn;
    var first, last := First(c, id, delta, a), Last(c, id, delta, end);
    span := Span(first, first + delta, last - first + WINDOW);
    hide First, Last;
    assert forall p | first <= p <= last :: SeedOn(c, id, delta, p);
    assert span.reference - span.local == delta && span.local + span.tokens - WINDOW == last;
  }
}
