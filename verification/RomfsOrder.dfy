/** Byte order of names, and why the order in which the host lists a directory never shows. */
module RomfsOrder {
  import opened Basics
  import opened Octets
  import opened RomfsModel

  lemma {:induction false} LexTransitive(a: Bytes, b: Bytes, c: Bytes)
    requires LexLess(a, b) && LexLess(b, c)
    ensures LexLess(a, c)
    decreases |a|
  {
    if a != [] && a[0] == b[0] == c[0] { LexTransitive(a[1..], b[1..], c[1..]); }
  }

  lemma {:induction false} LexAsymmetric(a: Bytes, b: Bytes)
    requires LexLess(a, b)
    ensures !LexLess(b, a) && a != b
    decreases |a|
  {
    if a != [] && a[0] == b[0] { LexAsymmetric(a[1..], b[1..]); }
  }

  lemma {:induction false} LexTotal(a: Bytes, b: Bytes)
    ensures LexLess(a, b) || LexLess(b, a) || a == b
    decreases |a|
  {
    if a != [] && b != [] && a[0] == b[0] {
      LexTotal(a[1..], b[1..]);
      assert a == [a[0]] + a[1..] && b == [b[0]] + b[1..];
    }
  }

  /** No entry has a smaller name than one before it. */
  predicate Ordered(ts: seq<Tree>) {
    forall i, j | 0 <= i < j < |ts| :: !LexLess(ts[j].name, ts[i].name)
  }

  predicate Increasing(ts: seq<Tree>) {
    forall i, j | 0 <= i < j < |ts| :: LexLess(ts[i].name, ts[j].name)
  }

  predicate DistinctTreeNames(ts: seq<Tree>) {
    forall i, j | 0 <= i < j < |ts| :: ts[i].name != ts[j].name
  }

  lemma {:induction false} InsertAdds(t: Tree, sorted: seq<Tree>)
    ensures multiset(Insert(t, sorted)) == multiset(sorted) + multiset{t}
  {
    if sorted != [] && !LexLess(t.name, sorted[0].name) {
      assert sorted == [sorted[0]] + sorted[1..];
      InsertAdds(t, sorted[1..]);
    }
  }

  /** `t` may stand in front of `ts`. */
  predicate NotAfter(t: Tree, ts: seq<Tree>) { forall u | u in ts :: !LexLess(u.name, t.name) }

  lemma OrderedCons(t: Tree, ts: seq<Tree>)
    ensures Ordered([t] + ts) <==> NotAfter(t, ts) && Ordered(ts)
  {
    var r := [t] + ts;
    if Ordered(r) {
      forall u | u in ts ensures !LexLess(u.name, t.name) {
        var k :| 0 <= k < |ts| && ts[k] == u;
        assert r[k + 1] == u && r[0] == t;
      }
      forall i, j | 0 <= i < j < |ts| ensures !LexLess(ts[j].name, ts[i].name) {
        assert r[i + 1] == ts[i] && r[j + 1] == ts[j];
      }
    }
  }

  lemma {:induction false} InsertOrdered(t: Tree, sorted: seq<Tree>)
    requires Ordered(sorted)
    ensures Ordered(Insert(t, sorted))
  {
    hide Ordered;
    if sorted == [] {
      OrderedCons(t, []);
      assert [t] + [] == [t];
    } else {
      var head, rest := sorted[0], sorted[1..];
      assert sorted == [head] + rest;
      OrderedCons(head, rest);
      if LexLess(t.name, head.name) {
        forall u | u in sorted ensures !LexLess(u.name, t.name) {
          if LexLess(u.name, t.name) {
            LexTransitive(u.name, t.name, head.name);
            LexAsymmetric(u.name, head.name);
          }
        }
        OrderedCons(t, sorted);
      } else {
        InsertOrdered(t, rest);
        InsertAdds(t, rest);
        forall u | u in Insert(t, rest) ensures !LexLess(u.name, head.name) {
          assert u in multiset(Insert(t, rest));
          assert u == t || u in rest;
        }
        OrderedCons(head, Insert(t, rest));
      }
    }
  }

  /** The written order is byte order, and nothing is added, lost or duplicated. */
  lemma {:induction false} SortByNameSorts(ts: seq<Tree>)
    ensures Ordered(SortByName(ts)) && multiset(SortByName(ts)) == multiset(ts)
  {
    if ts != [] {
      var front := ts[..|ts| - 1];
      SortByNameSorts(front);
      InsertOrdered(ts[|ts| - 1], SortByName(front));
      InsertAdds(ts[|ts| - 1], SortByName(front));
      assert ts == front + [ts[|ts| - 1]];
    }
  }

  lemma DistinctInMultiset(ts: seq<Tree>, i: nat, j: nat)
    requires i < j < |ts| && ts[i] == ts[j]
    ensures multiset(ts)[ts[i]] >= 2
  {
    assert ts == ts[..j] + ts[j..];
    assert ts[i] == ts[..j][i] && ts[j] == ts[j..][0];
    assert ts[i] in multiset(ts[..j]) && ts[i] in multiset(ts[j..]);
  }

  lemma {:induction false} AtMostOnce(ts: seq<Tree>, t: Tree)
    requires DistinctTreeNames(ts)
    ensures multiset(ts)[t] <= 1
  {
    if ts != [] {
      AtMostOnce(ts[1..], t);
      assert ts == [ts[0]] + ts[1..];
      if t in ts[1..] {
        var j :| 0 <= j < |ts[1..]| && ts[1..][j] == t;
        assert ts[j + 1] == t;
      }
    }
  }

  lemma SortedNamesDistinct(ts: seq<Tree>, i: nat, j: nat)
    requires DistinctTreeNames(ts) && i < j < |SortByName(ts)|
    ensures SortByName(ts)[i].name != SortByName(ts)[j].name
  {
    SortByNameSorts(ts);
    var s := SortByName(ts);
    assert s[i] in multiset(s) && s[j] in multiset(s);
    assert s[i] in ts && s[j] in ts;
    if s[i].name == s[j].name {
      var a :| 0 <= a < |ts| && ts[a] == s[i];
      var b :| 0 <= b < |ts| && ts[b] == s[j];
      assert a == b;
      DistinctInMultiset(s, i, j);
      AtMostOnce(ts, s[i]);
      assert false;
    }
  }

  /** Distinct names come out strictly increasing. */
  lemma SortByNameIncreases(ts: seq<Tree>)
    requires DistinctTreeNames(ts)
    ensures Increasing(SortByName(ts))
  {
    var s := SortByName(ts);
    SortByNameSorts(ts);
    forall i, j | 0 <= i < j < |s| ensures LexLess(s[i].name, s[j].name) {
      SortedNamesDistinct(ts, i, j);
      LexTotal(s[i].name, s[j].name);
    }
  }

  lemma {:induction false} IncreasingUnique(a: seq<Tree>, b: seq<Tree>)
    requires Increasing(a) && Increasing(b) && forall t :: t in a <==> t in b
    ensures a == b
  {
    if a == [] {
      assert |b| == 0 by { Inhabited(b); }
    } else {
      assert a[0] in b;
      HeadsAgree(a, b);
      assert a == [a[0]] + a[1..] && b == [b[0]] + b[1..];
      forall t ensures t in a[1..] <==> t in b[1..] {
        HeadOnce(a);
        HeadOnce(b);
        assert t in a <==> t == a[0] || t in a[1..];
        assert t in b <==> t == b[0] || t in b[1..];
      }
      IncreasingUnique(a[1..], b[1..]);
    }
  }

  lemma Inhabited(b: seq<Tree>)
    ensures b != [] ==> exists t :: t in b
  {
    if b != [] { assert b[0] in b; }
  }

  lemma HeadOnce(a: seq<Tree>)
    requires Increasing(a) && a != []
    ensures a[0] !in a[1..]
  {
    if a[0] in a[1..] {
      var i :| 0 <= i < |a[1..]| && a[1..][i] == a[0];
      assert LexLess(a[0].name, a[i + 1].name);
      LexAsymmetric(a[0].name, a[0].name);
    }
  }

  lemma HeadsAgree(a: seq<Tree>, b: seq<Tree>)
    requires Increasing(a) && Increasing(b) && a != [] && b != []
    requires a[0] in b && b[0] in a
    ensures a[0] == b[0]
  {
    var j :| 0 <= j < |b| && b[j] == a[0];
    var i :| 0 <= i < |a| && a[i] == b[0];
    if i > 0 && j > 0 {
      assert LexLess(b[0].name, b[j].name) && LexLess(a[0].name, a[i].name);
      LexAsymmetric(a[0].name, b[0].name);
    }
  }

  // ---- Host order --------------------------------------------------------------------------

  /** Names are distinct within every directory, as in any file system. */
  predicate DistinctNames(s: Source) {
    s.SourceDir? ==>
      && (forall i, j | 0 <= i < j < |s.entries| :: s.entries[i].name != s.entries[j].name)
      && forall e | e in s.entries :: DistinctNames(e)
  }

  /** The same files, possibly listed in another order anywhere in the tree. */
  ghost predicate SameFiles(a: Source, b: Source)
    decreases a, 2
  {
    if a.SourceDir? && b.SourceDir? then
      && a.name == b.name && a.exec == b.exec
      && (forall e | e in a.entries :: Found(e, b))
      && (forall f | f in b.entries :: FoundBack(f, a))
    else a == b
  }

  ghost predicate Found(e: Source, dir: Source)
    requires dir.SourceDir?
    decreases e, 3
  {
    exists f | f in dir.entries :: SameFiles(e, f)
  }

  ghost predicate FoundBack(f: Source, dir: Source)
    requires dir.SourceDir?
    decreases dir, 1
  {
    exists e | e in dir.entries :: SameFiles(e, f)
  }

  lemma CanonicalIncreasing(s: Source)
    requires s.SourceDir? && Supported(s) && DistinctNames(s)
    ensures Increasing(Canonical(s).children)
    ensures forall t :: t in Canonical(s).children <==> t in CanonicalAll(s.entries)
  {
    var all := CanonicalAll(s.entries);
    SortByNameIncreases(all);
    SortByNameSorts(all);
    assert forall t :: t in SortByName(all) <==> t in multiset(SortByName(all));
    assert forall t :: t in all <==> t in multiset(all);
  }

  lemma Entries(s: Source)
    requires s.SourceDir? && Supported(s) && DistinctNames(s)
    ensures forall e | e in s.entries :: Supported(e) && DistinctNames(e)
  {
  }

  lemma SameDirs(a: Source, b: Source)
    requires a.SourceDir? && b.SourceDir? && SameFiles(a, b)
    ensures a.name == b.name && a.exec == b.exec
  {
  }

  lemma Partner(a: Source, b: Source, e: Source) returns (f: Source)
    requires a.SourceDir? && b.SourceDir? && SameFiles(a, b) && e in a.entries
    ensures f in b.entries && SameFiles(e, f)
  {
    assert Found(e, b) by { hide Found, FoundBack; }
    hide SameFiles;
    f :| f in b.entries && SameFiles(e, f);
  }

  lemma PartnerBack(a: Source, b: Source, f: Source) returns (e: Source)
    requires a.SourceDir? && b.SourceDir? && SameFiles(a, b) && f in b.entries
    ensures e in a.entries && SameFiles(e, f)
  {
    assert FoundBack(f, a) by { hide Found, FoundBack; }
    hide SameFiles;
    e :| e in a.entries && SameFiles(e, f);
  }

  /** Every listed tree on one side is listed on the other. */
  lemma ListedAlike(x: seq<Source>, y: seq<Source>, t: Tree)
    requires (forall e | e in x :: Supported(e)) && forall e | e in y :: Supported(e)
    requires forall e | e in x :: exists f | f in y :: Canonical(e) == Canonical(f)
    ensures t in CanonicalAll(x) ==> t in CanonicalAll(y)
  {
    hide Canonical, Supported;
    if t in CanonicalAll(x) {
      var i :| 0 <= i < |x| && CanonicalAll(x)[i] == t;
      assert x[i] in x;
      var f :| f in y && Canonical(x[i]) == Canonical(f);
      var k :| 0 <= k < |y| && y[k] == f;
      assert CanonicalAll(y)[k] == t;
    }
  }

  lemma CanonicalDirs(a: Source, b: Source)
    requires a.SourceDir? && b.SourceDir? && a.name == b.name && a.exec == b.exec
    requires Supported(a) && Supported(b) && Canonical(a).children == Canonical(b).children
    ensures Canonical(a) == Canonical(b)
  {
  }

  /** What is written does not depend on the order in which the host lists any directory. */
  lemma {:induction false} HostOrderIrrelevant(a: Source, b: Source)
    requires SameFiles(a, b) && Supported(a) && Supported(b) && DistinctNames(a) && DistinctNames(b)
    ensures Canonical(a) == Canonical(b)
    decreases a
  {
    if a.SourceDir? && b.SourceDir? {
      hide *;
      Entries(a);
      Entries(b);
      forall e | e in a.entries ensures exists f | f in b.entries :: Canonical(e) == Canonical(f) {
        var f := Partner(a, b, e);
        HostOrderIrrelevant(e, f);
      }
      forall f | f in b.entries ensures exists e | e in a.entries :: Canonical(f) == Canonical(e) {
        var e := PartnerBack(a, b, f);
        HostOrderIrrelevant(e, f);
      }
      CanonicalIncreasing(a);
      CanonicalIncreasing(b);
      forall t ensures t in Canonical(a).children <==> t in Canonical(b).children {
        ListedAlike(a.entries, b.entries, t);
        ListedAlike(b.entries, a.entries, t);
      }
      IncreasingUnique(Canonical(a).children, Canonical(b).children);
      SameDirs(a, b);
      CanonicalDirs(a, b);
    } else {
      assert a == b by { hide Found, FoundBack, Supported, DistinctNames; }
    }
  }
}
