/**
  Sorting query parameters by name, as `sorted(params.items(), key=lambda p: p[0])`
  does, and the fact that a sorted arrangement of distinct names is unique.
 */
module ParamOrder {
  import opened CouchValues

  /** Python's `<` on strings: lexicographic by code point, a proper prefix first. */
  predicate StrLess(a: string, b: string) {
    |b| > 0 && (|a| == 0 || a[0] < b[0] || (a[0] == b[0] && StrLess(a[1..], b[1..])))
  }

  lemma {:induction false} StrLessIrreflexive(a: string)
    ensures !StrLess(a, a)
  {
    if |a| > 0 {
      StrLessIrreflexive(a[1..]);
    }
  }

  lemma {:induction false} StrLessTransitive(a: string, b: string, c: string)
    requires StrLess(a, b) && StrLess(b, c)
    ensures StrLess(a, c)
  {
    if |a| > 0 && a[0] == b[0] && b[0] == c[0] {
      StrLessTransitive(a[1..], b[1..], c[1..]);
    }
  }

  lemma {:induction false} StrLessTotal(a: string, b: string)
    requires a != b
    ensures StrLess(a, b) || StrLess(b, a)
  {
    if |a| > 0 && |b| > 0 && a[0] == b[0] {
      assert a == [a[0]] + a[1..] && b == [b[0]] + b[1..];
      StrLessTotal(a[1..], b[1..]);
    }
  }

  /** The names strictly increase along the sequence. */
  predicate SortedByName(s: seq<Param>) {
    forall i, j :: 0 <= i < j < |s| ==> StrLess(s[i].0, s[j].0)
  }

  /** Insertion of one pair in front of the first pair whose name is not smaller. */
  function Insert(p: Param, s: seq<Param>): (r: seq<Param>)
    ensures multiset(r) == multiset(s) + multiset{p}
  {
    if s == [] || !StrLess(s[0].0, p.0) then [p] + s
    else
      assert s == [s[0]] + s[1..];
      [s[0]] + Insert(p, s[1..])
  }

  /** Inserting a pair with a new name keeps the names strictly increasing. */
  lemma {:induction false} InsertSorted(p: Param, s: seq<Param>)
    requires SortedByName(s)
    requires forall i :: 0 <= i < |s| ==> s[i].0 != p.0
    ensures SortedByName(Insert(p, s))
  {
    if s == [] || !StrLess(s[0].0, p.0) {
      if s != [] {
        StrLessTotal(p.0, s[0].0);
        forall j | 0 < j < |s| ensures StrLess(p.0, s[j].0) {
          StrLessTransitive(p.0, s[0].0, s[j].0);
        }
      }
    } else {
      var rest := Insert(p, s[1..]);
      InsertSorted(p, s[1..]);
      forall j | 0 <= j < |rest| ensures StrLess(s[0].0, rest[j].0) {
        assert rest[j] in multiset(rest);
        if rest[j] != p {
          assert rest[j] in multiset(s[1..]);
          var k :| 0 <= k < |s[1..]| && s[1..][k] == rest[j];
          assert s[k + 1] == rest[j];
        }
      }
    }
  }

  /** Insertion sort by name; Python's stable `sorted` gives the same order. */
  function SortByName(ps: seq<Param>): (r: seq<Param>)
    ensures multiset(r) == multiset(ps)
  {
    if ps == [] then []
    else
      assert ps == [ps[0]] + ps[1..];
      Insert(ps[0], SortByName(ps[1..]))
  }

  /** Sorting parameters with distinct names gives strictly increasing names. */
  lemma {:induction false} SortByNameSorted(ps: seq<Param>)
    requires DistinctNames(ps)
    ensures SortedByName(SortByName(ps))
  {
    if ps != [] {
      var tail := SortByName(ps[1..]);
      SortByNameSorted(ps[1..]);
      forall i | 0 <= i < |tail| ensures tail[i].0 != ps[0].0 {
        assert tail[i] in multiset(ps[1..]);
        var k :| 0 <= k < |ps[1..]| && ps[1..][k] == tail[i];
        assert ps[k + 1] == tail[i];
      }
      InsertSorted(ps[0], tail);
    }
  }

  /** Two sorted arrangements of the same pairs start with the same pair. */
  lemma SortedSameHead(a: seq<Param>, b: seq<Param>)
    requires SortedByName(a) && SortedByName(b)
    requires multiset(a) == multiset(b) && a != []
    ensures b != [] && a[0] == b[0]
  {
    assert |multiset(b)| == |multiset(a)| > 0;
    assert a[0] in multiset(b) && b[0] in multiset(a);
    var j :| 0 <= j < |b| && b[j] == a[0];
    var i :| 0 <= i < |a| && a[i] == b[0];
    if i > 0 && j > 0 {
      StrLessTransitive(a[0].0, a[i].0, b[j].0);
      StrLessIrreflexive(a[0].0);
    }
  }

  lemma MultisetOfTail(s: seq<Param>)
    requires s != []
    ensures multiset(s[1..]) == multiset(s) - multiset{s[0]}
  {
    assert s == [s[0]] + s[1..];
  }

  /** Two sorted arrangements of the same pairs are the same sequence. */
  lemma {:induction false} SortedUnique(a: seq<Param>, b: seq<Param>)
    requires SortedByName(a) && SortedByName(b)
    requires multiset(a) == multiset(b)
    ensures a == b
  {
    if a == [] {
      assert |multiset(b)| == 0;
    } else {
      SortedSameHead(a, b);
      MultisetOfTail(a);
      MultisetOfTail(b);
      SortedUnique(a[1..], b[1..]);
      assert a == [a[0]] + a[1..] && b == [b[0]] + b[1..];
    }
  }
}
