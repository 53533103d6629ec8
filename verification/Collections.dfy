/** Sums over maps, and the few facts about sequences that several components share. */
module Collections {

  datatype Option<+T> = None | Some(value: T)

  /** The sum of all values of a map. */
  ghost function Total<K(!new)>(m: map<K, int>): int {
    if m == map[] then 0 else
      var k :| k in m;
      m[k] + Total(m - {k})
  }

  /** Any key may be taken out first: the sum does not depend on the order of summation. */
  lemma {:induction false} TotalSplit<K(!new)>(m: map<K, int>, k: K)
    requires k in m
    ensures Total(m) == m[k] + Total(m - {k})
    decreases |m|
  {
    var c :| c in m && Total(m) == m[c] + Total(m - {c});
    if c != k {
      TotalSplit(m - {c}, k);
      TotalSplit(m - {k}, c);
      assert m - {c} - {k} == m - {k} - {c};
    }
  }

  lemma {:induction false} TotalUpdate<K(!new)>(m: map<K, int>, k: K, v: int)
    ensures Total(m[k := v]) == Total(m) - (if k in m then m[k] else 0) + v
  {
    var m' := m[k := v];
    TotalSplit(m', k);
    assert m' - {k} == m - {k};
    if k in m {
      TotalSplit(m, k);
    } else {
      assert m - {k} == m;
    }
  }

  ghost predicate Distinct<T>(s: seq<T>) {
    forall i, j :: 0 <= i < j < |s| ==> s[i] != s[j]
  }

  ghost function Elements<T(!new)>(s: seq<T>): set<T> {
    set i | 0 <= i < |s| :: s[i]
  }

  /** A sequence has at most as many elements as positions, with equality exactly without repetition. */
  lemma {:induction false} DistinctCardinality<T(!new)>(s: seq<T>)
    ensures |Elements(s)| <= |s|
    ensures |Elements(s)| == |s| <==> Distinct(s)
  {
    if s != [] {
      var front, last := s[..|s| - 1], s[|s| - 1];
      DistinctCardinality(front);
      assert s == front + [last];
      assert Elements(s) == Elements(front) + {last};
      if last in front {
        var i :| 0 <= i < |front| && front[i] == last;
        assert s[i] == s[|s| - 1];
        assert last in Elements(front);
        assert Elements(s) == Elements(front);
      } else {
        assert last !in Elements(front);
        assert |Elements(s)| == |Elements(front)| + 1;
        if Distinct(front) {
          assert Distinct(s);
        } else {
          assert !Distinct(s);
        }
      }
    }
  }

  lemma SubsetCardinality<T>(a: set<T>, b: set<T>)
    requires a <= b
    ensures |a| <= |b|
    ensures |a| == |b| ==> a == b
  {
    assert b == a + (b - a);
    assert |b| == |a| + |b - a|;
  }
}
