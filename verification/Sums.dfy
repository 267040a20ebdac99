/** Adding up resources over a table. */
module Sums {
  import opened Rows

  const Nothing := Resources(0.0, 0)

  function Plus(a: Resources, b: Resources): Resources {
    Resources(a.cpu + b.cpu, a.mem + b.mem)
  }

  predicate AtMost(a: Resources, b: Resources) {
    a.cpu <= b.cpu && a.mem <= b.mem
  }

  /** The sum of the values of a map; the order does not matter (`TotalSplit`). */
  ghost function Total(m: map<nat, Resources>): Resources {
    if m == map[] then Nothing
    else
      var k :| k in m;
      Plus(m[k], Total(m - {k}))
  }

  lemma {:induction false} TotalSplit(m: map<nat, Resources>, k: nat)
    requires k in m
    ensures Total(m) == Plus(m[k], Total(m - {k}))
    decreases |m|
  {
    var j :| j in m && Total(m) == Plus(m[j], Total(m - {j}));
    if j != k {
      var rest := m - {j} - {k};
      assert rest == m - {k} - {j};
      TotalSplit(m - {j}, k);
      assert Total(m - {j}) == Plus(m[k], Total(rest));
      TotalSplit(m - {k}, j);
      assert Total(m - {k}) == Plus(m[j], Total(rest));
      assert Total(m) == Plus(m[j], Plus(m[k], Total(rest)));
      assert Plus(m[j], Plus(m[k], Total(rest))) == Plus(m[k], Plus(m[j], Total(rest)));
    }
  }

  /** Setting one entry changes the sum by that entry. */
  lemma TotalSet(m: map<nat, Resources>, k: nat, v: Resources)
    ensures Total(m[k := v]) == Plus(v, Total(m - {k}))
  {
    TotalSplit(m[k := v], k);
    assert m[k := v] - {k} == m - {k};
  }

  /** Fewer entries, all of them non-negative, sum to no more. */
  lemma {:induction false} TotalMonotone(small: map<nat, Resources>, big: map<nat, Resources>)
    requires forall k :: k in small ==> k in big && small[k] == big[k]
    requires forall k :: k in big ==> AtMost(Nothing, big[k])
    ensures AtMost(Total(small), Total(big))
    decreases |big|
  {
    if big == map[] {
      assert small == map[];
    } else {
      var k :| k in big;
      TotalSplit(big, k);
      if k in small {
        TotalSplit(small, k);
        TotalMonotone(small - {k}, big - {k});
      } else {
        assert small - {k} == small;
        TotalMonotone(small - {k}, big - {k});
      }
    }
  }

  function Times(n: nat, r: Resources): Resources {
    Resources(n as real * r.cpu, n * r.mem)
  }

  lemma TimesStep(n: nat, r: Resources)
    ensures Times(n + 1, r) == Plus(r, Times(n, r))
  {
    assert (n + 1) as real == n as real + 1.0;
    assert (n as real + 1.0) * r.cpu == n as real * r.cpu + r.cpu;
    assert (n + 1) * r.mem == n * r.mem + r.mem;
  }

  /** n entries of at most r each sum to at most n times r. */
  lemma {:induction false} TotalBounded(m: map<nat, Resources>, r: Resources)
    requires forall k :: k in m ==> AtMost(m[k], r)
    ensures AtMost(Total(m), Times(|m|, r))
    decreases |m|
  {
    if m != map[] {
      var k :| k in m;
      TotalSplit(m, k);
      TotalBounded(m - {k}, r);
      assert |m - {k}| == |m| - 1 by {
        assert (m - {k}).Keys == m.Keys - {k};
        assert |m.Keys| == |m|;
      }
      TimesStep(|m - {k}|, r);
    }
  }

  lemma {:induction false} SubsetSize(a: set<nat>, b: set<nat>)
    requires a <= b
    ensures |a| <= |b|
  {
    if a != {} {
      var x :| x in a;
      SubsetSize(a - {x}, b - {x});
    }
  }
}
