/** Totals over tables. */
module Sums {

  /** The sum of a column, over all rows. */
  ghost function Sum<K>(column: map<K, int>): int {
    if column == map[] then 0
    else
      var k :| k in column;
      column[k] + Sum(column - {k})
  }

  /** The rows can be summed in any order. */
  lemma {:induction false} SumTake<K>(column: map<K, int>, k: K)
    requires k in column
    ensures Sum(column) == column[k] + Sum(column - {k})
    decreases |column|
  {
    var rest := column - {k};
    assert column.Keys == rest.Keys + {k};
    assert |column.Keys| == |rest.Keys| + 1;
    var first :| first in column && Sum(column) == column[first] + Sum(column - {first});
    if first != k {
      var others := column - {first};
      assert column.Keys == others.Keys + {first};
      assert |column.Keys| == |others.Keys| + 1;
      SumTake(others, k);
      SumTake(rest, first);
      assert others - {k} == rest - {first};
    }
  }

  lemma SumInsert<K>(column: map<K, int>, k: K, v: int)
    requires k !in column
    ensures Sum(column[k := v]) == Sum(column) + v
  {
    var wider := column[k := v];
    SumTake(wider, k);
    assert wider - {k} == column;
  }

  lemma {:induction false} SumAtLeast<K>(column: map<K, int>)
    requires forall k :: k in column ==> column[k] >= 0
    ensures Sum(column) >= 0
    decreases |column|
  {
    if column != map[] {
      var k :| k in column;
      var rest := column - {k};
      assert column.Keys == rest.Keys + {k};
      assert |column.Keys| == |rest.Keys| + 1;
      SumTake(column, k);
      SumAtLeast(rest);
    }
  }

  /** No more than the largest row for each row. */
  lemma {:induction false} SumAtMost<K>(column: map<K, int>, most: int)
    requires forall k :: k in column ==> column[k] <= most
    ensures Sum(column) <= |column| * most
    decreases |column|
  {
    if column != map[] {
      var k :| k in column;
      var rest := column - {k};
      assert column.Keys == rest.Keys + {k};
      assert |column.Keys| == |rest.Keys| + 1;
      SumTake(column, k);
      SumAtMost(rest, most);
      assert |column| == |rest| + 1;
      OneMore(|rest|, most);
    } else {
      assert |column| == 0;
    }
  }

  lemma OneMore(n: int, most: int)
    ensures (n + 1) * most == n * most + most
  {
  }

  lemma SumUpdate<K>(column: map<K, int>, k: K, v: int)
    requires k in column
    ensures Sum(column[k := v]) == Sum(column) - column[k] + v
  {
    SumTake(column, k);
    SumTake(column[k := v], k);
    assert column[k := v] - {k} == column - {k};
  }

  lemma {:induction false} SumOfZeros<K>(column: map<K, int>)
    requires forall k :: k in column ==> column[k] == 0
    ensures Sum(column) == 0
  {
    SumAtLeast(column);
    SumAtMost(column, 0);
  }

  /** Columns of the same rows add up row by row. */
  lemma {:induction false} SumAdds<K>(a: map<K, int>, b: map<K, int>, c: map<K, int>)
    requires a.Keys == b.Keys == c.Keys
    requires forall k :: k in c ==> c[k] == a[k] + b[k]
    ensures Sum(c) == Sum(a) + Sum(b)
    decreases |c|
  {
    if c != map[] {
      var k :| k in c;
      assert (c - {k}).Keys == c.Keys - {k};
      assert |(c - {k}).Keys| < |c.Keys|;
      SumTake(a, k);
      SumTake(b, k);
      SumTake(c, k);
      SumAdds(a - {k}, b - {k}, c - {k});
    } else {
      assert a == map[] && b == map[];
    }
  }
}
