/** Totals over the rows of a table. */
module Sums {

  /** The sum of a weight over all rows. */
  ghost function Total<K, V>(rows: map<K, V>, weight: (K, V) -> int): int
    decreases |rows|
  {
    if rows == map[] then 0
    else
      var k :| k in rows;
      weight(k, rows[k]) + Total(rows - {k}, weight)
  }

  /** Any row may be counted first. */
  lemma {:induction false} TotalRemove<K, V>(rows: map<K, V>, weight: (K, V) -> int, k: K)
    requires k in rows
    ensures Total(rows, weight) == weight(k, rows[k]) + Total(rows - {k}, weight)
    decreases |rows|
  {
    var c :| c in rows && Total(rows, weight) == weight(c, rows[c]) + Total(rows - {c}, weight);
    if c != k {
      TotalRemove(rows - {c}, weight, k);
      TotalRemove(rows - {k}, weight, c);
      assert rows - {c} - {k} == rows - {k} - {c};
    }
  }

  lemma TotalInsert<K, V>(rows: map<K, V>, weight: (K, V) -> int, k: K, v: V)
    requires k !in rows
    ensures Total(rows[k := v], weight) == Total(rows, weight) + weight(k, v)
  {
    TotalRemove(rows[k := v], weight, k);
    assert rows[k := v] - {k} == rows;
  }

  lemma TotalUpdate<K, V>(rows: map<K, V>, weight: (K, V) -> int, k: K, v: V)
    requires k in rows
    ensures Total(rows[k := v], weight) == Total(rows, weight) - weight(k, rows[k]) + weight(k, v)
  {
    TotalRemove(rows[k := v], weight, k);
    TotalRemove(rows, weight, k);
    assert rows[k := v] - {k} == rows - {k};
  }

  lemma {:induction false} TotalNonNegative<K(!new), V(!new)>(rows: map<K, V>, weight: (K, V) -> int)
    requires forall k | k in rows :: weight(k, rows[k]) >= 0
    ensures Total(rows, weight) >= 0
    decreases |rows|
  {
    if rows != map[] {
      var k :| k in rows && Total(rows, weight) == weight(k, rows[k]) + Total(rows - {k}, weight);
      TotalNonNegative(rows - {k}, weight);
    }
  }

  /** No single row exceeds a total of non-negative weights. */
  lemma RowWithinTotal<K(!new), V(!new)>(rows: map<K, V>, weight: (K, V) -> int, k: K)
    requires k in rows && forall j | j in rows :: weight(j, rows[j]) >= 0
    ensures weight(k, rows[k]) <= Total(rows, weight)
  {
    TotalRemove(rows, weight, k);
    TotalNonNegative(rows - {k}, weight);
  }
}
