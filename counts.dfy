/**
 * `Series.value_counts()` on a label column: every distinct label string,
 * error markers and labels outside the category set included, mapped to
 * the number of rows that carry it.
 */
module Counts {

  /** The frequency table of a column, built one row at a time. */
  function ValueCounts(column: seq<string>): (m: map<string, nat>)
    ensures forall x :: x in m <==> x in column
    ensures forall x :: x in m ==> m[x] == multiset(column)[x] && m[x] >= 1
    decreases |column|
  {
    if column == [] then map[]
    else
      var init, x := column[..|column| - 1], column[|column| - 1];
      assert column == init + [x];
      var m := ValueCounts(init);
      m[x := (if x in m then m[x] else 0) + 1]
  }

  /** The sum of the counts of a table. */
  ghost function Total(m: map<string, nat>): nat
    decreases |m|
  {
    if m == map[] then 0
    else
      var k :| k in m;
      m[k] + Total(m - {k})
  }

  /** The sum does not depend on which key is taken first. */
  lemma {:induction false} TotalRemove(m: map<string, nat>, k: string)
    requires k in m
    ensures Total(m) == m[k] + Total(m - {k})
    decreases |m|
  {
    var j :| j in m && Total(m) == m[j] + Total(m - {j});
    if j != k {
      TotalRemove(m - {j}, k);
      TotalRemove(m - {k}, j);
      assert m - {j} - {k} == m - {k} - {j};
    }
  }

  /** Each row is counted exactly once: the counts add up to the number of rows. */
  lemma {:induction false} CountsSumToRows(column: seq<string>)
    ensures Total(ValueCounts(column)) == |column|
    decreases |column|
  {
    if column != [] {
      var init, x := column[..|column| - 1], column[|column| - 1];
      var m := ValueCounts(init);
      var m' := ValueCounts(column);
      CountsSumToRows(init);
      assert m' - {x} == m - {x};
      TotalRemove(m', x);
      if x in m {
        TotalRemove(m, x);
      } else {
        assert m - {x} == m;
      }
    }
  }
}
