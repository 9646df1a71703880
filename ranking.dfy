/**
 * The descending sort that the dashboard applies to its table before it
 * draws the overview bar chart and before it takes the top row as the
 * recommendation. Rows are (key, value) pairs ordered by their value.
 * Only the order of values is promised: the table sort is not stable,
 * so nothing is said about the order of rows with equal values.
 */
module Ranking {

  /** Values never increase from one row to a later one. */
  predicate Descending<T>(rows: seq<(T, real)>)
  {
    forall a, b :: 0 <= a < b < |rows| ==> rows[a].1 >= rows[b].1
  }

  /** Places `row` in front of the first row whose value it reaches. */
  function Insert<T>(row: (T, real), sorted: seq<(T, real)>): (r: seq<(T, real)>)
    requires Descending(sorted)
    ensures |r| == |sorted| + 1
    ensures r[0] == row || (|sorted| > 0 && r[0] == sorted[0])
    ensures multiset(r) == multiset(sorted) + multiset{row}
    ensures Descending(r)
    decreases |sorted|
  {
    if sorted == [] || row.1 >= sorted[0].1 then
      ConsDescending(row, sorted);
      [row] + sorted
    else
      assert sorted == [sorted[0]] + sorted[1..];
      var rest := Insert(row, sorted[1..]);
      HeadBoundsInsert(sorted[1..], rest, row, sorted[0].1);
      ConsDescending(sorted[0], rest);
      [sorted[0]] + rest
  }

  /** A row no smaller than every row of a descending sequence can go in front of it. */
  lemma ConsDescending<T>(head: (T, real), rows: seq<(T, real)>)
    requires Descending(rows)
    requires forall j :: 0 <= j < |rows| ==> rows[j].1 <= head.1
    ensures Descending([head] + rows)
  {
    var r := [head] + rows;
    forall a, b | 0 <= a < b < |r|
      ensures r[a].1 >= r[b].1
    {
      assert r[b] == rows[b - 1];
      if a > 0 {
        assert r[a] == rows[a - 1];
      }
    }
  }

  /** A value that bounds the sorted rows and the inserted row bounds the result. */
  lemma HeadBoundsInsert<T>(sorted: seq<(T, real)>, r: seq<(T, real)>, row: (T, real), bound: real)
    requires multiset(r) == multiset(sorted) + multiset{row}
    requires forall i :: 0 <= i < |sorted| ==> sorted[i].1 <= bound
    requires row.1 <= bound
    ensures forall j :: 0 <= j < |r| ==> r[j].1 <= bound
  {
    forall j | 0 <= j < |r|
      ensures r[j].1 <= bound
    {
      assert r[j] in multiset(r);
      if r[j] != row {
        assert r[j] in multiset(sorted);
      }
    }
  }

  /** The rows in descending order of value: a permutation of the input. */
  function SortDescending<T>(rows: seq<(T, real)>): (r: seq<(T, real)>)
    ensures |r| == |rows|
    ensures multiset(r) == multiset(rows)
    ensures Descending(r)
    decreases |rows|
  {
    if rows == [] then
      []
    else
      assert rows == [rows[0]] + rows[1..];
      Insert(rows[0], SortDescending(rows[1..]))
  }

  /** Each value paired with its position, as a table row with its index. */
  function Indexed(values: seq<real>): (rows: seq<(int, real)>)
    ensures |rows| == |values|
    ensures forall i :: 0 <= i < |values| ==> rows[i] == (i, values[i])
  {
    seq(|values|, i requires 0 <= i < |values| => (i, values[i]))
  }

  /** In a descending sequence no row has a larger value than the first. */
  lemma FirstIsMaximum<T>(rows: seq<(T, real)>, x: (T, real))
    requires Descending(rows)
    requires x in multiset(rows)
    ensures x.1 <= rows[0].1
  {
    var k :| 0 <= k < |rows| && rows[k] == x;
  }

  /** The top row after sorting is a row of the input with a maximal value. */
  lemma {:induction false} SortedTopIsMaximum(values: seq<real>)
    requires |values| > 0
    ensures var top := SortDescending(Indexed(values))[0];
      0 <= top.0 < |values| && top.1 == values[top.0] &&
      forall j :: 0 <= j < |values| ==> values[j] <= top.1
  {
    var indexed := Indexed(values);
    var ranked := SortDescending(indexed);
    assert ranked[0] in multiset(indexed);
    var i :| 0 <= i < |indexed| && indexed[i] == ranked[0];
    forall j | 0 <= j < |values|
      ensures values[j] <= ranked[0].1
    {
      assert indexed[j] in multiset(ranked);
      FirstIsMaximum(ranked, indexed[j]);
    }
  }

  /** Index of the first row after a descending sort: a row with a maximal value. */
  function TopIndex(values: seq<real>): (top: int)
    requires |values| > 0
    ensures 0 <= top < |values|
    ensures forall j :: 0 <= j < |values| ==> values[j] <= values[top]
  {
    SortedTopIsMaximum(values);
    SortDescending(Indexed(values))[0].0
  }
}
