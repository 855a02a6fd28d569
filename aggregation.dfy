/** The column sums and group-by sums the aggregators are built from. */
module Aggregation {

  /** `Series.sum()` of the column `val`. */
  function Sum<R>(rows: seq<R>, val: R -> int): int {
    if rows == [] then 0 else val(rows[0]) + Sum(rows[1..], val)
  }

  /** The sum of `val` over the rows selected by `keep`. */
  function SumWhere<R>(rows: seq<R>, val: R -> int, keep: R -> bool): int {
    if rows == [] then 0
    else (if keep(rows[0]) then val(rows[0]) else 0) + SumWhere(rows[1..], val, keep)
  }

  /** The sum of `val` over the rows whose `key` is `k`. */
  function SumOfKey<R, K(==)>(rows: seq<R>, key: R -> K, val: R -> int, k: K): int {
    if rows == [] then 0
    else (if key(rows[0]) == k then val(rows[0]) else 0) + SumOfKey(rows[1..], key, val, k)
  }

  /** Splitting the rows by a predicate and its negation splits the sum. */
  lemma {:induction false} SumPartition<R>(rows: seq<R>, val: R -> int, keep: R -> bool, drop: R -> bool)
    requires forall r :: drop(r) == !keep(r)
    ensures Sum(rows, val) == SumWhere(rows, val, keep) + SumWhere(rows, val, drop)
  {
    if rows != [] {
      SumPartition(rows[1..], val, keep, drop);
    }
  }

  /** Adds `v` to the group `k`, opening the group if it is new. */
  function Accumulate<K>(groups: map<K, int>, k: K, v: int): map<K, int> {
    groups[k := (if k in groups then groups[k] else 0) + v]
  }

  /** `groupby(key)[val].sum()`: one group per distinct key of the rows. */
  function GroupSum<R, K>(rows: seq<R>, key: R -> K, val: R -> int): (groups: map<K, int>)
    ensures groups.Keys == set r | r in rows :: key(r)
  {
    if rows == [] then map[]
    else
      var rest := GroupSum(rows[1..], key, val);
      assert (set r | r in rows :: key(r)) == (set r | r in rows[1..] :: key(r)) + {key(rows[0])} by {
        assert rows == [rows[0]] + rows[1..];
      }
      Accumulate(rest, key(rows[0]), val(rows[0]))
  }

  /** Each group holds the sum of its own rows; a key with no group has no rows
      contributing to it. */
  lemma {:induction false} GroupSumPerKey<R, K>(rows: seq<R>, key: R -> K, val: R -> int, k: K)
    ensures (if k in GroupSum(rows, key, val) then GroupSum(rows, key, val)[k] else 0)
         == SumOfKey(rows, key, val, k)
  {
    if rows != [] {
      GroupSumPerKey(rows[1..], key, val, k);
    }
  }

  /** The sum of the values of a map, in no particular key order. */
  ghost function SumValues<K>(m: map<K, int>): int
    decreases |m|
  {
    if m == map[] then 0
    else
      var k :| k in m;
      assert |m - {k}| < |m| by {
        assert (m - {k}).Keys == m.Keys - {k};
      }
      m[k] + SumValues(m - {k})
  }

  /** The sum of the values does not depend on which key is taken first. */
  lemma SumValuesRemove<K>(m: map<K, int>, k: K)
    requires k in m
    ensures SumValues(m) == m[k] + SumValues(m - {k})
    decreases |m|
  {
    var j :| j in m && SumValues(m) == m[j] + SumValues(m - {j});
    if j != k {
      assert (m - {j}).Keys == m.Keys - {j};
      assert (m - {k}).Keys == m.Keys - {k};
      SumValuesRemove(m - {j}, k);
      SumValuesRemove(m - {k}, j);
      assert m - {j} - {k} == m - {k} - {j};
    }
  }

  /** Accumulating `v` into a group raises the sum of the values by `v`. */
  lemma SumValuesAccumulate<K>(m: map<K, int>, k: K, v: int)
    ensures SumValues(Accumulate(m, k, v)) == SumValues(m) + v
  {
    var m' := Accumulate(m, k, v);
    SumValuesRemove(m', k);
    assert m' - {k} == m - {k};
    if k in m {
      SumValuesRemove(m, k);
    } else {
      assert m - {k} == m;
    }
  }

  /** A map whose values are all at least one sums to at least its size. */
  lemma {:induction false} SumValuesAtLeastSize<K>(m: map<K, int>)
    requires forall k | k in m :: m[k] >= 1
    ensures SumValues(m) >= |m|
    decreases |m|
  {
    if m != map[] {
      var k :| k in m;
      SumValuesRemove(m, k);
      assert (m - {k}).Keys == m.Keys - {k};
      SumValuesAtLeastSize(m - {k});
    }
  }

  /** The group sums add up to the column sum. */
  lemma {:induction false} GroupSumTotal<R, K>(rows: seq<R>, key: R -> K, val: R -> int)
    ensures SumValues(GroupSum(rows, key, val)) == Sum(rows, val)
  {
    if rows != [] {
      GroupSumTotal(rows[1..], key, val);
      SumValuesAccumulate(GroupSum(rows[1..], key, val), key(rows[0]), val(rows[0]));
    }
  }
}
