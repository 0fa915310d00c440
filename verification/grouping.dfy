/** pandas' groupby(key)[value].sum() / .mean() on rows of (key, value): one
    group per distinct key, in ascending key order, with the sum and the
    number of the values that carry that key. */
module Grouping {

  /** A strict total order on keys, as pandas sorts group keys. */
  ghost predicate StrictOrder<K(!new)>(less: (K, K) -> bool) {
    && (forall a :: !less(a, a))
    && (forall a, b, c :: less(a, b) && less(b, c) ==> less(a, c))
    && (forall a, b :: a != b ==> less(a, b) || less(b, a))
  }

  datatype Group<K> = Group(key: K, sum: real, count: nat)

  // ---------------------------------------------------------------------------
  // Reference definitions over the rows

  function SumOf<K(==)>(rows: seq<(K, real)>, k: K): real {
    if |rows| == 0 then 0.0
    else SumOf(rows[..|rows| - 1], k) + (if rows[|rows| - 1].0 == k then rows[|rows| - 1].1 else 0.0)
  }

  function CountOf<K(==)>(rows: seq<(K, real)>, k: K): nat {
    if |rows| == 0 then 0
    else CountOf(rows[..|rows| - 1], k) + (if rows[|rows| - 1].0 == k then 1 else 0)
  }

  function Total<K>(rows: seq<(K, real)>): real {
    if |rows| == 0 then 0.0 else Total(rows[..|rows| - 1]) + rows[|rows| - 1].1
  }

  lemma {:induction false} CountOfPositive<K>(rows: seq<(K, real)>, i: int)
    requires 0 <= i < |rows|
    ensures CountOf(rows, rows[i].0) > 0
    decreases |rows|
  {
    if i < |rows| - 1 {
      CountOfPositive(rows[..|rows| - 1], i);
    }
  }

  // ---------------------------------------------------------------------------
  // Groups

  predicate Ascending<K>(gs: seq<Group<K>>, less: (K, K) -> bool) {
    forall i, j :: 0 <= i < j < |gs| ==> less(gs[i].key, gs[j].key)
  }

  predicate HasGroup<K(==)>(gs: seq<Group<K>>, k: K) {
    exists i :: 0 <= i < |gs| && gs[i].key == k
  }

  /** The sum of the group with key `k`, 0 when there is none. */
  function GroupSum<K(==)>(gs: seq<Group<K>>, k: K): real {
    if |gs| == 0 then 0.0
    else if gs[0].key == k then gs[0].sum
    else GroupSum(gs[1..], k)
  }

  /** The size of the group with key `k`, 0 when there is none. */
  function GroupCount<K(==)>(gs: seq<Group<K>>, k: K): nat {
    if |gs| == 0 then 0
    else if gs[0].key == k then gs[0].count
    else GroupCount(gs[1..], k)
  }

  function GroupTotal<K>(gs: seq<Group<K>>): real {
    if |gs| == 0 then 0.0 else gs[0].sum + GroupTotal(gs[1..])
  }

  /** Add one row to ascending groups: into its group, or as a new group at
      its place in key order. */
  function Insert<K(==)>(gs: seq<Group<K>>, k: K, v: real, less: (K, K) -> bool): (r: seq<Group<K>>)
    ensures |r| == |gs| || |r| == |gs| + 1
    ensures |r| > 0
  {
    if |gs| == 0 then [Group(k, v, 1)]
    else if gs[0].key == k then [Group(k, gs[0].sum + v, gs[0].count + 1)] + gs[1..]
    else if less(k, gs[0].key) then [Group(k, v, 1)] + gs
    else [gs[0]] + Insert(gs[1..], k, v, less)
  }

  /** groupby over the rows, in row order. */
  function GroupBy<K(==)>(rows: seq<(K, real)>, less: (K, K) -> bool): (gs: seq<Group<K>>)
    ensures |gs| <= |rows|
    ensures |rows| > 0 ==> |gs| > 0
  {
    if |rows| == 0 then []
    else Insert(GroupBy(rows[..|rows| - 1], less), rows[|rows| - 1].0, rows[|rows| - 1].1, less)
  }

  // ---------------------------------------------------------------------------
  // Insert

  /** In ascending groups, a key below the first key has no group. */
  lemma {:induction false} BelowFirstAbsent<K(!new)>(gs: seq<Group<K>>, k: K, less: (K, K) -> bool)
    requires StrictOrder(less) && Ascending(gs, less)
    requires |gs| > 0 && less(k, gs[0].key)
    ensures GroupSum(gs, k) == 0.0 && GroupCount(gs, k) == 0 && !HasGroup(gs, k)
    decreases |gs|
  {
    forall i | 0 <= i < |gs| ensures gs[i].key != k {
      if i > 0 {
        assert less(gs[0].key, gs[i].key);
      }
    }
    if |gs| > 1 {
      assert less(gs[0].key, gs[1].key);
      assert Ascending(gs[1..], less);
      BelowFirstAbsent(gs[1..], k, less);
    }
  }

  lemma {:induction false} InsertAscending<K(!new)>(gs: seq<Group<K>>, k: K, v: real, less: (K, K) -> bool)
    requires StrictOrder(less) && Ascending(gs, less)
    ensures Ascending(Insert(gs, k, v, less), less)
    ensures forall i :: 0 <= i < |Insert(gs, k, v, less)| ==>
      Insert(gs, k, v, less)[i].key == k || HasGroup(gs, Insert(gs, k, v, less)[i].key)
    decreases |gs|
  {
    var r := Insert(gs, k, v, less);
    if |gs| == 0 {
    } else if gs[0].key == k {
      forall i | 0 <= i < |r| ensures r[i].key == k || HasGroup(gs, r[i].key) {
        if i > 0 { assert r[i].key == gs[i].key; }
      }
    } else if less(k, gs[0].key) {
      forall i | 0 < i < |r| ensures less(k, r[i].key) {
        if i > 1 { assert less(gs[0].key, gs[i - 1].key); }
      }
      forall i | 0 <= i < |r| ensures r[i].key == k || HasGroup(gs, r[i].key) {
        if i > 0 { assert r[i].key == gs[i - 1].key; }
      }
    } else {
      var rest := gs[1..];
      assert Ascending(rest, less);
      InsertAscending(rest, k, v, less);
      var r' := Insert(rest, k, v, less);
      assert r == [gs[0]] + r';
      forall i | 0 <= i < |r'| ensures less(gs[0].key, r'[i].key) {
        if r'[i].key != k {
          var j :| 0 <= j < |rest| && rest[j].key == r'[i].key;
          assert rest[j] == gs[j + 1];
        }
      }
      forall i | 0 <= i < |r| ensures r[i].key == k || HasGroup(gs, r[i].key) {
        if i > 0 && r'[i - 1].key != k {
          var j :| 0 <= j < |rest| && rest[j].key == r'[i - 1].key;
          assert rest[j] == gs[j + 1];
        }
      }
    }
  }

  /** Inserting (k, v) adds v to the sum of k and 1 to its size, and leaves
      every other group alone. */
  lemma {:induction false} InsertContents<K(!new)>(gs: seq<Group<K>>, k: K, v: real, less: (K, K) -> bool, q: K)
    requires StrictOrder(less) && Ascending(gs, less)
    ensures GroupSum(Insert(gs, k, v, less), q) == GroupSum(gs, q) + (if q == k then v else 0.0)
    ensures GroupCount(Insert(gs, k, v, less), q) == GroupCount(gs, q) + (if q == k then 1 else 0)
    ensures HasGroup(Insert(gs, k, v, less), q) <==> HasGroup(gs, q) || q == k
    decreases |gs|
  {
    var r := Insert(gs, k, v, less);
    if |gs| == 0 {
      assert r[0].key == k;
    } else if gs[0].key == k {
      assert r[1..] == gs[1..];
      HasGroupCons(gs, q);
      HasGroupCons(r, q);
    } else if less(k, gs[0].key) {
      if q == k {
        BelowFirstAbsent(gs, k, less);
      }
      assert r[1..] == gs;
      HasGroupCons(r, q);
    } else {
      assert Ascending(gs[1..], less);
      InsertContents(gs[1..], k, v, less, q);
      assert r[1..] == Insert(gs[1..], k, v, less);
      HasGroupCons(gs, q);
      HasGroupCons(r, q);
    }
  }

  lemma HasGroupCons<K>(gs: seq<Group<K>>, q: K)
    requires |gs| > 0
    ensures HasGroup(gs, q) <==> gs[0].key == q || HasGroup(gs[1..], q)
  {
    if HasGroup(gs, q) && gs[0].key != q {
      var i :| 0 <= i < |gs| && gs[i].key == q;
      assert gs[1..][i - 1].key == q;
    }
    if HasGroup(gs[1..], q) {
      var i :| 0 <= i < |gs| - 1 && gs[1..][i].key == q;
      assert gs[i + 1].key == q;
    }
  }

  lemma {:induction false} InsertTotal<K>(gs: seq<Group<K>>, k: K, v: real, less: (K, K) -> bool)
    ensures GroupTotal(Insert(gs, k, v, less)) == GroupTotal(gs) + v
    decreases |gs|
  {
    var r := Insert(gs, k, v, less);
    if |gs| == 0 {
    } else if gs[0].key == k {
      assert r[1..] == gs[1..];
    } else if less(k, gs[0].key) {
      assert r[1..] == gs;
    } else {
      InsertTotal(gs[1..], k, v, less);
      assert r[1..] == Insert(gs[1..], k, v, less);
    }
  }

  // ---------------------------------------------------------------------------
  // GroupBy

  /** Group keys come out strictly ascending, hence distinct. */
  lemma {:induction false} GroupByAscending<K(!new)>(rows: seq<(K, real)>, less: (K, K) -> bool)
    requires StrictOrder(less)
    ensures Ascending(GroupBy(rows, less), less)
    decreases |rows|
  {
    if |rows| > 0 {
      GroupByAscending(rows[..|rows| - 1], less);
      InsertAscending(GroupBy(rows[..|rows| - 1], less), rows[|rows| - 1].0, rows[|rows| - 1].1, less);
    }
  }

  /** Each key's group holds the sum and the number of that key's rows, and a
      key has a group exactly when some row carries it. */
  lemma {:induction false} GroupByContents<K(!new)>(rows: seq<(K, real)>, less: (K, K) -> bool, q: K)
    requires StrictOrder(less)
    ensures GroupSum(GroupBy(rows, less), q) == SumOf(rows, q)
    ensures GroupCount(GroupBy(rows, less), q) == CountOf(rows, q)
    ensures HasGroup(GroupBy(rows, less), q) <==> CountOf(rows, q) > 0
    decreases |rows|
  {
    if |rows| > 0 {
      var init := rows[..|rows| - 1];
      GroupByContents(init, less, q);
      GroupByAscending(init, less);
      InsertContents(GroupBy(init, less), rows[|rows| - 1].0, rows[|rows| - 1].1, less, q);
    }
  }

  /** The groups' sums add up to the sum of all values. */
  lemma {:induction false} GroupByTotal<K>(rows: seq<(K, real)>, less: (K, K) -> bool)
    ensures GroupTotal(GroupBy(rows, less)) == Total(rows)
    decreases |rows|
  {
    if |rows| > 0 {
      GroupByTotal(rows[..|rows| - 1], less);
      InsertTotal(GroupBy(rows[..|rows| - 1], less), rows[|rows| - 1].0, rows[|rows| - 1].1, less);
    }
  }

  /** With distinct keys, the group at position i is the one GroupSum finds. */
  lemma {:induction false} GroupAt<K(!new)>(gs: seq<Group<K>>, less: (K, K) -> bool, i: int)
    requires StrictOrder(less) && Ascending(gs, less) && 0 <= i < |gs|
    ensures GroupSum(gs, gs[i].key) == gs[i].sum && GroupCount(gs, gs[i].key) == gs[i].count
    decreases |gs|
  {
    if i > 0 {
      assert less(gs[0].key, gs[i].key);
      assert Ascending(gs[1..], less);
      GroupAt(gs[1..], less, i - 1);
    }
  }

  predicate NonEmptyGroups<K>(gs: seq<Group<K>>) {
    forall i :: 0 <= i < |gs| ==> gs[i].count > 0
  }

  lemma GroupByNonEmpty<K(!new)>(rows: seq<(K, real)>, less: (K, K) -> bool)
    requires StrictOrder(less)
    ensures NonEmptyGroups(GroupBy(rows, less))
  {
    forall i | 0 <= i < |GroupBy(rows, less)| ensures GroupBy(rows, less)[i].count > 0 {
      GroupByCountPositive(rows, less, i);
    }
  }

  /** Every group of a groupby is non-empty. */
  lemma GroupByCountPositive<K(!new)>(rows: seq<(K, real)>, less: (K, K) -> bool, i: int)
    requires StrictOrder(less) && 0 <= i < |GroupBy(rows, less)|
    ensures GroupBy(rows, less)[i].count > 0
    ensures GroupBy(rows, less)[i].sum == SumOf(rows, GroupBy(rows, less)[i].key)
    ensures GroupBy(rows, less)[i].count == CountOf(rows, GroupBy(rows, less)[i].key)
  {
    var gs := GroupBy(rows, less);
    GroupByAscending(rows, less);
    GroupAt(gs, less, i);
    GroupByContents(rows, less, gs[i].key);
    assert HasGroup(gs, gs[i].key);
  }
}
