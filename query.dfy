/**
 * The query primitives the aggregation endpoints build on, over plain
 * sequences: `GROUP BY key` with `SUM(amount)` and `COUNT(*)`, the
 * first-match lookup of a grouped row, and `ORDER BY ... DESC`.
 *
 * A grouped query is modelled as hash aggregation in first-seen order:
 * each row either adds to the group of its key or opens a new group at the
 * end. `Add` is that update, and it is also the update of a Python dict
 * entry by `d[k] += v`.
 */
module Query {

  /** One input row of a grouped query: the grouping key and the amount summed. */
  datatype Row<K> = Row(key: K, amount: int)

  /** One output row of a grouped query: key, `SUM(amount)` and `COUNT(*)`. */
  datatype Group<K> = Group(key: K, total: int, count: nat)

  predicate NoDuplicates<T(==)>(s: seq<T>) {
    forall i, j :: 0 <= i < j < |s| ==> s[i] != s[j]
  }

  lemma NoDuplicatesCons<T>(a: T, b: seq<T>)
    ensures NoDuplicates([a] + b) <==> a !in b && NoDuplicates(b)
  {
    var s := [a] + b;
    assert forall i :: 0 <= i < |b| ==> b[i] == s[i + 1];
    if NoDuplicates(s) {
      forall i, j | 0 <= i < j < |b|
        ensures b[i] != b[j]
      {
        assert s[i + 1] != s[j + 1];
      }
      forall k | 0 <= k < |b|
        ensures b[k] != a
      {
        assert s[0] != s[k + 1];
      }
    }
    if a !in b && NoDuplicates(b) {
      forall i, j | 0 <= i < j < |s|
        ensures s[i] != s[j]
      {
        if i == 0 {
          assert s[j] in b;
        }
      }
    }
  }

  function Sum(s: seq<int>): int {
    if s == [] then 0 else s[0] + Sum(s[1..])
  }

  /** The distinct elements of `s` in order of first appearance. */
  function Distinct<T(==,!new)>(s: seq<T>): (r: seq<T>)
    ensures NoDuplicates(r)
    ensures forall x :: x in r <==> x in s
  {
    if s == [] then []
    else
      var prefix := s[..|s| - 1];
      assert s == prefix + [s[|s| - 1]];
      var d := Distinct(prefix);
      if s[|s| - 1] in d then d else d + [s[|s| - 1]]
  }

  /** One more element extends the distinct elements only when it is new. */
  lemma DistinctSnoc<T(!new)>(s: seq<T>, x: T)
    ensures Distinct(s + [x]) == if x in s then Distinct(s) else Distinct(s) + [x]
  {
    assert (s + [x])[..|s|] == s;
  }

  // ---- rows ----

  function RowKeys<K>(rows: seq<Row<K>>): seq<K> {
    seq(|rows|, i requires 0 <= i < |rows| => rows[i].key)
  }

  /** Sum of all amounts. */
  function TotalOf<K>(rows: seq<Row<K>>): int {
    if rows == [] then 0 else TotalOf(rows[..|rows| - 1]) + rows[|rows| - 1].amount
  }

  /** `SUM(amount) WHERE key = k`. */
  function SumOf<K(==)>(rows: seq<Row<K>>, k: K): int {
    if rows == [] then 0
    else SumOf(rows[..|rows| - 1], k) + (if rows[|rows| - 1].key == k then rows[|rows| - 1].amount else 0)
  }

  /** `COUNT(*) WHERE key = k`. */
  function CountOf<K(==)>(rows: seq<Row<K>>, k: K): nat {
    if rows == [] then 0
    else CountOf(rows[..|rows| - 1], k) + (if rows[|rows| - 1].key == k then 1 else 0)
  }

  lemma {:induction false} AbsentKey<K>(rows: seq<Row<K>>, k: K)
    requires k !in RowKeys(rows)
    ensures SumOf(rows, k) == 0 && CountOf(rows, k) == 0
  {
    if rows != [] {
      var init := rows[..|rows| - 1];
      assert RowKeys(init) == RowKeys(rows)[..|rows| - 1];
      assert rows[|rows| - 1].key == RowKeys(rows)[|rows| - 1];
      AbsentKey(init, k);
    }
  }

  // ---- groups ----

  function GroupKeys<K>(g: seq<Group<K>>): seq<K> {
    seq(|g|, i requires 0 <= i < |g| => g[i].key)
  }

  function Totals<K>(g: seq<Group<K>>): seq<int> {
    seq(|g|, i requires 0 <= i < |g| => g[i].total)
  }

  function Counts<K>(g: seq<Group<K>>): seq<int> {
    seq(|g|, i requires 0 <= i < |g| => g[i].count)
  }

  /** The group `gr` after row `x` was added to it, if it is `x`'s group. */
  function Bump<K(==)>(gr: Group<K>, x: Row<K>): Group<K> {
    if gr.key == x.key then Group(gr.key, gr.total + x.amount, gr.count + 1) else gr
  }

  /** Adds row `x` to the first group of its key, or opens a group for it at the end. */
  function Add<K(==)>(g: seq<Group<K>>, x: Row<K>): seq<Group<K>> {
    if g == [] then [Group(x.key, x.amount, 1)]
    else if g[0].key == x.key then [Bump(g[0], x)] + g[1..]
    else [g[0]] + Add(g[1..], x)
  }

  lemma {:induction false} AddSpec<K>(g: seq<Group<K>>, x: Row<K>)
    requires NoDuplicates(GroupKeys(g))
    ensures x.key in GroupKeys(g) ==> |Add(g, x)| == |g|
    ensures x.key !in GroupKeys(g) ==> |Add(g, x)| == |g| + 1 && Add(g, x)[|g|] == Group(x.key, x.amount, 1)
    ensures forall i :: 0 <= i < |g| ==> Add(g, x)[i] == Bump(g[i], x)
  {
    if g != [] {
      var ks := GroupKeys(g);
      var a := Add(g, x);
      if g[0].key != x.key {
        var ks' := GroupKeys(g[1..]);
        assert ks == [g[0].key] + ks';
        NoDuplicatesCons(g[0].key, ks');
        AddSpec(g[1..], x);
        var a' := Add(g[1..], x);
        assert a == [g[0]] + a';
        forall i | 0 < i < |g|
          ensures a[i] == Bump(g[i], x)
        {
          assert a[i] == a'[i - 1];
          assert g[i] == g[1..][i - 1];
        }
        if x.key !in ks {
          assert x.key !in ks';
          assert a[|g|] == a'[|g| - 1];
        }
      } else {
        assert ks[0] == x.key;
        forall i | 0 < i < |g|
          ensures g[i].key != x.key
        {
          assert ks[i] == g[i].key;
        }
      }
    }
  }

  lemma {:induction false} AddKeys<K>(g: seq<Group<K>>, x: Row<K>)
    requires NoDuplicates(GroupKeys(g))
    ensures GroupKeys(Add(g, x)) == if x.key in GroupKeys(g) then GroupKeys(g) else GroupKeys(g) + [x.key]
  {
    AddSpec(g, x);
  }

  lemma {:induction false} AddSums<K>(g: seq<Group<K>>, x: Row<K>)
    ensures Sum(Totals(Add(g, x))) == Sum(Totals(g)) + x.amount
    ensures Sum(Counts(Add(g, x))) == Sum(Counts(g)) + 1
    decreases |g|
  {
    if g == [] {
      assert Totals(Add(g, x)) == [x.amount];
      assert Counts(Add(g, x)) == [1];
    } else {
      var a := Add(g, x);
      assert Totals(g)[1..] == Totals(g[1..]);
      assert Counts(g)[1..] == Counts(g[1..]);
      if g[0].key == x.key {
        assert a[1..] == g[1..];
        assert Totals(a)[1..] == Totals(g[1..]);
        assert Counts(a)[1..] == Counts(g[1..]);
      } else {
        AddSums(g[1..], x);
        assert a[1..] == Add(g[1..], x);
        assert Totals(a)[1..] == Totals(Add(g[1..], x));
        assert Counts(a)[1..] == Counts(Add(g[1..], x));
      }
    }
  }

  /** `GROUP BY key` with `SUM(amount)` and `COUNT(*)`: one group per distinct key,
      in order of first appearance, each carrying the sum and count of its rows. */
  function GroupBy<K(==,!new)>(rows: seq<Row<K>>): (g: seq<Group<K>>)
    ensures GroupKeys(g) == Distinct(RowKeys(rows))
    ensures forall i :: 0 <= i < |g| ==> g[i].total == SumOf(rows, g[i].key) && g[i].count == CountOf(rows, g[i].key)
  {
    if rows == [] then []
    else
      var init, x := rows[..|rows| - 1], rows[|rows| - 1];
      assert rows == init + [x];
      GroupByStep(init, x, GroupBy(init));
      Add(GroupBy(init), x)
  }

  /** The inductive step of GroupBy: adding row `x` to the groups of the rows before it. */
  lemma GroupByStep<K(!new)>(init: seq<Row<K>>, x: Row<K>, g0: seq<Group<K>>)
    requires GroupKeys(g0) == Distinct(RowKeys(init))
    requires forall i :: 0 <= i < |g0| ==> g0[i].total == SumOf(init, g0[i].key) && g0[i].count == CountOf(init, g0[i].key)
    ensures GroupKeys(Add(g0, x)) == Distinct(RowKeys(init + [x]))
    ensures forall i :: 0 <= i < |Add(g0, x)| ==>
      Add(g0, x)[i].total == SumOf(init + [x], Add(g0, x)[i].key) &&
      Add(g0, x)[i].count == CountOf(init + [x], Add(g0, x)[i].key)
  {
    GroupByKeysStep(init, x, g0);
    GroupBySumsStep(init, x, g0);
  }

  lemma GroupByKeysStep<K(!new)>(init: seq<Row<K>>, x: Row<K>, g0: seq<Group<K>>)
    requires GroupKeys(g0) == Distinct(RowKeys(init))
    ensures GroupKeys(Add(g0, x)) == Distinct(RowKeys(init + [x]))
  {
    assert RowKeys(init + [x]) == RowKeys(init) + [x.key];
    DistinctSnoc(RowKeys(init), x.key);
    AddKeys(g0, x);
  }

  lemma GroupBySumsStep<K(!new)>(init: seq<Row<K>>, x: Row<K>, g0: seq<Group<K>>)
    requires GroupKeys(g0) == Distinct(RowKeys(init))
    requires forall i :: 0 <= i < |g0| ==> g0[i].total == SumOf(init, g0[i].key) && g0[i].count == CountOf(init, g0[i].key)
    ensures forall i :: 0 <= i < |Add(g0, x)| ==>
      Add(g0, x)[i].total == SumOf(init + [x], Add(g0, x)[i].key) &&
      Add(g0, x)[i].count == CountOf(init + [x], Add(g0, x)[i].key)
  {
    var rows := init + [x];
    assert rows[..|rows| - 1] == init;
    AddSpec(g0, x);
    var a := Add(g0, x);
    forall i | 0 <= i < |g0|
      ensures a[i].total == SumOf(rows, a[i].key) && a[i].count == CountOf(rows, a[i].key)
    {
      assert a[i] == Bump(g0[i], x);
    }
    if x.key !in GroupKeys(g0) {
      assert x.key !in RowKeys(init);
      AbsentKey(init, x.key);
      assert a[|g0|] == Group(x.key, x.amount, 1);
    }
  }

  /** Grouping one more row adds it to the groups of the rows before it. */
  lemma GroupBySnoc<K(!new)>(rows: seq<Row<K>>, x: Row<K>)
    ensures GroupBy(rows + [x]) == Add(GroupBy(rows), x)
  {
    assert (rows + [x])[..|rows|] == rows;
  }

  /** The group totals add up to the total of all rows, and the counts to the number of rows. */
  lemma {:induction false} GroupByTotals<K(!new)>(rows: seq<Row<K>>)
    ensures Sum(Totals(GroupBy(rows))) == TotalOf(rows)
    ensures Sum(Counts(GroupBy(rows))) == |rows|
  {
    if rows != [] {
      var init := rows[..|rows| - 1];
      GroupByTotals(init);
      AddSums(GroupBy(init), rows[|rows| - 1]);
    }
  }

  /** The total of the first group with key `k`, or 0 when there is none
      (the `for e in expenses: if ...: total = e.total; break` scan). */
  function Lookup<K(==)>(g: seq<Group<K>>, k: K): int {
    if g == [] then 0 else if g[0].key == k then g[0].total else Lookup(g[1..], k)
  }

  /** The scan stops at the first group with the key, whatever the groups after it hold. */
  lemma {:induction false} LookupFirst<K>(g: seq<Group<K>>, k: K, i: nat)
    requires i < |g| && g[i].key == k
    requires forall j :: 0 <= j < i ==> g[j].key != k
    ensures Lookup(g, k) == g[i].total
  {
    if i > 0 {
      assert forall j :: 0 <= j < i - 1 ==> g[1..][j] == g[j + 1];
      LookupFirst(g[1..], k, i - 1);
    }
  }

  lemma {:induction false} LookupAt<K>(g: seq<Group<K>>, i: nat)
    requires NoDuplicates(GroupKeys(g))
    requires i < |g|
    ensures Lookup(g, g[i].key) == g[i].total
  {
    if i > 0 {
      assert GroupKeys(g)[0] != GroupKeys(g)[i];
      assert GroupKeys(g[1..]) == GroupKeys(g)[1..];
      LookupAt(g[1..], i - 1);
    }
  }

  lemma {:induction false} LookupMissing<K>(g: seq<Group<K>>, k: K)
    requires k !in GroupKeys(g)
    ensures Lookup(g, k) == 0
  {
    if g != [] {
      assert GroupKeys(g) == [g[0].key] + GroupKeys(g[1..]);
      LookupMissing(g[1..], k);
    }
  }

  /** Looking a key up in a grouped result yields that key's sum. */
  lemma LookupGroupBy<K(!new)>(rows: seq<Row<K>>, k: K)
    ensures Lookup(GroupBy(rows), k) == SumOf(rows, k)
  {
    var g := GroupBy(rows);
    if k in GroupKeys(g) {
      var i :| 0 <= i < |g| && GroupKeys(g)[i] == k;
      LookupAt(g, i);
    } else {
      assert k !in RowKeys(rows);
      LookupMissing(g, k);
      AbsentKey(rows, k);
    }
  }

  /** A group appended at the end is found only by its own key; other lookups are unchanged. */
  lemma {:induction false} LookupSnoc<K>(g: seq<Group<K>>, x: Group<K>, k: K)
    requires x.key !in GroupKeys(g)
    ensures Lookup(g + [x], k) == if k == x.key then x.total else Lookup(g, k)
  {
    if g == [] {
      assert g + [x] == [x];
    } else {
      assert (g + [x])[1..] == g[1..] + [x];
      assert GroupKeys(g) == [g[0].key] + GroupKeys(g[1..]);
      LookupSnoc(g[1..], x, k);
    }
  }

  /** Lowering one entry lowers the sum by the same amount. */
  lemma {:induction false} SumUpdate(s: seq<int>, i: nat, v: int)
    requires i < |s|
    ensures Sum(s[i := s[i] - v]) == Sum(s) - v
  {
    if i == 0 {
      assert s[i := s[i] - v][1..] == s[1..];
    } else {
      assert s[i := s[i] - v][1..] == s[1..][i - 1 := s[i] - v];
      SumUpdate(s[1..], i - 1, v);
    }
  }

  lemma {:induction false} SumZeros(s: seq<int>)
    requires forall i :: 0 <= i < |s| ==> s[i] == 0
    ensures Sum(s) == 0
  {
    if s != [] {
      SumZeros(s[1..]);
    }
  }

  /** A zero-filled series indexed by key (entry `d - 1` holds the total of key `d`) adds up
      to the totals of the groups, when every key is a position of the series. */
  lemma {:induction false} FilledSum(s: seq<int>, g: seq<Group<int>>)
    requires NoDuplicates(GroupKeys(g))
    requires forall i :: 0 <= i < |g| ==> 1 <= g[i].key <= |s|
    requires forall d :: 1 <= d <= |s| ==> s[d - 1] == Lookup(g, d)
    ensures Sum(s) == Sum(Totals(g))
    decreases |g|
  {
    if g == [] {
      forall i | 0 <= i < |s|
        ensures s[i] == 0
      {
        assert s[(i + 1) - 1] == Lookup(g, i + 1);
      }
      SumZeros(s);
    } else {
      var x, rest := g[0], g[1..];
      assert GroupKeys(g) == [x.key] + GroupKeys(rest);
      NoDuplicatesCons(x.key, GroupKeys(rest));
      assert 1 <= x.key <= |s|;
      LookupMissing(rest, x.key);
      var s' := s[x.key - 1 := s[x.key - 1] - x.total];
      forall d | 1 <= d <= |s'|
        ensures s'[d - 1] == Lookup(rest, d)
      {
        assert s[d - 1] == Lookup(g, d);
        if d != x.key {
          assert Lookup(g, d) == Lookup(rest, d);
        } else {
          assert Lookup(g, d) == x.total;
        }
      }
      forall i | 0 <= i < |rest|
        ensures 1 <= rest[i].key <= |s'|
      {
        assert rest[i] == g[i + 1];
      }
      FilledSum(s', rest);
      SumUpdate(s, x.key - 1, x.total);
      assert Totals(g) == [x.total] + Totals(rest);
    }
  }

  // ---- ORDER BY ... DESC ----

  predicate SortedDesc<T>(s: seq<T>, key: T -> int) {
    forall i, j :: 0 <= i < j < |s| ==> key(s[i]) >= key(s[j])
  }

  /** Inserts `x` before the first element of `s` whose key is not larger than its own. */
  function Insert<T>(x: T, s: seq<T>, key: T -> int): (r: seq<T>)
    requires SortedDesc(s, key)
    ensures SortedDesc(r, key)
    ensures multiset(r) == multiset(s) + multiset{x}
    ensures |r| == |s| + 1
    ensures r[0] == x || (s != [] && r[0] == s[0])
  {
    if s == [] || key(x) >= key(s[0]) then [x] + s
    else
      assert s == [s[0]] + s[1..];
      [s[0]] + Insert(x, s[1..], key)
  }

  /** An insertion sort by descending key. */
  function SortDesc<T>(s: seq<T>, key: T -> int): (r: seq<T>)
    ensures SortedDesc(r, key)
    ensures multiset(r) == multiset(s)
    ensures |r| == |s|
  {
    if s == [] then []
    else
      assert s == [s[0]] + s[1..];
      Insert(s[0], SortDesc(s[1..], key), key)
  }

  /** Inserting a group whose key is new keeps the keys distinct and adds exactly that key. */
  lemma {:induction false} InsertKeys<K>(x: Group<K>, s: seq<Group<K>>, key: Group<K> -> int)
    requires SortedDesc(s, key)
    requires NoDuplicates(GroupKeys(s))
    requires x.key !in GroupKeys(s)
    ensures NoDuplicates(GroupKeys(Insert(x, s, key)))
    ensures forall k :: k in GroupKeys(Insert(x, s, key)) <==> k == x.key || k in GroupKeys(s)
  {
    if s == [] || key(x) >= key(s[0]) {
      assert GroupKeys([x] + s) == [x.key] + GroupKeys(s);
      NoDuplicatesCons(x.key, GroupKeys(s));
    } else {
      assert GroupKeys(s) == [s[0].key] + GroupKeys(s[1..]);
      NoDuplicatesCons(s[0].key, GroupKeys(s[1..]));
      InsertKeys(x, s[1..], key);
      var r := Insert(x, s[1..], key);
      assert GroupKeys([s[0]] + r) == [s[0].key] + GroupKeys(r);
      NoDuplicatesCons(s[0].key, GroupKeys(r));
    }
  }

  /** Sorting groups keeps their keys distinct and does not change which keys occur. */
  lemma {:induction false} SortDescKeys<K>(g: seq<Group<K>>, key: Group<K> -> int)
    requires NoDuplicates(GroupKeys(g))
    ensures NoDuplicates(GroupKeys(SortDesc(g, key)))
    ensures forall k :: k in GroupKeys(SortDesc(g, key)) <==> k in GroupKeys(g)
  {
    if g != [] {
      assert GroupKeys(g) == [g[0].key] + GroupKeys(g[1..]);
      NoDuplicatesCons(g[0].key, GroupKeys(g[1..]));
      SortDescKeys(g[1..], key);
      InsertKeys(g[0], SortDesc(g[1..], key), key);
    }
  }
}
