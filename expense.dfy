/**
 * The expense record and the selections over a user's expenses that the
 * views share: per-user, per-month, per-year filtering, the sum of amounts,
 * and the projection of expenses to the rows of a grouped query.
 */
module Expenses {
  import opened Wrappers
  import opened Calendar
  import opened Query

  /** Opaque identifiers (UUIDs in the store). */
  type UserId = nat
  type ExpenseId = nat

  /** A timestamp (created_at / updated_at), as an opaque instant. */
  type Timestamp = int

  /** One stored expense; `amount` is in cents. */
  datatype Expense = Expense(
    id: ExpenseId,
    userId: UserId,
    name: string,
    amount: int,
    mainCategory: string,
    subcategory: string,
    date: Date,
    paymentMethod: Option<string>,
    description: Option<string>,
    createdAt: Timestamp,
    updatedAt: Timestamp)

  /** The expenses of `es` that satisfy `keep`, in their original order (a `WHERE` clause). */
  function Filter(es: seq<Expense>, keep: Expense -> bool): (r: seq<Expense>)
    ensures forall e :: e in r <==> e in es && keep(e)
    ensures |r| <= |es|
  {
    if es == [] then []
    else
      var init, last := es[..|es| - 1], es[|es| - 1];
      assert es == init + [last];
      Filter(init, keep) + (if keep(last) then [last] else [])
  }

  /** `sum(expense.amount for expense in es)`. */
  function Total(es: seq<Expense>): int {
    if es == [] then 0 else Total(es[..|es| - 1]) + es[|es| - 1].amount
  }

  /** With no negative amount, the total is not negative and is at least each single amount. */
  lemma {:induction false} TotalBounds(es: seq<Expense>)
    requires forall i :: 0 <= i < |es| ==> es[i].amount >= 0
    ensures Total(es) >= 0
    ensures forall i :: 0 <= i < |es| ==> es[i].amount <= Total(es)
  {
    if es != [] {
      TotalBounds(es[..|es| - 1]);
    }
  }

  lemma {:induction false} TotalAppend(a: seq<Expense>, b: seq<Expense>)
    ensures Total(a + b) == Total(a) + Total(b)
    decreases |b|
  {
    if b == [] {
      assert a + b == a;
    } else {
      assert (a + b)[..|a + b| - 1] == a + b[..|b| - 1];
      TotalAppend(a, b[..|b| - 1]);
    }
  }

  /** The total of a list of expenses does not depend on their order. */
  lemma {:induction false} TotalPermutation(a: seq<Expense>, b: seq<Expense>)
    requires multiset(a) == multiset(b)
    ensures Total(a) == Total(b)
    decreases |a|
  {
    if a != [] {
      var x := a[|a| - 1];
      assert x in multiset(b);
      var k :| 0 <= k < |b| && b[k] == x;
      var rest := b[..k] + b[k + 1..];
      assert b == b[..k] + [x] + b[k + 1..];
      assert a == a[..|a| - 1] + [x];
      assert multiset(a) == multiset(a[..|a| - 1]) + multiset{x};
      assert multiset(b) == multiset(b[..k]) + multiset{x} + multiset(b[k + 1..]);
      assert multiset(rest) == multiset(b[..k]) + multiset(b[k + 1..]);
      assert multiset(a[..|a| - 1]) == multiset(a) - multiset{x};
      assert multiset(rest) == multiset(b) - multiset{x};
      TotalPermutation(a[..|a| - 1], rest);
      TotalAppend(b[..k] + [x], b[k + 1..]);
      TotalAppend(b[..k], [x]);
      TotalAppend(b[..k], b[k + 1..]);
      assert [x][..0] == [];
    }
  }

  /** The expenses of one user dated in the given month of the given year
      (`user_id == ...`, `extract("month", date) == month`, `extract("year", date) == year`). */
  function InMonth(es: seq<Expense>, userId: UserId, month: int, year: int): (r: seq<Expense>)
    ensures forall e :: e in r <==> e in es && e.userId == userId && e.date.month == month && e.date.year == year
  {
    Filter(es, (e: Expense) => e.userId == userId && e.date.month == month && e.date.year == year)
  }

  /** The expenses of one user dated in the given year. */
  function InYear(es: seq<Expense>, userId: UserId, year: int): (r: seq<Expense>)
    ensures forall e :: e in r <==> e in es && e.userId == userId && e.date.year == year
  {
    Filter(es, (e: Expense) => e.userId == userId && e.date.year == year)
  }

  /** The rows a grouped query reads: `key(e)` and `e.amount` for each expense whose key
      is not NULL, in order. */
  function Project<K>(es: seq<Expense>, key: Expense -> Option<K>): seq<Row<K>> {
    if es == [] then []
    else
      var last := es[|es| - 1];
      Project(es[..|es| - 1], key) + (match key(last) case Some(k) => [Row(k, last.amount)] case None => [])
  }

  /** There is at most one row per expense, and one for each exactly when no key is NULL. */
  lemma {:induction false} ProjectLength<K>(es: seq<Expense>, key: Expense -> Option<K>)
    ensures |Project(es, key)| <= |es|
    ensures |Project(es, key)| == |es| <==> forall e :: e in es ==> key(e).Some?
  {
    if es != [] {
      var init := es[..|es| - 1];
      ProjectLength(init, key);
      assert es == init + [es[|es| - 1]];
    }
  }

  /** A key value occurs among the projected rows iff some expense has it. */
  lemma {:induction false} ProjectKeys<K>(es: seq<Expense>, key: Expense -> Option<K>, k: K)
    ensures k in RowKeys(Project(es, key)) <==> exists e :: e in es && key(e) == Some(k)
  {
    if es != [] {
      var init, last := es[..|es| - 1], es[|es| - 1];
      assert es == init + [last];
      ProjectKeys(init, key, k);
      var p := Project(init, key);
      var tail: seq<Row<K>> := match key(last) case Some(c) => [Row(c, last.amount)] case None => [];
      assert Project(es, key) == p + tail;
      assert RowKeys(p + tail) == RowKeys(p) + RowKeys(tail);
      if key(last) == Some(k) {
        assert RowKeys(tail) == [k];
      } else {
        assert k !in RowKeys(tail);
        assert forall e :: e in es && key(e) == Some(k) ==> e in init;
      }
    }
  }

  /** The expenses whose key is not NULL (`key IS NOT NULL`). */
  function Keyed<K>(es: seq<Expense>, key: Expense -> Option<K>): (r: seq<Expense>)
    ensures forall e :: e in r <==> e in es && key(e).Some?
  {
    Filter(es, (e: Expense) => key(e).Some?)
  }

  /** The expenses whose key is `k` (`WHERE key = k`), a reference definition for one group. */
  function WithKey<K(==)>(es: seq<Expense>, key: Expense -> Option<K>, k: K): (r: seq<Expense>)
    ensures forall e :: e in r <==> e in es && key(e) == Some(k)
  {
    Filter(es, (e: Expense) => key(e) == Some(k))
  }

  /** The projection keeps one row, with its amount, per expense whose key is not NULL. */
  lemma {:induction false} ProjectKeyed<K>(es: seq<Expense>, key: Expense -> Option<K>)
    ensures |Project(es, key)| == |Keyed(es, key)|
    ensures TotalOf(Project(es, key)) == Total(Keyed(es, key))
  {
    if es != [] {
      var init, last := es[..|es| - 1], es[|es| - 1];
      ProjectKeyed(init, key);
      var p := Project(init, key);
      var k := Keyed(init, key);
      if key(last).Some? {
        var rows := p + [Row(key(last).value, last.amount)];
        assert Project(es, key) == rows;
        assert rows[..|rows| - 1] == p;
        assert Keyed(es, key) == k + [last];
        assert (k + [last])[..|k|] == k;
      } else {
        assert Project(es, key) == p;
        assert Keyed(es, key) == k;
      }
    }
  }

  /** When every expense has a key, none is dropped. */
  lemma {:induction false} KeyedAll<K>(es: seq<Expense>, key: Expense -> Option<K>)
    requires forall e :: e in es ==> key(e).Some?
    ensures Keyed(es, key) == es
  {
    if es != [] {
      var init := es[..|es| - 1];
      assert es == init + [es[|es| - 1]];
      assert forall e :: e in init ==> e in es;
      KeyedAll(init, key);
    }
  }

  /** The grouped sum and count of key `k` are the total and the number of the expenses with that key. */
  lemma {:induction false} SumOfProject<K>(es: seq<Expense>, key: Expense -> Option<K>, k: K)
    ensures SumOf(Project(es, key), k) == Total(WithKey(es, key, k))
    ensures CountOf(Project(es, key), k) == |WithKey(es, key, k)|
  {
    if es != [] {
      var init, last := es[..|es| - 1], es[|es| - 1];
      SumOfProject(init, key, k);
      var p := Project(init, key);
      var w := WithKey(init, key, k);
      match key(last)
      case None =>
        assert Project(es, key) == p;
        assert WithKey(es, key, k) == w;
      case Some(c) =>
        SumOfProjectKeyed(es, key, k, c);
    }
  }

  /** The inductive step of SumOfProject for a last expense with key `c`. */
  lemma SumOfProjectKeyed<K>(es: seq<Expense>, key: Expense -> Option<K>, k: K, c: K)
    requires es != [] && key(es[|es| - 1]) == Some(c)
    requires SumOf(Project(es[..|es| - 1], key), k) == Total(WithKey(es[..|es| - 1], key, k))
    requires CountOf(Project(es[..|es| - 1], key), k) == |WithKey(es[..|es| - 1], key, k)|
    ensures SumOf(Project(es, key), k) == Total(WithKey(es, key, k))
    ensures CountOf(Project(es, key), k) == |WithKey(es, key, k)|
  {
    var init, last := es[..|es| - 1], es[|es| - 1];
    var p := Project(init, key);
    var w := WithKey(init, key, k);
    var rows := p + [Row(c, last.amount)];
    assert Project(es, key) == rows;
    assert rows[..|rows| - 1] == p;
    if c == k {
      assert WithKey(es, key, k) == w + [last];
      assert (w + [last])[..|w|] == w;
    } else {
      assert WithKey(es, key, k) == w;
    }
  }

  /** `SELECT key, SUM(amount), COUNT(*) ... WHERE key IS NOT NULL GROUP BY key`: one group per
      key some expense has, each carrying the total and the number of that key's expenses; the
      groups together carry every expense with a key. */
  lemma GroupedQuery<K(!new)>(es: seq<Expense>, key: Expense -> Option<K>)
    ensures NoDuplicates(GroupKeys(GroupBy(Project(es, key))))
    ensures forall k :: k in GroupKeys(GroupBy(Project(es, key))) <==> exists e :: e in es && key(e) == Some(k)
    ensures forall i :: 0 <= i < |GroupBy(Project(es, key))| ==>
      var gr := GroupBy(Project(es, key))[i];
      gr.total == Total(WithKey(es, key, gr.key)) && gr.count == |WithKey(es, key, gr.key)|
    ensures Sum(Totals(GroupBy(Project(es, key)))) == Total(Keyed(es, key))
    ensures Sum(Counts(GroupBy(Project(es, key)))) == |Keyed(es, key)|
  {
    var rows := Project(es, key);
    var g := GroupBy(rows);
    forall k
      ensures k in GroupKeys(g) <==> exists e :: e in es && key(e) == Some(k)
    {
      ProjectKeys(es, key, k);
    }
    forall i | 0 <= i < |g|
      ensures g[i].total == Total(WithKey(es, key, g[i].key)) && g[i].count == |WithKey(es, key, g[i].key)|
    {
      SumOfProject(es, key, g[i].key);
    }
    GroupByTotals(rows);
    ProjectKeyed(es, key);
  }

  // ---- keys of the grouped queries ----

  function MainCategoryOf(e: Expense): Option<string> { Some(e.mainCategory) }

  function DayOf(e: Expense): Option<int> { Some(e.date.day) }

  function PaymentMethodOf(e: Expense): Option<string> { e.paymentMethod }
}
