/**
 * The chart endpoints of the analytics blueprint, each over the user's
 * expenses: totals per main category of a month, the twelve-point monthly
 * trend, the category/subcategory tree, the zero-filled daily series, the
 * top five categories of a year, and totals and counts per payment method.
 *
 * The current user, the clock and the month/year query parameters are
 * explicit parameters; amounts stay integer cents where the source converts
 * them to floats.
 */
module Analytics {
  import opened Wrappers
  import opened Calendar
  import opened Query
  import opened Expenses

  /** The colours of the category chart: fifteen entries whatever the number of categories. */
  const CategoryPalette: seq<string> := [
    "#FF6384", "#36A2EB", "#FFCE56", "#4BC0C0", "#9966FF", "#FF9F40", "#FF6384", "#C9CBCF",
    "#4BC0C0", "#FF6384", "#36A2EB", "#FFCE56", "#FF9F40", "#9966FF", "#C9CBCF"]

  const TopPalette: seq<string> := ["#FF6384", "#36A2EB", "#FFCE56", "#4BC0C0", "#9966FF"]

  const PaymentPalette: seq<string> := ["#FF9F40", "#FF6384", "#C9CBCF", "#4BC0C0", "#36A2EB"]

  /** A chart with labels, one data point per label and a list of colours. */
  datatype Chart = Chart(labels: seq<string>, data: seq<int>, backgroundColor: seq<string>)

  // ---- expense_by_category ----

  /** Totals per main category of the user's expenses in one month. */
  function ExpenseByCategory(es: seq<Expense>, userId: UserId, month: int, year: int): (r: Chart)
    ensures |r.labels| == |r.data|
    ensures NoDuplicates(r.labels)
    ensures forall c :: c in r.labels <==>
      exists e :: e in es && e.userId == userId && e.date.month == month && e.date.year == year && e.mainCategory == c
    ensures forall i :: 0 <= i < |r.labels| ==>
      r.data[i] == Total(WithKey(InMonth(es, userId, month, year), MainCategoryOf, r.labels[i]))
    ensures Sum(r.data) == Total(InMonth(es, userId, month, year))
    ensures r.backgroundColor == CategoryPalette && |r.backgroundColor| == 15
  {
    var expenses := InMonth(es, userId, month, year);
    var g := GroupBy(Project(expenses, MainCategoryOf));
    GroupedQuery(expenses, MainCategoryOf);
    KeyedAll(expenses, MainCategoryOf);
    Chart(GroupKeys(g), Totals(g), CategoryPalette)
  }

  // ---- monthly_trend ----

  /** The (year, month) key the trend query groups by. */
  datatype MonthKey = MonthKey(year: int, month: int)

  function MonthOf(e: Expense): Option<MonthKey> {
    Some(MonthKey(e.date.year, e.date.month))
  }

  function MonthKeyOf(d: Date): MonthKey {
    MonthKey(d.year, d.month)
  }

  /** `end_date - timedelta(days=365)`: the same time of day, 365 days earlier. */
  function WindowStart(now: DateTime): DateTime {
    DateTime(SubtractDays(now.date, 365), now.timeOfDay)
  }

  /** `Expense.date >= start` with a date column and a timestamp: the date counts as its midnight. */
  predicate OnOrAfter(d: Date, start: DateTime) {
    DayNumber(d) > DayNumber(start.date) || (DayNumber(d) == DayNumber(start.date) && start.timeOfDay == 0)
  }

  /** The expenses the trend query groups: the user's, dated within the last 365 days. */
  function TrendExpenses(es: seq<Expense>, userId: UserId, now: DateTime): (r: seq<Expense>)
    ensures forall e :: e in r <==> e in es && e.userId == userId && OnOrAfter(e.date, WindowStart(now))
  {
    Filter(es, (e: Expense) => e.userId == userId && OnOrAfter(e.date, WindowStart(now)))
  }

  /** The date of step `i` of the trend: `end_date - timedelta(days=30 * i)`. */
  function StepBack(now: DateTime, i: nat): Date {
    SubtractDays(now.date, 30 * i)
  }

  /** An expense is in the trend window iff it is the user's and lies fewer than 365 days before
      today, or exactly 365 days before when the clock reads midnight. */
  lemma TrendWindow(es: seq<Expense>, userId: UserId, now: DateTime, e: Expense)
    ensures e in TrendExpenses(es, userId, now) <==>
      e in es && e.userId == userId &&
      (DayNumber(now.date) - DayNumber(e.date) < 365 ||
       (DayNumber(now.date) - DayNumber(e.date) == 365 && now.timeOfDay == 0))
  {
    SubtractDaysNumber(now.date, 365);
  }

  /** The twelve points run oldest to newest, 30 days apart. */
  lemma TrendSteps(now: DateTime, j: nat, k: nat)
    requires j < k < 12
    ensures DayNumber(StepBack(now, 11 - k)) - DayNumber(StepBack(now, 11 - j)) == 30 * (k - j)
  {
    SubtractDaysNumber(now.date, 30 * (11 - k));
    SubtractDaysNumber(now.date, 30 * (11 - j));
  }

  /** With the clock on 31 March 2024 the first two steps both fall in March 2024, so the last
      two points of the trend carry the same label (and so the same total). */
  lemma TrendRepeatsMonth(t: TimeOfDay)
    ensures MonthKeyOf(StepBack(DateTime(DateParts(2024, 3, 31), t), 1)) == MonthKey(2024, 3)
    ensures MonthKeyOf(StepBack(DateTime(DateParts(2024, 3, 31), t), 0)) == MonthKey(2024, 3)
  {
    SubtractWithinMonth(DateParts(2024, 3, 31), 30);
  }

  /** With the clock on 1 March 2024 no step falls in February 2024: the trend has no point
      for that month although it lies inside the window. */
  lemma TrendSkipsMonth(t: TimeOfDay)
    ensures forall i :: 0 <= i < 12 ==> MonthKeyOf(StepBack(DateTime(DateParts(2024, 3, 1), t), i)) != MonthKey(2024, 2)
  {
    var now := DateTime(DateParts(2024, 3, 1), t);
    assert DayNumber(now.date) == DaysBeforeYear(2024) + 61;
    forall i | 0 <= i < 12
      ensures MonthKeyOf(StepBack(now, i)) != MonthKey(2024, 2)
    {
      SubtractDaysNumber(now.date, 30 * i);
      var d := StepBack(now, i);
      if i > 0 && d.year == 2024 {
        assert DaysBeforeMonth(2024, d.month) <= 30;
        assert d.month == 1;
      }
    }
  }

  /** A month's grouped total is the total of the window's expenses in that month. */
  lemma TrendTotals(es: seq<Expense>, userId: UserId, now: DateTime, labels: seq<MonthKey>, data: seq<int>)
    requires |labels| == |data|
    requires forall k :: 0 <= k < |data| ==>
      data[k] == Lookup(GroupBy(Project(TrendExpenses(es, userId, now), MonthOf)), labels[k])
    ensures forall k :: 0 <= k < |data| ==> data[k] == Total(WithKey(TrendExpenses(es, userId, now), MonthOf, labels[k]))
  {
    var trend := TrendExpenses(es, userId, now);
    forall k | 0 <= k < |data|
      ensures data[k] == Total(WithKey(trend, MonthOf, labels[k]))
    {
      LookupGroupBy(Project(trend, MonthOf), labels[k]);
      SumOfProject(trend, MonthOf, labels[k]);
    }
  }

  /** The inner scan of the trend loop: `total = 0`, then the first query row with the month's
      key sets it and breaks. */
  method ScanTotal(expenses: seq<Group<MonthKey>>, key: MonthKey) returns (total: int)
    ensures total == Lookup(expenses, key)
  {
    total := 0;
    var j := 0;
    while j < |expenses|
      invariant 0 <= j <= |expenses|
      invariant total == 0
      invariant Lookup(expenses, key) == Lookup(expenses[j..], key)
    {
      if expenses[j].key == key {
        total := expenses[j].total;
        break;
      }
      assert expenses[j..][1..] == expenses[j + 1..];
      j := j + 1;
    }
  }

  /** The loop over the twelve steps: position `k` is labelled with the month `30 * (11 - k)`
      days before now and carries that month's grouped total, 0 when the query has no row for it. */
  method TrendPoints(expenses: seq<Group<MonthKey>>, now: DateTime) returns (labels: seq<MonthKey>, data: seq<int>)
    ensures |labels| == 12 && |data| == 12
    ensures forall k :: 0 <= k < 12 ==> labels[k] == MonthKeyOf(StepBack(now, 11 - k))
    ensures forall k :: 0 <= k < 12 ==> data[k] == Lookup(expenses, labels[k])
  {
    labels, data := [], [];
    for i := 0 to 12
      invariant |labels| == i && |data| == i
      invariant forall k :: 0 <= k < i ==> labels[k] == MonthKeyOf(StepBack(now, i - 1 - k))
      invariant forall k :: 0 <= k < i ==> data[k] == Lookup(expenses, labels[k])
    {
      var date := StepBack(now, i);
      var key := MonthKeyOf(date);
      ghost var before, beforeData := labels, data;
      labels := [key] + labels;
      var total := ScanTotal(expenses, key);
      data := [total] + data;
      forall k | 0 < k < i + 1
        ensures labels[k] == MonthKeyOf(StepBack(now, i - k)) && data[k] == Lookup(expenses, labels[k])
      {
        assert labels[k] == before[k - 1] && data[k] == beforeData[k - 1];
      }
    }
  }

  /** The twelve labels and totals of the trend: position `k` is the month of the date
      `30 * (11 - k)` days before now and the total of the window's expenses in that month. */
  method MonthlyTrend(es: seq<Expense>, userId: UserId, now: DateTime) returns (labels: seq<MonthKey>, data: seq<int>)
    ensures |labels| == 12 && |data| == 12
    ensures forall k :: 0 <= k < 12 ==> labels[k] == MonthKeyOf(StepBack(now, 11 - k))
    ensures forall k :: 0 <= k < 12 ==> data[k] == Total(WithKey(TrendExpenses(es, userId, now), MonthOf, labels[k]))
    ensures forall j, k :: 0 <= j < 12 && 0 <= k < 12 && labels[j] == labels[k] ==> data[j] == data[k]
  {
    var expenses := GroupBy(Project(TrendExpenses(es, userId, now), MonthOf));
    labels, data := TrendPoints(expenses, now);
    TrendTotals(es, userId, now, labels, data);
  }

  // ---- category_breakdown ----

  /** One entry of the two-level accumulator: a main category and its per-subcategory sums. */
  datatype Branch = Branch(main: string, subs: seq<Group<string>>)

  datatype Child = Child(name: string, value: int)

  /** A tree node: a main category, its subcategories and its total. */
  datatype Node = Node(name: string, children: seq<Child>, value: int)

  function BranchMains(t: seq<Branch>): seq<string> {
    seq(|t|, i requires 0 <= i < |t| => t[i].main)
  }

  function NodeNames(data: seq<Node>): seq<string> {
    seq(|data|, i requires 0 <= i < |data| => data[i].name)
  }

  function ChildNames(cs: seq<Child>): seq<string> {
    seq(|cs|, i requires 0 <= i < |cs| => cs[i].name)
  }

  function ChildValues(cs: seq<Child>): seq<int> {
    seq(|cs|, i requires 0 <= i < |cs| => cs[i].value)
  }

  /** The subcategory of an expense of main category `main`; NULL for the other expenses. */
  function SubcategoryIn(main: string): Expense -> Option<string> {
    (e: Expense) => if e.mainCategory == main then Some(e.subcategory) else None
  }

  /** `breakdown[main][x.key] += x.amount` on a dict of dicts that creates missing entries. */
  function Nest(t: seq<Branch>, main: string, x: Row<string>): seq<Branch> {
    if t == [] then [Branch(main, Add([], x))]
    else if t[0].main == main then [Branch(main, Add(t[0].subs, x))] + t[1..]
    else [t[0]] + Nest(t[1..], main, x)
  }

  lemma {:induction false} NestSpec(t: seq<Branch>, main: string, x: Row<string>)
    requires NoDuplicates(BranchMains(t))
    ensures main in BranchMains(t) ==> |Nest(t, main, x)| == |t|
    ensures main !in BranchMains(t) ==> |Nest(t, main, x)| == |t| + 1 && Nest(t, main, x)[|t|] == Branch(main, Add([], x))
    ensures forall i :: 0 <= i < |t| ==>
      Nest(t, main, x)[i] == if t[i].main == main then Branch(main, Add(t[i].subs, x)) else t[i]
  {
    if t != [] {
      var ms := BranchMains(t);
      var r := Nest(t, main, x);
      if t[0].main != main {
        var ms' := BranchMains(t[1..]);
        assert ms == [t[0].main] + ms';
        NoDuplicatesCons(t[0].main, ms');
        NestSpec(t[1..], main, x);
        var r' := Nest(t[1..], main, x);
        assert r == [t[0]] + r';
        forall i | 0 < i < |t|
          ensures r[i] == if t[i].main == main then Branch(main, Add(t[i].subs, x)) else t[i]
        {
          assert r[i] == r'[i - 1];
          assert t[i] == t[1..][i - 1];
        }
        if main !in ms {
          assert main !in ms';
          assert r[|t|] == r'[|t| - 1];
        }
      } else {
        assert ms[0] == main;
        forall i | 0 < i < |t|
          ensures t[i].main != main
        {
          assert ms[i] == t[i].main;
        }
      }
    }
  }

  lemma NestMains(t: seq<Branch>, main: string, x: Row<string>)
    requires NoDuplicates(BranchMains(t))
    ensures BranchMains(Nest(t, main, x)) == if main in BranchMains(t) then BranchMains(t) else BranchMains(t) + [main]
  {
    NestSpec(t, main, x);
  }

  /** The accumulator after a prefix of the expenses: one branch per main category seen, in order
      of first appearance, each holding the grouped subcategory sums of that category. */
  predicate Accumulated(t: seq<Branch>, expenses: seq<Expense>) {
    && BranchMains(t) == Distinct(RowKeys(Project(expenses, MainCategoryOf)))
    && forall k :: 0 <= k < |t| ==> t[k].subs == GroupBy(Project(expenses, SubcategoryIn(t[k].main)))
  }

  /** No expense of category `main` means no subcategory rows for it. */
  lemma NoSubRows(es: seq<Expense>, main: string)
    requires forall e :: e in es ==> e.mainCategory != main
    ensures Project(es, SubcategoryIn(main)) == []
  {
    ProjectKeyed(es, SubcategoryIn(main));
    var k := Keyed(es, SubcategoryIn(main));
    assert forall i :: 0 <= i < |k| ==> k[i] in k;
  }

  /** Reading one more expense adds its sub-row to its own category's rows and nothing else. */
  lemma SubRowsSnoc(expenses: seq<Expense>, e: Expense, m: string)
    ensures Project(expenses + [e], SubcategoryIn(m)) ==
      Project(expenses, SubcategoryIn(m)) + (if e.mainCategory == m then [Row(e.subcategory, e.amount)] else [])
  {
    var es' := expenses + [e];
    assert es'[..|es'| - 1] == expenses;
    assert SubcategoryIn(m)(e) == if e.mainCategory == m then Some(e.subcategory) else None;
  }

  /** One branch after a step of the accumulation loop. */
  lemma BranchStep(t: seq<Branch>, expenses: seq<Expense>, e: Expense, k: int)
    requires Accumulated(t, expenses)
    requires 0 <= k < |Nest(t, e.mainCategory, Row(e.subcategory, e.amount))|
    ensures Nest(t, e.mainCategory, Row(e.subcategory, e.amount))[k].subs ==
      GroupBy(Project(expenses + [e], SubcategoryIn(Nest(t, e.mainCategory, Row(e.subcategory, e.amount))[k].main)))
  {
    var x := Row(e.subcategory, e.amount);
    var t' := Nest(t, e.mainCategory, x);
    NestSpec(t, e.mainCategory, x);
    var m := t'[k].main;
    var p := Project(expenses, SubcategoryIn(m));
    SubRowsSnoc(expenses, e, m);
    if k == |t| {
      assert e.mainCategory !in BranchMains(t);
      assert t'[k] == Branch(e.mainCategory, Add([], x));
      assert e.mainCategory !in RowKeys(Project(expenses, MainCategoryOf));
      ProjectKeys(expenses, MainCategoryOf, m);
      NoSubRows(expenses, m);
      assert p + [x] == [] + [x];
      GroupBySnoc([], x);
    } else if t[k].main == e.mainCategory {
      assert t'[k] == Branch(m, Add(t[k].subs, x));
      assert t[k].subs == GroupBy(p);
      GroupBySnoc(p, x);
    } else {
      assert t'[k] == t[k];
      assert p + [] == p;
    }
  }

  /** After a step of the accumulation loop the branches still follow the main categories read. */
  lemma MainsStep(t: seq<Branch>, expenses: seq<Expense>, e: Expense)
    requires Accumulated(t, expenses)
    ensures BranchMains(Nest(t, e.mainCategory, Row(e.subcategory, e.amount))) ==
      Distinct(RowKeys(Project(expenses + [e], MainCategoryOf)))
  {
    var es' := expenses + [e];
    assert es'[..|es'| - 1] == expenses;
    var mains := Project(expenses, MainCategoryOf);
    assert Project(es', MainCategoryOf) == mains + [Row(e.mainCategory, e.amount)];
    assert RowKeys(mains + [Row(e.mainCategory, e.amount)]) == RowKeys(mains) + [e.mainCategory];
    DistinctSnoc(RowKeys(mains), e.mainCategory);
    NestMains(t, e.mainCategory, Row(e.subcategory, e.amount));
  }

  /** One step of the accumulation loop keeps the accumulator in step with the expenses read. */
  lemma NestStep(t: seq<Branch>, expenses: seq<Expense>, e: Expense)
    requires Accumulated(t, expenses)
    ensures Accumulated(Nest(t, e.mainCategory, Row(e.subcategory, e.amount)), expenses + [e])
  {
    var t' := Nest(t, e.mainCategory, Row(e.subcategory, e.amount));
    MainsStep(t, expenses, e);
    forall k | 0 <= k < |t'|
      ensures t'[k].subs == GroupBy(Project(expenses + [e], SubcategoryIn(t'[k].main)))
    {
      BranchStep(t, expenses, e, k);
    }
  }

  /** The children of one node: `[{"name": sub, "value": amt} for sub, amt in subcats.items()]`. */
  function ChildrenOf(subs: seq<Group<string>>): (cs: seq<Child>)
    ensures ChildNames(cs) == GroupKeys(subs) && ChildValues(cs) == Totals(subs)
  {
    seq(|subs|, i requires 0 <= i < |subs| => Child(subs[i].key, subs[i].total))
  }

  /** The sub-rows of `main` carry, in total, what the category rows of `main` sum to. */
  lemma {:induction false} SubRowsTotal(es: seq<Expense>, main: string)
    ensures TotalOf(Project(es, SubcategoryIn(main))) == SumOf(Project(es, MainCategoryOf), main)
  {
    if es != [] {
      var init, last := es[..|es| - 1], es[|es| - 1];
      SubRowsTotal(init, main);
      var a, b := Project(init, SubcategoryIn(main)), Project(init, MainCategoryOf);
      var mainRow := Row(last.mainCategory, last.amount);
      assert Project(es, MainCategoryOf) == b + [mainRow];
      assert (b + [mainRow])[..|b|] == b;
      assert SubcategoryIn(main)(last) == if last.mainCategory == main then Some(last.subcategory) else None;
      if last.mainCategory == main {
        var subRow := Row(last.subcategory, last.amount);
        assert Project(es, SubcategoryIn(main)) == a + [subRow];
        assert (a + [subRow])[..|a|] == a;
      } else {
        assert Project(es, SubcategoryIn(main)) == a;
      }
    }
  }

  /** The total of the expenses that carry a subcategory under `main` is the total of `main`. */
  lemma CategoryTotal(es: seq<Expense>, main: string)
    ensures Total(Keyed(es, SubcategoryIn(main))) == Total(WithKey(es, MainCategoryOf, main))
  {
    ProjectKeyed(es, SubcategoryIn(main));
    SumOfProject(es, MainCategoryOf, main);
    SubRowsTotal(es, main);
  }

  /** A node as the second loop builds it from one branch of the accumulator. */
  function NodeOf(b: Branch): (r: Node)
    ensures r.name == b.main
    ensures ChildNames(r.children) == GroupKeys(b.subs) && ChildValues(r.children) == Totals(b.subs)
    ensures r.value == Sum(Totals(b.subs))
  {
    var children := ChildrenOf(b.subs);
    Node(b.main, children, Sum(ChildValues(children)))
  }

  /** What one node of the tree holds, stated against the month's expenses. */
  ghost predicate NodeFits(n: Node, expenses: seq<Expense>) {
    && NoDuplicates(ChildNames(n.children))
    && (forall s :: s in ChildNames(n.children) <==>
          exists e :: e in expenses && e.mainCategory == n.name && e.subcategory == s)
    && (forall j :: 0 <= j < |n.children| ==>
          n.children[j].value == Total(WithKey(expenses, SubcategoryIn(n.name), n.children[j].name)))
    && n.value == Sum(ChildValues(n.children))
    && n.value == Total(WithKey(expenses, MainCategoryOf, n.name))
  }

  lemma BranchFits(b: Branch, expenses: seq<Expense>)
    requires b.subs == GroupBy(Project(expenses, SubcategoryIn(b.main)))
    ensures NodeFits(NodeOf(b), expenses)
  {
    var key := SubcategoryIn(b.main);
    GroupedQuery(expenses, key);
    CategoryTotal(expenses, b.main);
    var n := NodeOf(b);
    forall s
      ensures s in ChildNames(n.children) <==> exists e :: e in expenses && e.mainCategory == n.name && e.subcategory == s
    {
      if s in ChildNames(n.children) {
        var e :| e in expenses && key(e) == Some(s);
      }
      if exists e :: e in expenses && e.mainCategory == n.name && e.subcategory == s {
        var e :| e in expenses && e.mainCategory == n.name && e.subcategory == s;
        assert key(e) == Some(s);
      }
    }
  }

  /** The accumulation loop: `for expense in expenses: breakdown[main][sub] += amount`. */
  method Accumulate(expenses: seq<Expense>) returns (breakdown: seq<Branch>)
    ensures Accumulated(breakdown, expenses)
  {
    breakdown := [];
    for i := 0 to |expenses|
      invariant Accumulated(breakdown, expenses[..i])
    {
      NestStep(breakdown, expenses[..i], expenses[i]);
      assert expenses[..i] + [expenses[i]] == expenses[..i + 1];
      breakdown := Nest(breakdown, expenses[i].mainCategory, Row(expenses[i].subcategory, expenses[i].amount));
    }
    assert expenses[..|expenses|] == expenses;
  }

  /** The formatting loop: one node per branch, in the accumulator's order. */
  method Nodes(breakdown: seq<Branch>) returns (data: seq<Node>)
    ensures |data| == |breakdown|
    ensures forall j :: 0 <= j < |data| ==> data[j] == NodeOf(breakdown[j])
  {
    data := [];
    for k := 0 to |breakdown|
      invariant |data| == k
      invariant forall j :: 0 <= j < k ==> data[j] == NodeOf(breakdown[j])
    {
      var children := ChildrenOf(breakdown[k].subs);
      data := data + [Node(breakdown[k].main, children, Sum(ChildValues(children)))];
    }
  }

  /** The category/subcategory tree of the user's expenses in one month: one node per main
      category present, one child per subcategory present under it, each child the total of
      its (main, sub) pair and each node the sum of its children and the total of its category. */
  method CategoryBreakdown(es: seq<Expense>, userId: UserId, month: int, year: int) returns (data: seq<Node>)
    ensures NoDuplicates(NodeNames(data))
    ensures forall m :: m in NodeNames(data) <==>
      exists e :: e in es && e.userId == userId && e.date.month == month && e.date.year == year && e.mainCategory == m
    ensures forall i :: 0 <= i < |data| ==> NodeFits(data[i], InMonth(es, userId, month, year))
  {
    var expenses := InMonth(es, userId, month, year);
    var breakdown := Accumulate(expenses);
    data := Nodes(breakdown);
    assert NodeNames(data) == BranchMains(breakdown);
    forall m
      ensures m in NodeNames(data) <==> exists e :: e in expenses && MainCategoryOf(e) == Some(m)
    {
      ProjectKeys(expenses, MainCategoryOf, m);
    }
    forall i | 0 <= i < |data|
      ensures NodeFits(data[i], expenses)
    {
      BranchFits(breakdown[i], expenses);
    }
  }

  // ---- daily_spending ----

  /** The daily series of a month, or the error `calendar.monthrange` raises for a month outside 1..12. */
  datatype DailySeries = Daily(labels: seq<int>, data: seq<int>) | IllegalMonth

  /** Every day key of the month's grouped query is a day of that month, and the keys are distinct. */
  lemma DayKeys(matching: seq<Expense>, es: seq<Expense>, userId: UserId, month: int, year: int)
    requires 1 <= month <= 12
    requires matching == InMonth(es, userId, month, year)
    ensures NoDuplicates(GroupKeys(GroupBy(Project(matching, DayOf))))
    ensures forall i :: 0 <= i < |GroupBy(Project(matching, DayOf))| ==>
      1 <= GroupBy(Project(matching, DayOf))[i].key <= DaysInMonth(year, month)
  {
    var rows := Project(matching, DayOf);
    var g := GroupBy(rows);
    forall i | 0 <= i < |g|
      ensures 1 <= g[i].key <= DaysInMonth(year, month)
    {
      var day := g[i].key;
      assert day == GroupKeys(g)[i];
      assert day in RowKeys(rows);
      ProjectKeys(matching, DayOf, day);
      var e :| e in matching && DayOf(e) == Some(day);
      assert ValidDate(e.date) && e.date.month == month && e.date.year == year;
    }
  }

  /** `daily_data = [0] * n` and `daily_data[expense.day - 1] = expense.total` for each row. */
  method Fill(expenses: seq<Group<int>>, n: nat) returns (dailyData: array<int>)
    requires NoDuplicates(GroupKeys(expenses))
    requires forall i :: 0 <= i < |expenses| ==> 1 <= expenses[i].key <= n
    ensures fresh(dailyData) && dailyData.Length == n
    ensures forall i :: 0 <= i < n ==> dailyData[i] == Lookup(expenses, i + 1)
  {
    dailyData := new int[n](_ => 0);
    for j := 0 to |expenses|
      invariant forall d :: 1 <= d <= n ==> dailyData[d - 1] == Lookup(expenses[..j], d)
    {
      var gr := expenses[j];
      assert GroupKeys(expenses[..j]) == GroupKeys(expenses)[..j];
      assert gr.key == GroupKeys(expenses)[j];
      assert gr.key !in GroupKeys(expenses[..j]);
      assert expenses[..j + 1] == expenses[..j] + [gr];
      assert 1 <= gr.key <= n;
      ghost var before := dailyData[..];
      assert forall d :: 1 <= d <= n ==> before[d - 1] == Lookup(expenses[..j], d);
      dailyData[gr.key - 1] := gr.total;
      ghost var next := expenses[..j + 1];
      forall d | 1 <= d <= n
        ensures dailyData[d - 1] == Lookup(next, d)
      {
        LookupSnoc(expenses[..j], gr, d);
        if d != gr.key {
          assert dailyData[d - 1] == before[d - 1];
        }
      }
    }
    assert expenses[..|expenses|] == expenses;
    forall i | 0 <= i < n
      ensures dailyData[i] == Lookup(expenses, i + 1)
    {
      assert dailyData[(i + 1) - 1] == Lookup(expenses, i + 1);
    }
  }

  /** A series holding each day's grouped total (0 for a day without a row) carries, per day,
      the total of that day's expenses, and all of them together. */
  lemma DailyTotals(es: seq<Expense>, userId: UserId, month: int, year: int, data: seq<int>)
    requires 1 <= month <= 12
    requires |data| == DaysInMonth(year, month)
    requires forall i :: 0 <= i < |data| ==> data[i] == Lookup(GroupBy(Project(InMonth(es, userId, month, year), DayOf)), i + 1)
    ensures forall i :: 0 <= i < |data| ==> data[i] == Total(WithKey(InMonth(es, userId, month, year), DayOf, i + 1))
    ensures forall i :: 0 <= i < |data| && (forall e :: e in InMonth(es, userId, month, year) ==> e.date.day != i + 1) ==>
      data[i] == 0
    ensures Sum(data) == Total(InMonth(es, userId, month, year))
  {
    var matching := InMonth(es, userId, month, year);
    var rows := Project(matching, DayOf);
    var expenses := GroupBy(rows);
    DayKeys(matching, es, userId, month, year);
    forall i | 0 <= i < |data|
      ensures data[i] == Total(WithKey(matching, DayOf, i + 1))
    {
      LookupGroupBy(rows, i + 1);
      SumOfProject(matching, DayOf, i + 1);
    }
    forall i | 0 <= i < |data| && (forall e :: e in matching ==> e.date.day != i + 1)
      ensures data[i] == 0
    {
      var w := WithKey(matching, DayOf, i + 1);
      assert forall k :: 0 <= k < |w| ==> w[k] in w;
    }
    forall d | 1 <= d <= |data|
      ensures data[d - 1] == Lookup(expenses, d)
    {
    }
    FilledSum(data, expenses);
    GroupedQuery(matching, DayOf);
    KeyedAll(matching, DayOf);
  }

  /** The user's spending per day of one month: one entry per day of the month, labelled
      1..n, entry `i` holding the total of day `i + 1` (0 for a day without expenses). */
  method DailySpending(es: seq<Expense>, userId: UserId, month: int, year: int) returns (r: DailySeries)
    ensures r.IllegalMonth? <==> !(1 <= month <= 12)
    ensures r.Daily? ==>
      |r.labels| == |r.data| == DaysInMonth(year, month) &&
      (forall i :: 0 <= i < |r.data| ==>
         r.labels[i] == i + 1 && r.data[i] == Total(WithKey(InMonth(es, userId, month, year), DayOf, i + 1))) &&
      (forall i :: 0 <= i < |r.data| && (forall e :: e in InMonth(es, userId, month, year) ==> e.date.day != i + 1) ==>
         r.data[i] == 0) &&
      Sum(r.data) == Total(InMonth(es, userId, month, year))
  {
    if !(1 <= month <= 12) {
      return IllegalMonth;
    }
    var matching := InMonth(es, userId, month, year);
    var expenses := GroupBy(Project(matching, DayOf));
    var n := DaysInMonth(year, month);
    DayKeys(matching, es, userId, month, year);
    var dailyData := Fill(expenses, n);
    var labels := seq(n, i requires 0 <= i < n => i + 1);
    DailyTotals(es, userId, month, year, dailyData[..]);
    r := Daily(labels, dailyData[..]);
  }

  // ---- top_categories ----

  function GroupTotal(gr: Group<string>): int {
    gr.total
  }

  /** The groups of the year's categories in descending order of total (`ORDER BY SUM DESC`). */
  function RankedCategories(expenses: seq<Expense>): seq<Group<string>> {
    SortDesc(GroupBy(Project(expenses, MainCategoryOf)), GroupTotal)
  }

  /** The ranked groups have distinct keys, one per category of the expenses, and each carries
      its category's total. */
  lemma RankedSpec(expenses: seq<Expense>)
    ensures NoDuplicates(GroupKeys(RankedCategories(expenses)))
    ensures SortedDesc(RankedCategories(expenses), GroupTotal)
    ensures forall c :: c in GroupKeys(RankedCategories(expenses)) <==> exists e :: e in expenses && e.mainCategory == c
    ensures forall i :: 0 <= i < |RankedCategories(expenses)| ==>
      RankedCategories(expenses)[i].total == Total(WithKey(expenses, MainCategoryOf, RankedCategories(expenses)[i].key))
  {
    var g := GroupBy(Project(expenses, MainCategoryOf));
    var sorted := RankedCategories(expenses);
    GroupedQuery(expenses, MainCategoryOf);
    SortDescKeys(g, GroupTotal);
    forall c
      ensures c in GroupKeys(sorted) <==> exists e :: e in expenses && e.mainCategory == c
    {
      if c in GroupKeys(g) {
        var e :| e in expenses && MainCategoryOf(e) == Some(c);
      }
      if exists e :: e in expenses && e.mainCategory == c {
        var e :| e in expenses && e.mainCategory == c;
        assert MainCategoryOf(e) == Some(c);
      }
    }
    forall i | 0 <= i < |sorted|
      ensures sorted[i].total == Total(WithKey(expenses, MainCategoryOf, sorted[i].key))
    {
      assert sorted[i] in multiset(sorted);
      var q :| 0 <= q < |g| && g[q] == sorted[i];
    }
  }

  /** The chart `top_categories` returns: the first five ranked groups of the year. */
  function TopChart(expenses: seq<Expense>): (r: Chart)
    ensures |r.labels| == |r.data| == (if |RankedCategories(expenses)| < 5 then |RankedCategories(expenses)| else 5)
    ensures forall i :: 0 <= i < |r.labels| ==>
      r.labels[i] == RankedCategories(expenses)[i].key && r.data[i] == RankedCategories(expenses)[i].total
    ensures r.backgroundColor == TopPalette
  {
    var sorted := RankedCategories(expenses);
    var top := sorted[..if |sorted| < 5 then |sorted| else 5];
    Chart(GroupKeys(top), Totals(top), TopPalette)
  }

  /** The five categories of the year with the largest totals, largest first: each label is a
      category of the year's expenses with its total, and a category left out spends no more
      than any listed one (and is only left out when five are listed). */
  function TopCategories(es: seq<Expense>, userId: UserId, year: int): (r: Chart)
    ensures |r.labels| == |r.data| <= 5
    ensures NoDuplicates(r.labels)
    ensures forall i, j :: 0 <= i < j < |r.data| ==> r.data[i] >= r.data[j]
    ensures forall i :: 0 <= i < |r.labels| ==>
      (exists e :: e in InYear(es, userId, year) && e.mainCategory == r.labels[i]) &&
      r.data[i] == Total(WithKey(InYear(es, userId, year), MainCategoryOf, r.labels[i]))
    ensures forall e :: e in InYear(es, userId, year) && e.mainCategory !in r.labels ==>
      |r.labels| == 5 &&
      forall i :: 0 <= i < 5 ==> r.data[i] >= Total(WithKey(InYear(es, userId, year), MainCategoryOf, e.mainCategory))
    ensures r.backgroundColor == TopPalette
  {
    TopSpec(InYear(es, userId, year));
    TopChart(InYear(es, userId, year))
  }

  /** The listed categories are distinct categories of the expenses, largest first, each with its total. */
  lemma TopListed(expenses: seq<Expense>)
    ensures var r := TopChart(expenses);
      && NoDuplicates(r.labels)
      && (forall i, j :: 0 <= i < j < |r.data| ==> r.data[i] >= r.data[j])
      && (forall i :: 0 <= i < |r.labels| ==>
            (exists e :: e in expenses && e.mainCategory == r.labels[i]) &&
            r.data[i] == Total(WithKey(expenses, MainCategoryOf, r.labels[i])))
  {
    var sorted := RankedCategories(expenses);
    var r := TopChart(expenses);
    RankedSpec(expenses);
    forall i, j | 0 <= i < j < |r.labels|
      ensures r.labels[i] != r.labels[j]
    {
      assert GroupKeys(sorted)[i] == sorted[i].key && GroupKeys(sorted)[j] == sorted[j].key;
    }
    forall i | 0 <= i < |r.labels|
      ensures exists e :: e in expenses && e.mainCategory == r.labels[i]
    {
      assert r.labels[i] == GroupKeys(sorted)[i];
      assert r.labels[i] in GroupKeys(sorted);
    }
  }

  /** A category of the expenses that is not listed is only left out when five are listed, and
      spends no more than any of them. */
  lemma TopExcluded(expenses: seq<Expense>, e: Expense)
    requires e in expenses && e.mainCategory !in TopChart(expenses).labels
    ensures |TopChart(expenses).labels| == 5
    ensures forall i :: 0 <= i < 5 ==>
      TopChart(expenses).data[i] >= Total(WithKey(expenses, MainCategoryOf, e.mainCategory))
  {
    var sorted := RankedCategories(expenses);
    var r := TopChart(expenses);
    RankedSpec(expenses);
    var n := |r.labels|;
    var c := e.mainCategory;
    assert c in GroupKeys(sorted);
    var p :| 0 <= p < |sorted| && GroupKeys(sorted)[p] == c;
    assert forall q :: 0 <= q < n ==> r.labels[q] == GroupKeys(sorted)[q];
    assert p >= n;
    assert sorted[p].total == Total(WithKey(expenses, MainCategoryOf, c));
  }

  lemma TopSpec(expenses: seq<Expense>)
    ensures var r := TopChart(expenses);
      && |r.labels| == |r.data| <= 5
      && NoDuplicates(r.labels)
      && (forall i, j :: 0 <= i < j < |r.data| ==> r.data[i] >= r.data[j])
      && (forall i :: 0 <= i < |r.labels| ==>
            (exists e :: e in expenses && e.mainCategory == r.labels[i]) &&
            r.data[i] == Total(WithKey(expenses, MainCategoryOf, r.labels[i])))
      && (forall e :: e in expenses && e.mainCategory !in r.labels ==>
            |r.labels| == 5 &&
            forall i :: 0 <= i < 5 ==> r.data[i] >= Total(WithKey(expenses, MainCategoryOf, e.mainCategory)))
      && r.backgroundColor == TopPalette
  {
    TopListed(expenses);
    forall e | e in expenses && e.mainCategory !in TopChart(expenses).labels
      ensures |TopChart(expenses).labels| == 5
      ensures forall i :: 0 <= i < 5 ==> TopChart(expenses).data[i] >= Total(WithKey(expenses, MainCategoryOf, e.mainCategory))
    {
      TopExcluded(expenses, e);
    }
  }

  // ---- payment_methods ----

  /** The payment-method chart: labels, totals, colours and the number of expenses per label. */
  datatype PaymentChart = PaymentChart(labels: seq<string>, data: seq<int>, backgroundColor: seq<string>, counts: seq<int>)

  /** Totals and counts per payment method of the user's expenses in one month; expenses
      without a payment method are left out. */
  function PaymentMethods(es: seq<Expense>, userId: UserId, month: int, year: int): (r: PaymentChart)
    ensures |r.labels| == |r.data| == |r.counts|
    ensures NoDuplicates(r.labels)
    ensures forall p :: p in r.labels <==>
      exists e :: e in es && e.userId == userId && e.date.month == month && e.date.year == year && e.paymentMethod == Some(p)
    ensures forall i :: 0 <= i < |r.labels| ==>
      var paid := WithKey(InMonth(es, userId, month, year), PaymentMethodOf, r.labels[i]);
      r.data[i] == Total(paid) && r.counts[i] == |paid|
    ensures Sum(r.counts) == |Keyed(InMonth(es, userId, month, year), PaymentMethodOf)|
    ensures Sum(r.data) == Total(Keyed(InMonth(es, userId, month, year), PaymentMethodOf))
    ensures r.backgroundColor == PaymentPalette
  {
    var expenses := InMonth(es, userId, month, year);
    var g := GroupBy(Project(expenses, PaymentMethodOf));
    GroupedQuery(expenses, PaymentMethodOf);
    PaymentChart(GroupKeys(g), Totals(g), PaymentPalette, Counts(g))
  }
}
