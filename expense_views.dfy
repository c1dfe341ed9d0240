/**
 * The expense pages: the filtered, newest-first listing with its total,
 * and the add, edit and delete actions on the store of expenses, each
 * gated on ownership and on the form and category checks.
 */
module ExpenseViews {
  import opened Wrappers
  import opened Calendar
  import opened Query
  import opened Expenses
  import opened Categories
  import opened ExpenseForms

  // ---- index ----

  /** The listing page: the expenses shown and the sum of their amounts. */
  datatype Listing = Listing(expenses: seq<Expense>, total: int)

  /** The listing's filters: the user's own expenses, restricted by year, month and main
      category only when the parameter is truthy (`if year:` ...), all conjunctively. */
  predicate Listed(e: Expense, userId: UserId, year: Option<int>, month: Option<int>, category: Option<string>) {
    && e.userId == userId
    && (TruthyInt(year) ==> e.date.year == year.value)
    && (TruthyInt(month) ==> e.date.month == month.value)
    && (TruthyString(category) ==> e.mainCategory == category.value)
  }

  /** The rows the listing's query selects, before ordering. */
  function Selected(es: seq<Expense>, userId: UserId, year: Option<int>, month: Option<int>, category: Option<string>): (r: seq<Expense>)
    ensures forall e :: e in r <==> e in es && Listed(e, userId, year, month, category)
  {
    Filter(es, (e: Expense) => Listed(e, userId, year, month, category))
  }

  /** `ORDER BY date DESC`. */
  function ByDate(e: Expense): int {
    DayNumber(e.date)
  }

  /** The listing: exactly the selected expenses, newest first, and the total of exactly
      those expenses. */
  function Index(es: seq<Expense>, userId: UserId, year: Option<int>, month: Option<int>, category: Option<string>): (r: Listing)
    ensures forall e :: e in r.expenses <==> e in es && Listed(e, userId, year, month, category)
    ensures forall e :: e in r.expenses ==> e.userId == userId
    ensures multiset(r.expenses) == multiset(Selected(es, userId, year, month, category))
    ensures SortedDesc(r.expenses, ByDate)
    ensures r.total == Total(r.expenses) == Total(Selected(es, userId, year, month, category))
  {
    var selected := Selected(es, userId, year, month, category);
    var listed := SortDesc(selected, ByDate);
    assert forall e :: e in listed <==> e in multiset(selected);
    TotalPermutation(listed, selected);
    Listing(listed, Total(listed))
  }

  /** Two sets of filter parameters that admit the same expenses select the same rows. */
  lemma {:induction false} SelectedAgree(es: seq<Expense>, userId: UserId,
                                         y1: Option<int>, m1: Option<int>, c1: Option<string>,
                                         y2: Option<int>, m2: Option<int>, c2: Option<string>)
    requires forall e :: Listed(e, userId, y1, m1, c1) == Listed(e, userId, y2, m2, c2)
    ensures Selected(es, userId, y1, m1, c1) == Selected(es, userId, y2, m2, c2)
  {
    if es != [] {
      SelectedAgree(es[..|es| - 1], userId, y1, m1, c1, y2, m2, c2);
    }
  }

  /** A year or month of 0 and an empty category filter nothing: the listing is the one
      without that parameter. */
  lemma FalsyFiltersIgnored(es: seq<Expense>, userId: UserId, year: Option<int>, month: Option<int>, category: Option<string>)
    ensures Index(es, userId, Some(0), month, category) == Index(es, userId, None, month, category)
    ensures Index(es, userId, year, Some(0), category) == Index(es, userId, year, None, category)
    ensures Index(es, userId, year, month, Some("")) == Index(es, userId, year, month, None)
  {
    SelectedAgree(es, userId, Some(0), month, category, None, month, category);
    SelectedAgree(es, userId, year, Some(0), category, year, None, category);
    SelectedAgree(es, userId, year, month, Some(""), year, month, None);
  }

  // ---- add / edit / delete ----

  /** `form.x.data or None`: an empty string is stored as NULL. */
  function OrNone(s: string): (r: Option<string>)
    ensures r != Some("")
    ensures s != "" ==> r == Some(s)
    ensures r.None? <==> s == ""
  {
    if s == "" then None else Some(s)
  }

  /** The expense `add` stores for a validated form. */
  function NewExpense(id: ExpenseId, userId: UserId, input: FormInput, now: Timestamp): (e: Expense)
    requires input.amount.Some? && input.date.Some?
    ensures e.id == id && e.userId == userId && e.createdAt == now && e.updatedAt == now
    ensures e.name == input.name && e.amount == input.amount.value
    ensures e.mainCategory == input.mainCategory && e.subcategory == input.subcategory
    ensures e.date == input.date.value
    ensures e.paymentMethod == OrNone(input.paymentMethod) && e.description == OrNone(input.description)
  {
    Expense(id, userId, input.name, input.amount.value, input.mainCategory, input.subcategory,
            input.date.value, OrNone(input.paymentMethod), OrNone(input.description), now, now)
  }

  /** `edit`'s field assignments: the seven form fields and `updated_at`, nothing else. */
  function Rewrite(e: Expense, input: FormInput, now: Timestamp): (r: Expense)
    requires input.amount.Some? && input.date.Some?
    ensures r.id == e.id && r.userId == e.userId && r.createdAt == e.createdAt
    ensures r.updatedAt == now
    ensures r.name == input.name && r.amount == input.amount.value
    ensures r.mainCategory == input.mainCategory && r.subcategory == input.subcategory
    ensures r.date == input.date.value
    ensures r.paymentMethod == OrNone(input.paymentMethod) && r.description == OrNone(input.description)
  {
    e.(name := input.name, amount := input.amount.value, mainCategory := input.mainCategory,
       subcategory := input.subcategory, date := input.date.value,
       paymentMethod := OrNone(input.paymentMethod), description := OrNone(input.description),
       updatedAt := now)
  }

  /** Editing stores what adding the same form would store, keeping the row's id, owner and
      creation time. */
  lemma RewriteAsNew(e: Expense, input: FormInput, now: Timestamp)
    requires input.amount.Some? && input.date.Some?
    ensures Rewrite(e, input, now) == NewExpense(e.id, e.userId, input, now).(createdAt := e.createdAt)
  {
  }

  /** `filter_by(id=..., user_id=...).first()`: the position of the first row with that id
      owned by that user. */
  function FindOwned(rows: seq<Expense>, id: ExpenseId, userId: UserId): (r: Option<nat>)
    ensures r.Some? ==> r.value < |rows| && rows[r.value].id == id && rows[r.value].userId == userId
    ensures r.None? <==> forall e :: e in rows ==> !(e.id == id && e.userId == userId)
  {
    if rows == [] then None
    else if rows[0].id == id && rows[0].userId == userId then Some(0)
    else
      var rest := FindOwned(rows[1..], id, userId);
      assert forall e :: e in rows ==> e == rows[0] || e in rows[1..];
      if rest.Some? then Some(rest.value + 1) else None
  }

  /** Ids are primary keys: no two rows share one. */
  predicate UniqueIds(rows: seq<Expense>) {
    forall i, j :: 0 <= i < j < |rows| ==> rows[i].id != rows[j].id
  }

  /** Removing the row at `i` keeps the ids unique and removes exactly the rows with its id. */
  lemma RemoveAt(rows: seq<Expense>, i: nat)
    requires UniqueIds(rows) && i < |rows|
    ensures UniqueIds(rows[..i] + rows[i + 1..])
    ensures forall e :: e in rows[..i] + rows[i + 1..] <==> e in rows && e.id != rows[i].id
  {
    var r := rows[..i] + rows[i + 1..];
    assert forall k :: 0 <= k < |r| ==> r[k] == if k < i then rows[k] else rows[k + 1];
    forall e | e in rows && e.id != rows[i].id
      ensures e in r
    {
      var k :| 0 <= k < |rows| && rows[k] == e;
      if k < i {
        assert r[k] == e;
      } else {
        assert r[k - 1] == e;
      }
    }
  }

  /** Replacing the row at `i` by one with the same id keeps the ids unique and changes only
      the row with that id. */
  lemma ReplaceAt(rows: seq<Expense>, i: nat, e: Expense)
    requires UniqueIds(rows) && i < |rows| && e.id == rows[i].id
    ensures UniqueIds(rows[i := e])
    ensures forall k :: 0 <= k < |rows| ==> rows[i := e][k] == if rows[k].id == rows[i].id then e else rows[k]
  {
  }

  /** What an action did: saved, re-rendered the form, refused the category pair, 404, or
      rolled back a commit that raised. */
  datatype Outcome = Done | FormRejected | InvalidCategory | NotFound | CommitFailed

  /** The stored expenses of all users. */
  class ExpenseStore {
    var rows: seq<Expense>

    /** Ids are primary keys. */
    ghost predicate Valid()
      reads this
    {
      UniqueIds(rows)
    }

    constructor ()
      ensures rows == [] && Valid()
    {
      rows := [];
    }

    /** `add`: stores a new expense of `userId` only when the form validates and the category
        pair is valid and the commit succeeds; otherwise nothing changes, a failed commit being
        rolled back. `newId` is the fresh primary key the database assigns and `commits` says
        whether the database accepts the commit. */
    method Add(form: ExpenseForm, input: FormInput, userId: UserId, newId: ExpenseId, now: Timestamp, commits: bool)
      returns (outcome: Outcome)
      requires Valid()
      requires forall e :: e in rows ==> e.id != newId
      modifies this
      ensures Valid()
      ensures outcome == FormRejected <==> !form.ValidateOnSubmit(input)
      ensures outcome == Done <==>
        form.ValidateOnSubmit(input) && ValidateCategory(input.mainCategory, input.subcategory) && commits
      ensures outcome == CommitFailed <==>
        form.ValidateOnSubmit(input) && ValidateCategory(input.mainCategory, input.subcategory) && !commits
      ensures outcome != NotFound
      ensures outcome == Done ==> input.amount.Some? && input.date.Some? && rows == old(rows) + [NewExpense(newId, userId, input, now)]
      ensures outcome != Done ==> rows == old(rows)
    {
      if !form.ValidateOnSubmit(input) {
        return FormRejected;
      }
      if !ValidateCategory(input.mainCategory, input.subcategory) {
        return InvalidCategory;
      }
      if !commits {
        return CommitFailed;
      }
      var expense := NewExpense(newId, userId, input, now);
      rows := rows + [expense];
      outcome := Done;
    }

    /** `edit`: 404 unless the user owns an expense with that id; otherwise rewrites that one
        expense only when the form validates, the category pair is valid and the commit
        succeeds; a failed commit is rolled back. */
    method Edit(expenseId: ExpenseId, userId: UserId, form: ExpenseForm, input: FormInput, now: Timestamp, commits: bool)
      returns (outcome: Outcome)
      requires Valid()
      modifies this
      ensures Valid()
      ensures outcome == NotFound <==> FindOwned(old(rows), expenseId, userId).None?
      ensures outcome != NotFound ==> (outcome == FormRejected <==> !form.ValidateOnSubmit(input))
      ensures outcome == Done <==>
        FindOwned(old(rows), expenseId, userId).Some? && form.ValidateOnSubmit(input) &&
        ValidateCategory(input.mainCategory, input.subcategory) && commits
      ensures outcome == CommitFailed <==>
        FindOwned(old(rows), expenseId, userId).Some? && form.ValidateOnSubmit(input) &&
        ValidateCategory(input.mainCategory, input.subcategory) && !commits
      ensures outcome != Done ==> rows == old(rows)
      ensures outcome == Done ==>
        input.amount.Some? && input.date.Some? && |rows| == |old(rows)| &&
        forall k :: 0 <= k < |rows| ==>
          rows[k] == if old(rows)[k].id == expenseId then Rewrite(old(rows)[k], input, now) else old(rows)[k]
      ensures |rows| == |old(rows)|
      ensures forall k :: 0 <= k < |rows| && old(rows)[k].userId != userId ==> rows[k] == old(rows)[k]
    {
      var found := FindOwned(rows, expenseId, userId);
      if found.None? {
        return NotFound;
      }
      if !form.ValidateOnSubmit(input) {
        return FormRejected;
      }
      if !ValidateCategory(input.mainCategory, input.subcategory) {
        return InvalidCategory;
      }
      if !commits {
        return CommitFailed;
      }
      var i := found.value;
      ReplaceAt(rows, i, Rewrite(rows[i], input, now));
      rows := rows[i := Rewrite(rows[i], input, now)];
      outcome := Done;
    }

    /** `delete`: 404 unless the user owns an expense with that id; otherwise removes exactly
        that expense when the commit succeeds; a failed commit is rolled back. */
    method Delete(expenseId: ExpenseId, userId: UserId, commits: bool) returns (outcome: Outcome)
      requires Valid()
      modifies this
      ensures Valid()
      ensures outcome == Done || outcome == NotFound || outcome == CommitFailed
      ensures outcome == NotFound <==> FindOwned(old(rows), expenseId, userId).None?
      ensures outcome == CommitFailed <==> FindOwned(old(rows), expenseId, userId).Some? && !commits
      ensures outcome != Done ==> rows == old(rows)
      ensures outcome == Done ==>
        |rows| == |old(rows)| - 1 && forall e :: e in rows <==> e in old(rows) && e.id != expenseId
      ensures forall e :: e in old(rows) && e.userId != userId ==> e in rows
    {
      var found := FindOwned(rows, expenseId, userId);
      if found.None? {
        return NotFound;
      }
      if !commits {
        return CommitFailed;
      }
      var i := found.value;
      RemoveAt(rows, i);
      assert forall e :: e in rows && e.id == expenseId ==> e == rows[i];
      rows := rows[..i] + rows[i + 1..];
      outcome := Done;
    }
  }
}
