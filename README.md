# Expense aggregation, taxonomy and expense pages, in Dafny

A model of the core of a personal-finance expense tracker (a Flask application). It covers:

- **Analytics endpoints.** Six endpoints turn one user's flat expense records into chart-ready shapes:
  - totals per main category for a month;
  - a twelve-point trend built by stepping back from "now" in fixed 30-day jumps;
  - a main-category → subcategory tree whose node values are the sums of their children;
  - a zero-filled daily series for one month;
  - the five largest categories of a year;
  - a total and a count per payment method.
- **Category taxonomy.** A fixed table of 15 main categories, each with an ordered list of subcategories, plus its lookup, flatten and validate helpers.
- **Expense pages.** The filtered, newest-first listing with its total, and the add, edit and delete actions. Each action is gated on ownership, on the form checks and on the category check.
- **Expense form.** Its choice lists, its field bounds, and what `validate_on_submit` accepts.
- **Application configuration.** The `DATABASE_URL` scheme rewrite, the `SECRET_KEY` fallback, and the dashboard's total, count and average.

Modelling choices:

- Amounts are whole cents (`int`).
- Dates are a subset type of `(year, month, day)` that only admits real Gregorian days. `DayNumber` is Python's `toordinal`, and `SubtractDays` steps back one day at a time.
- SQL `GROUP BY` with `SUM` and `COUNT` is `Query.GroupBy`. It is hash aggregation: each group sits where its key is first seen. It is proved against independent reference definitions:
  - `Expenses.WithKey` (the expenses with one key) and `Expenses.Total`;
  - `Expenses.Keyed` (the expenses whose key is not NULL).
- `ORDER BY … DESC` is an insertion sort, `Query.SortDesc`.
- The user, `now`, the month and the year are explicit parameters.

The Python loops are imperative methods with loop invariants:

- the trend's front insertion (`Analytics.TrendPoints`) and its first-match scan with `break` (`Analytics.ScanTotal`);
- the nested-dictionary accumulation of the breakdown (`Analytics.Accumulate`) and its second loop (`Analytics.Nodes`);
- the in-place fill of the daily array (`Analytics.Fill`);
- the flattening loop of the taxonomy (`Categories.AllSubcategoriesFlat`).

The form is a class whose constructor assigns the three choice lists. The expense store is a class whose `Add`, `Edit` and `Delete` methods update its rows.

Four consequences of the code are proved:

- **The trend repeats and skips months.** With the clock on 31 March 2024, the last two points are both March 2024 (`TrendRepeatsMonth`). With the clock on 1 March 2024, no point is February 2024 (`TrendSkipsMonth`). This is what the code does.
- **The explicit category check in `add` and `edit` never fires.** The form is built from the submitted main category. Each select field checks that its value is one of its choices, which `validate_on_submit` already does. So a form that validates always has a valid (main, sub) pair (`AcceptsIffValid`), and the explicit `validate_category` gate never rejects anything.
- **Whitespace-only optional fields pass.** `Optional()` clears the choice error for a payment method that is blank but not empty. Such a value then passes, and it is stored as given, because only `""` becomes NULL.
- **The palettes are fixed.** The category palette has 15 entries, and the top and payment palettes have 5 each, whatever the number of labels.

## Model

| member | source | states |
|---|---|---|
| Query.Distinct | analytics/views.py:33 | the distinct keys, each once, exactly those that occur |
| Query.DistinctSnoc | analytics/views.py:33 | one more row adds its key to the distinct keys only when the key is new |
| Query.GroupBy | analytics/views.py:26-35 | one group per distinct key, in first-seen order; each group's total and count are the sum and the number of that key's rows |
| Query.GroupByStep | analytics/views.py:26-35 | adding one row to the groups of the rows before it gives the distinct keys of all the rows, each group with its key's sum and count |
| Query.GroupBySnoc | analytics/views.py:26-35 | grouping one more row is adding it to the groups of the rows before it |
| Query.GroupByTotals | analytics/views.py:26-35 | the group totals add up to the sum of all rows, and the counts to the number of rows |
| Query.AddSpec | analytics/views.py:134-136 | adding a row bumps exactly the group of its key, or opens a new group with sum = amount and count 1 at the end |
| Query.AddKeys | analytics/views.py:134-136 | adding a row keeps the keys, and appends its key when the key is new |
| Query.AddSums | analytics/views.py:134-136 | adding a row raises the sum of totals by its amount and the sum of counts by one |
| Query.AbsentKey | analytics/views.py:26-35 | a key no row has sums to 0 and counts 0 |
| Query.LookupFirst | analytics/views.py:96-100 | the scan yields the total of the first group with the key, whatever follows it |
| Query.LookupAt | analytics/views.py:96-100 | with distinct keys, the first match of a group's key is that group |
| Query.LookupMissing | analytics/views.py:96-100 | a key with no group looks up as 0 |
| Query.LookupGroupBy | analytics/views.py:96-100 | looking a key up in the grouped rows gives that key's sum, and 0 for a key no row has |
| Query.LookupSnoc | analytics/views.py:96-100 | a group appended at the end is found only by its own key |
| Query.FilledSum | analytics/views.py:172-176 | a zero-filled series holding each key's total at index key − 1 sums to the total of all groups |
| Query.SumUpdate | analytics/views.py:172-176 | changing one entry changes the sum by the same amount |
| Query.SumZeros | analytics/views.py:173 | an all-zero series sums to 0 |
| Query.Insert | analytics/views.py:206 | inserting into a descending list keeps it descending and adds exactly that element |
| Query.SortDesc | analytics/views.py:206 | the result is in descending order and is a permutation of the input |
| Query.InsertKeys | analytics/views.py:205-206 | inserting a group with a new key keeps the keys distinct and adds exactly that key |
| Query.SortDescKeys | analytics/views.py:205-206 | sorting groups keeps the keys distinct and the same set of keys |
| Query.NoDuplicatesCons | analytics/views.py:33 | a list with a head has no duplicates iff the head is not in the tail and the tail has no duplicates |
| Calendar.DaysInMonth | analytics/views.py:172 | month lengths of `monthrange`: 29 days in February exactly in leap years (divisible by 4, except centuries not divisible by 400), 30 in April, June, September and November, 31 otherwise |
| Calendar.DaysBeforeNextMonth | analytics/views.py:90 | the cumulative month table agrees with the month lengths |
| Calendar.YearLength | analytics/views.py:90 | the twelve months fill the year |
| Calendar.DayNumber | analytics/views.py:71 | `toordinal`, the day count behind date arithmetic: a date's number lies after every day of the years before it and within its own year's length |
| Calendar.PrevDayNumber | analytics/views.py:90 | the day before has the day number one lower, across month and year ends |
| Calendar.SubtractDaysNumber | analytics/views.py:90 | stepping back n days lowers the day number by exactly n |
| Calendar.SubtractWithinMonth | analytics/views.py:90 | stepping back fewer days than the day of the month stays in the same month |
| Expenses.Filter | analytics/views.py:28-32 | the rows kept are exactly the input rows that satisfy the condition |
| Expenses.InMonth | analytics/views.py:28-32 | exactly the user's expenses dated in that month of that year |
| Expenses.InYear | analytics/views.py:202-204 | exactly the user's expenses dated in that year |
| Expenses.Keyed | analytics/views.py:248 | exactly the expenses whose key is not NULL |
| Expenses.WithKey | analytics/views.py:33 | exactly the expenses whose key is k |
| Expenses.TotalBounds | expenses/views.py:43 | when no amount is negative, the total is not negative and is at least each single amount |
| Expenses.TotalAppend | expenses/views.py:43 | the total of a concatenation is the sum of the totals |
| Expenses.TotalPermutation | expenses/views.py:43 | the total does not depend on the order of the expenses |
| Expenses.ProjectLength | analytics/views.py:26-35 | `Project`, the rows a grouped query reads: never more rows than expenses, and as many exactly when no expense has a NULL key |
| Expenses.ProjectKeys | analytics/views.py:26-35 | a key occurs among the query's rows iff some expense has it |
| Expenses.ProjectKeyed | analytics/views.py:238-252 | the query reads one row per expense with a non-NULL key, and their sum is the total of those expenses |
| Expenses.KeyedAll | analytics/views.py:156-169 | when every expense has a key, none is dropped |
| Expenses.SumOfProject | analytics/views.py:238-252 | the grouped sum and count of key k are the total and the number of the expenses with key k |
| Expenses.GroupedQuery | analytics/views.py:238-252 | the grouped query has distinct keys, and a key iff some expense has it; each group carries the total and the number of its expenses; together they carry every keyed expense |
| Analytics.ExpenseByCategory | analytics/views.py:26-61 | labels and data are aligned and the labels are distinct; a label iff some expense of the user in that month has that category; each entry is that category's total; the entries add up to the month's total; the 15-colour palette is fixed |
| Analytics.TrendExpenses | analytics/views.py:79 | exactly the user's expenses on or after the window start, with the date counted at its midnight |
| Analytics.TrendWindow | analytics/views.py:70-79 | an expense is in the window iff it is the user's and lies fewer than 365 days back, or exactly 365 days back at midnight |
| Analytics.TrendSteps | analytics/views.py:89-93 | points j < k are 30·(k − j) days apart, oldest first |
| Analytics.TrendRepeatsMonth | analytics/views.py:89-93 | with now = 31 March 2024, steps 0 and 1 both fall in March 2024 |
| Analytics.TrendSkipsMonth | analytics/views.py:89-93 | with now = 1 March 2024, no step falls in February 2024 |
| Analytics.TrendTotals | analytics/views.py:96-100 | a month's grouped value is the total of the window's expenses in that month |
| Analytics.ScanTotal | analytics/views.py:96-100 | the scan's total is the total of the first query row with the month's key, or 0 when there is none |
| Analytics.TrendPoints | analytics/views.py:89-101 | twelve labels and twelve values; position k is the month 30·(11 − k) days before now, with the first matching group's total, or 0 |
| Analytics.MonthlyTrend | analytics/views.py:70-101 | twelve points, oldest to newest; each is the total of the window's expenses in its month; equal labels carry equal values |
| Analytics.NestSpec | analytics/views.py:134-136 | `+=` on the dict of dicts updates exactly the branch of the main category, or opens a branch at the end |
| Analytics.NestMains | analytics/views.py:134-136 | the branch order is first-seen main-category order |
| Analytics.NoSubRows | analytics/views.py:135-136 | a category with no expenses has no subcategory rows |
| Analytics.SubRowsSnoc | analytics/views.py:135-136 | a new expense adds a sub-row only to its own category |
| Analytics.BranchStep | analytics/views.py:135-136 | after one loop step, each branch holds the grouped subcategory sums of its category |
| Analytics.MainsStep | analytics/views.py:135-136 | after one loop step, the branches follow the main categories read so far |
| Analytics.NestStep | analytics/views.py:135-136 | one loop step keeps the accumulator equal to the grouping of the expenses read |
| Analytics.Accumulate | analytics/views.py:134-136 | the accumulator after the loop is the two-level grouping of all the month's expenses |
| Analytics.ChildrenOf | analytics/views.py:141 | the children's names and values are the subcategory keys and sums, in order |
| Analytics.SubRowsTotal | analytics/views.py:143 | the sub-rows of a category sum to that category's grouped sum |
| Analytics.CategoryTotal | analytics/views.py:143 | the subcategory totals of a category add up to the category's total |
| Analytics.NodeOf | analytics/views.py:140-143 | a node is named by its main category, its children are the branch's subcategory keys and sums in order, and its value is the sum of those sums |
| Analytics.BranchFits | analytics/views.py:140-143 | a node built from a branch has distinct children, one per subcategory present, each with its (main, sub) total; its value is the sum of the children and the category's total |
| Analytics.Nodes | analytics/views.py:139-144 | one node per branch, in order, each built from its branch |
| Analytics.CategoryBreakdown | analytics/views.py:127-146 | distinct node names, a node iff the category has expenses that month, and every node fits the month's expenses as above |
| Analytics.DayKeys | analytics/views.py:156-169 | the day keys of the grouped query are distinct days of the month |
| Analytics.Fill | analytics/views.py:172-176 | a fresh array of n entries; entry i holds the total of day i + 1, or 0 |
| Analytics.DailyTotals | analytics/views.py:156-176 | entry i is the total of day i + 1, days without expenses are 0, and the entries add up to the month's total |
| Analytics.DailySpending | analytics/views.py:156-180 | an error iff the month is outside 1..12; otherwise exactly `monthrange` entries labelled 1..n, each the day's total, 0 on days without expenses, summing to the month's total |
| Analytics.RankedSpec | analytics/views.py:200-206 | the ranking has distinct categories in descending order of total: exactly the year's categories, each with its total |
| Analytics.TopChart | analytics/views.py:200-217 | the first min(5, n) groups of the ranking, in order, as labels and data; the fixed 5-colour palette |
| Analytics.TopListed | analytics/views.py:200-217 | the listed categories are distinct categories of the year, largest first, each with its total |
| Analytics.TopExcluded | analytics/views.py:200-217 | a category of the year that is left out only happens when five are listed, and it spends no more than any listed one |
| Analytics.TopSpec | analytics/views.py:200-225 | all of the above for the chart, plus the fixed 5-colour palette |
| Analytics.TopCategories | analytics/views.py:200-225 | at most five distinct categories, non-increasing, each the year's total of an existing category; a category left out is only left out when five are listed and spends no more than they do; fixed palette |
| Analytics.PaymentMethods | analytics/views.py:238-270 | aligned labels, data and counts; distinct labels; a label iff some expense of the month has it as its payment method; each entry is the total and the number of those expenses; expenses without a method do not count; fixed palette |
| Categories.AllCategories | constants/categories.py:101-103 | the table's keys, in table order, 15 of them |
| Categories.SignaturesDistinct | constants/categories.py:3-97 | no two names share a length and first letter |
| Categories.CategorySignaturesOfTable | constants/categories.py:3-97 | the length and first letter of each main category, in table order |
| Categories.CategoriesDistinct | constants/categories.py:3-97 | the main categories are distinct |
| Categories.Lookup | constants/categories.py:108 | the subcategories of the first entry with that name; the empty list when no entry has it |
| Categories.GetSubcategories | constants/categories.py:106-108 | a known category's subcategory list in order; the empty list for any other string |
| Categories.ValidateCategory | constants/categories.py:119-123 | true iff the subcategory is listed under the main category; false for an unknown main category |
| Categories.ValidateMatchesSubcategories | constants/categories.py:119-123 | `validate_category(m, s)` iff `s in get_subcategories(m)` |
| Categories.ConcatSpec | constants/categories.py:111-116 | the flat list is as long as all lists together and holds exactly their strings |
| Categories.FlatListsValidSubcategories | constants/categories.py:111-116 | a string is in the flat list iff it is a valid subcategory of some main category |
| Categories.AllSubcategoriesFlat | constants/categories.py:111-116 | the flattening loop yields the subcategory lists concatenated in key order |
| ExpenseForms.WithPlaceholder | expenses/forms.py:58-60 | the placeholder, then one `(x, x)` pair per item in order |
| ExpenseForms.PlaceholderValues | expenses/forms.py:58-67 | apart from the placeholder's value, the values offered are exactly the items |
| ExpenseForms.PaymentMethodValues | expenses/forms.py:34-47 | nine choices, the blank placeholder first, then each of the eight methods labelled by itself; a non-blank payment method passes the choice check iff it is one of the eight |
| ExpenseForms.MainCategoryChoices | expenses/forms.py:58-60 | 16 choices: `("", "Select Category")`, then `(cat, cat)` for every category in table order |
| ExpenseForms.SubcategoryChoices | expenses/forms.py:62-69 | with a main category: `("", "Select Subcategory")` then its subcategories; without one: exactly `[("", "First select a category")]` |
| ExpenseForms.UnknownCategoryChoices | expenses/forms.py:63-67 | an unknown main category leaves only the placeholder |
| ExpenseForms.FirstSubcategoriesCapitalised | constants/categories.py:3-97 | the subcategory names of the first five categories start with a capital letter |
| ExpenseForms.MiddleSubcategoriesCapitalised | constants/categories.py:3-97 | the same for the next five categories |
| ExpenseForms.LastSubcategoriesCapitalised | constants/categories.py:3-97 | the same for the last five categories |
| ExpenseForms.SubcategoriesCapitalised | constants/categories.py:3-97 | every subcategory name starts with a capital letter |
| ExpenseForms.TableNamesNotBlank | constants/categories.py:3-97 | no category or subcategory name is blank, so each passes `DataRequired` |
| ExpenseForms.MainChoiceValues | expenses/forms.py:58-60 | a non-empty value is a main-category choice iff it is a category |
| ExpenseForms.SubChoiceValues | expenses/forms.py:63-67 | a non-empty value is a subcategory choice iff it is listed under the main category |
| ExpenseForms.MeetsMinimum | expenses/forms.py:24 | as written, comparing the amount exactly with the float 0.01 lets an amount through iff it is at least 0.02 (see Findings) |
| ExpenseForms.OneCentRefused | expenses/forms.py:24 | 0.01 is refused as written and accepted by the intended bound |
| ExpenseForms.MeetsIntendedMinimum | expenses/forms.py:24 | the intended bound of at least 0.01 admits exactly the amounts greater than 0, as the message says |
| ExpenseForms.Accepts | expenses/forms.py:18-51 | an accepted submission has a positive amount and a date, and non-empty name, main category and subcategory |
| ExpenseForms.AcceptsIffValid | expenses/forms.py:18-51 | a form built from the submitted main category accepts a submission iff the plain fields pass and `validate_category` holds. The plain fields are: name required and ≤ 64 characters; amount present and at least 0.01 (the intended bound, see Findings); date present; payment method blank or one of the 9 choices; description blank or ≤ 255 characters |
| ExpenseForms.ExpenseForm.constructor | expenses/forms.py:55-69 | the three select fields hold the main, subcategory and payment-method choice lists above |
| ExpenseForms.ExpenseForm.ValidateOnSubmit | expenses/forms.py:18-51 | an accepted submission has a positive amount and a date |
| ExpenseForms.BuiltFormValidates | expenses/forms.py:18-69 | the form object built from the submitted main category validates a submission iff the plain fields pass and `validate_category` holds |
| ExpenseViews.Selected | expenses/views.py:28-38 | exactly the user's expenses that pass each truthy filter |
| ExpenseViews.Index | expenses/views.py:23-43 | exactly the selected expenses, all the user's, as a permutation, newest first, with the total of exactly those expenses |
| ExpenseViews.SelectedAgree | expenses/views.py:33-38 | filter parameters that admit the same expenses select the same rows |
| ExpenseViews.FalsyFiltersIgnored | expenses/views.py:33-38 | year 0, month 0 and an empty category give the listing without that filter |
| ExpenseViews.OrNone | expenses/views.py:72-73 | the empty string becomes NULL and nothing else does |
| ExpenseViews.NewExpense | expenses/views.py:65-74 | the new expense is the user's, created and updated now, with the form's name, amount, categories and date, and its payment method and description with the empty string stored as NULL |
| ExpenseViews.Rewrite | expenses/views.py:111-118 | the form's name, amount, categories and date are stored, the optional fields with the empty string as NULL, and `updated_at` is now; id, owner and `created_at` are kept |
| ExpenseViews.RewriteAsNew | expenses/views.py:111-118 | editing stores exactly what adding the same form would, except that the id, owner and `created_at` stay |
| ExpenseViews.FindOwned | expenses/views.py:95-97 | the position of a row with that id and owner, or none iff no such row exists |
| ExpenseViews.ReplaceAt | expenses/views.py:111-118 | rewriting one row in place with its id kept keeps the ids unique and changes only the row with that id |
| ExpenseViews.RemoveAt | expenses/views.py:143 | removing one row keeps the ids unique and removes exactly the row with its id |
| ExpenseViews.ExpenseStore.Add | expenses/views.py:57-84 | an expense is stored iff the form validates, the category pair is valid and the commit succeeds; a failed commit is reported as such; otherwise the rows are unchanged |
| ExpenseViews.ExpenseStore.Edit | expenses/views.py:95-127 | not found iff the user owns no expense with that id; on success only that row changes, as `Rewrite` says; on any refusal or failed commit nothing changes; other users' rows never change |
| ExpenseViews.ExpenseStore.Delete | expenses/views.py:138-149 | not found iff the user owns no expense with that id; a failed commit changes nothing; on success exactly that expense is gone and every other row stays |
| App.ReplaceFirst | app.py:23 | `replace(…, 1)`: the first occurrence of the pattern is replaced and the rest kept; a string without the pattern is returned unchanged |
| App.RewriteDatabaseUrl | app.py:22-23 | a `postgres://` prefix becomes `postgresql://` with the rest unchanged; any other URL is unchanged; the result never starts with `postgres://` |
| App.RewriteIdempotent | app.py:22-23 | rewriting twice is rewriting once |
| App.DatabaseUri | app.py:19-36 | the rewritten `DATABASE_URL` when it is set and non-empty, otherwise `sqlite:///project.db` |
| App.SecretKey | app.py:40 | the environment's key when it is set and non-empty, otherwise `dev-fallback-key`; never empty |
| App.SummaryOf | app.py:149-151 | the figures hold the total and count given, and an average that times the count is the total, 0 when the count is 0 |
| App.Dashboard | app.py:139-151 | the total and the number of the user's expenses in the current month; average × count = total when count > 0, and the average and total are 0 when count is 0 |

## Left out

- Flask routing, `login_required`, `jsonify`, templates, `flash` and redirects are not modelled. Nor is the SQLAlchemy session itself. Whether a commit succeeds is a parameter (`commits`) of `ExpenseStore.Add`, `Edit` and `Delete`: a commit that raises is rolled back, which the model states as the `CommitFailed` outcome with the rows unchanged. Why a commit fails and the error message are not modelled.
- `datetime.now()` and the `request.args` defaults are not modelled. The clock, the month and the year are parameters.
- `float(...)` on totals is not modelled: amounts stay integer cents. `DecimalField(places=2)` only rounds the value shown when the form is displayed again: it parses any decimal text, so the source accepts sub-cent amounts such as `0.015`. The model admits whole cents only, so sub-cent amounts are not modelled.
- The dashboard's average is a real number, not a Decimal with Decimal's rounding context.
- Label text is not modelled. `calendar.month_name[m][:3]` with the year becomes the pair `MonthKey(year, month)`, and each label is given as its (month, year).
- Years are unbounded. The `OverflowError` that Python's date arithmetic raises below year 1 is not modelled.
- The trend query's `ORDER BY year, month` does not affect the result, because only the first row of a (year, month) can match and the keys are distinct. The model groups in first-seen order.
- Ordering of query results:
  - the groups of `expense_by_category` and `payment_methods` come in first-seen order, where SQL gives an unspecified order;
  - `category_breakdown` reads its rows with an unordered `.all()` (`analytics/views.py:127-131`), and the order of its mains and of each main's subcategories is the dictionaries' insertion order, so it follows that row order; the model takes the rows in storage order;
  - the daily query's `ORDER BY day` is not modelled: its groups also come in first-seen order, and the fill writes each day to its own index, so the order does not change the result;
  - the order of ties in `top_categories` and in the listing's date order is left unspecified, as in SQL: the contracts say nothing about how equal keys are ordered.
- For `edit` and `delete`, the database's first match is taken as the first row in storage order. Only one row can match, because ids are unique.
- ExpenseViews.ExpenseStore.Add: does not model how the database assigns the new primary key. A fresh id is a precondition. `created_at` and `updated_at` are both set to the insertion time passed in.
- The GET path of `edit` is not modelled. It copies the stored category into the form and renders it without changing anything.
- The subcategory API endpoint (`expenses/views.py:156-158`) returns `EXPENSE_CATEGORIES.get(main, [])`. That is `Categories.GetSubcategories`, which is modelled once and not redefined.
- `str.strip()` in `DataRequired` and `Optional` is modelled with ASCII whitespace only (tab to carriage return, 0x1C to 0x1F, space). Unicode whitespace beyond ASCII is not modelled.
- ExpenseForms.Accepts / ExpenseForms.ExpenseForm.ValidateOnSubmit: the CSRF token check that `validate_on_submit` also makes is assumed to pass. The request and its session token are not modelled.
- Analytics.OnOrAfter: the trend window's `date >= datetime` comparison is modelled as PostgreSQL does it, with the date promoted to a timestamp at midnight. The SQLite fallback of `app.py:34-36` compares the values as text, and that comparison is not modelled.
- ExpenseForms.Accepts: the amount check uses the intended bound of 0.01. As written, the source refuses 0.01, as recorded under Findings.
- Authentication, user accounts, the ORM column declarations, logging, the connection test and the error handlers are not modelled. `auth/`, `user/` and `models.py` are not part of this model.
- The engine options for PostgreSQL (`pool_pre_ping`, `pool_recycle`, `sslmode`) and the cookie settings in `app.py` are not modelled. They are configuration constants with no logic.

## Findings

| source | as written | input that shows it | evidently intended | confidence | as-written member | corrected member |
|---|---|---|---|---|---|---|
| expenses/forms.py:24 | `NumberRange(min=0.01)` compares the parsed `Decimal` with the float `0.01`, which is 5764607523034235 / 2^59, a little above one hundredth | an amount of `0.01`: `Decimal("0.01") < 0.01` holds, so the form reports "Amount must be greater than 0" | every amount of at least 0.01, that is, greater than 0 | high, not executed | ExpenseForms.MeetsMinimum (ExpenseForms.OneCentRefused) | ExpenseForms.MeetsIntendedMinimum |
