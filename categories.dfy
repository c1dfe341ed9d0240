/**
 * The fixed expense taxonomy: each main category with its ordered list of
 * subcategories, kept in the table's key order as a Python dict keeps it,
 * and the lookup, flattening and validation helpers over it.
 */
module Categories {
  import opened Query

  /** `EXPENSE_CATEGORIES`, one (main category, subcategories) entry per key, in key order. */
  const Table: seq<(string, seq<string>)> := [
    ("Housing", ["Rent/Mortgage", "Property Taxes", "Home Insurance", "Maintenance & Repairs",
                 "HOA Fees", "Utilities (Electric, Water, Gas)"]),
    ("Food & Groceries", ["Groceries", "Dining Out", "Coffee Shops", "Meal Delivery"]),
    ("Transportation", ["Fuel", "Public Transit", "Car Payment", "Car Insurance",
                        "Maintenance/Repairs", "Parking & Tolls", "Rideshare"]),
    ("Utilities & Subscriptions", ["Internet", "Mobile Phone", "Streaming Services",
                                   "Cloud Storage", "Software Subscriptions"]),
    ("Health & Insurance", ["Health Insurance", "Dental & Vision", "Medical Bills",
                            "Prescriptions", "Therapy/Counseling", "Fitness"]),
    ("Education & Personal Development", ["Tuition", "Student Loans", "Books & Supplies",
                                          "Online Courses", "Certifications"]),
    ("Shopping & Personal", ["Clothing & Accessories", "Beauty & Grooming",
                             "Gifts & Special Occasions", "Retail Spending"]),
    ("Family & Children", ["Childcare", "School Supplies", "Allowance", "Baby Essentials",
                           "Kids' Activities"]),
    ("Entertainment & Leisure", ["Movies, Concerts, Events", "Hobbies", "Gaming",
                                 "Other Subscriptions"]),
    ("Travel & Vacations", ["Flights", "Hotels", "Transportation", "Travel Insurance",
                            "Souvenirs"]),
    ("Debt & Loans", ["Credit Card Payments", "Personal Loans", "Payday Loans",
                      "Installment Plans"]),
    ("Savings & Investments", ["Emergency Fund", "Retirement", "Stock Investments", "Crypto",
                               "Real Estate Investment"]),
    ("Business & Side Hustles", ["Office Supplies", "Business Tools & Software", "Advertising",
                                 "Contractors/Freelancers", "Taxes"]),
    ("Donations & Giving", ["Charities", "Church/Tithing", "Fundraisers"]),
    ("Miscellaneous/Uncategorized", ["ATM Withdrawals", "Cash Expenses", "One-Time Payments",
                                     "Other"])
  ]

  /** `get_all_categories()`: `list(EXPENSE_CATEGORIES.keys())`. */
  function AllCategories(): (r: seq<string>)
    ensures |r| == |Table| == 15
    ensures forall i :: 0 <= i < |Table| ==> r[i] == Table[i].0
  {
    seq(|Table|, i requires 0 <= i < |Table| => Table[i].0)
  }

  /** The length and the first letter of a name. Distinctness of the fifteen names is shown
      on these pairs, so the solver never compares Table's long strings letter by letter. */
  function Signature(s: string): (int, char) {
    if s == [] then (0, ' ') else (|s|, s[0])
  }

  /** The signatures of the main categories in Table's order. */
  const CategorySignatures: seq<(int, char)> :=
    [(7, 'H'), (16, 'F'), (14, 'T'), (25, 'U'), (18, 'H'), (32, 'E'), (19, 'S'),
     (17, 'F'), (23, 'E'), (18, 'T'), (12, 'D'), (21, 'S'), (23, 'B'), (18, 'D'), (27, 'M')]

  lemma SignaturesDistinct()
    ensures NoDuplicates(CategorySignatures)
  {
  }

  lemma CategorySignaturesOfTable()
    ensures |CategorySignatures| == |Table|
    ensures forall i :: 0 <= i < |Table| ==> Signature(Table[i].0) == CategorySignatures[i]
  {
    var sigs := seq(|Table|, i requires 0 <= i < |Table| => Signature(Table[i].0));
    assert sigs == CategorySignatures;
  }

  /** A dict literal has distinct keys. */
  lemma CategoriesDistinct()
    ensures NoDuplicates(AllCategories())
  {
    var ks := AllCategories();
    SignaturesDistinct();
    CategorySignaturesOfTable();
    forall i, j | 0 <= i < j < |ks|
      ensures ks[i] != ks[j]
    {
      assert CategorySignatures[i] != CategorySignatures[j];
    }
  }

  /** `EXPENSE_CATEGORIES.get(main_category, [])`: the subcategories of the first entry named
      `main`, or the empty list when no entry is. */
  function Lookup(entries: seq<(string, seq<string>)>, main: string): (r: seq<string>)
    ensures (forall i :: 0 <= i < |entries| ==> entries[i].0 != main) ==> r == []
    ensures forall i ::
      0 <= i < |entries| && entries[i].0 == main && (forall j :: 0 <= j < i ==> entries[j].0 != main)
      ==> r == entries[i].1
  {
    if entries == [] then []
    else if entries[0].0 == main then entries[0].1
    else
      var r := Lookup(entries[1..], main);
      assert forall i :: 1 <= i < |entries| ==> entries[i] == entries[1..][i - 1];
      r
  }

  /** `get_subcategories(main_category)`: the table entry of a known main category,
      the empty list for any other string. */
  function GetSubcategories(main: string): (r: seq<string>)
    ensures forall i :: 0 <= i < |Table| && Table[i].0 == main ==> r == Table[i].1
    ensures main !in AllCategories() ==> r == []
  {
    CategoriesDistinct();
    var ks := AllCategories();
    assert forall i, j :: 0 <= j < i < |Table| ==> ks[j] != ks[i];
    Lookup(Table, main)
  }

  /** `validate_category(main_category, subcategory)`. */
  function ValidateCategory(main: string, sub: string): (r: bool)
    ensures r <==> exists i :: 0 <= i < |Table| && Table[i].0 == main && sub in Table[i].1
    ensures main !in AllCategories() ==> !r
  {
    if main !in AllCategories() then false
    else sub in GetSubcategories(main)
  }

  /** A pair is valid exactly when the subcategory is listed under the main category. */
  lemma ValidateMatchesSubcategories(main: string, sub: string)
    ensures ValidateCategory(main, sub) <==> sub in GetSubcategories(main)
  {
    if main in AllCategories() {
      var i :| 0 <= i < |Table| && AllCategories()[i] == main;
    }
  }

  // ---- get_all_subcategories_flat ----

  function Values(): seq<seq<string>> {
    seq(|Table|, i requires 0 <= i < |Table| => Table[i].1)
  }

  /** The lists of `lists` one after another. */
  function Concat(lists: seq<seq<string>>): seq<string> {
    if lists == [] then [] else Concat(lists[..|lists| - 1]) + lists[|lists| - 1]
  }

  function SumLengths(lists: seq<seq<string>>): nat {
    if lists == [] then 0 else SumLengths(lists[..|lists| - 1]) + |lists[|lists| - 1]|
  }

  /** The concatenation holds every listed string and is as long as all lists together. */
  lemma {:induction false} ConcatSpec(lists: seq<seq<string>>)
    ensures |Concat(lists)| == SumLengths(lists)
    ensures forall s :: s in Concat(lists) <==> exists i :: 0 <= i < |lists| && s in lists[i]
  {
    if lists != [] {
      var init := lists[..|lists| - 1];
      ConcatSpec(init);
      forall s | s in Concat(lists)
        ensures exists i :: 0 <= i < |lists| && s in lists[i]
      {
        if s in Concat(init) {
          var i :| 0 <= i < |init| && s in init[i];
          assert lists[i] == init[i];
        } else {
          assert s in lists[|lists| - 1];
        }
      }
      forall s, i | 0 <= i < |lists| && s in lists[i]
        ensures s in Concat(lists)
      {
        if i < |lists| - 1 {
          assert init[i] == lists[i];
        }
      }
    }
  }

  /** Every string of the flat list is the subcategory of some valid pair, and conversely. */
  lemma FlatListsValidSubcategories(s: string)
    ensures s in Concat(Values()) <==> exists main :: ValidateCategory(main, s)
  {
    var values := Values();
    ConcatSpec(values);
    if s in Concat(values) {
      var i :| 0 <= i < |values| && s in values[i];
      assert ValidateCategory(Table[i].0, s);
    }
    if exists main :: ValidateCategory(main, s) {
      var main :| ValidateCategory(main, s);
      var i :| 0 <= i < |Table| && Table[i].0 == main && s in Table[i].1;
      assert s in values[i];
    }
  }

  /** `get_all_subcategories_flat()`: extends a list with each subcategory list in key order. */
  method AllSubcategoriesFlat() returns (subcategories: seq<string>)
    ensures subcategories == Concat(Values())
  {
    var values := Values();
    subcategories := [];
    for k := 0 to |values|
      invariant subcategories == Concat(values[..k])
    {
      assert values[..k + 1][..k] == values[..k];
      subcategories := subcategories + values[k];
    }
    assert values[..|values|] == values;
  }
}
