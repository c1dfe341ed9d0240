/**
 * The expense form: its choice lists, built from the category table, and
 * the checks `validate_on_submit` runs on a submitted form (required
 * fields, length and amount bounds, and the rule that a select field's
 * value must be one of its choices).
 */
module ExpenseForms {
  import opened Wrappers
  import opened Calendar
  import opened Categories

  /** One `(value, label)` pair (the label as `text`) of a select field. */
  datatype Choice = Choice(value: string, text: string)

  function ChoiceValues(cs: seq<Choice>): seq<string> {
    seq(|cs|, i requires 0 <= i < |cs| => cs[i].value)
  }

  /** `[placeholder] + [(x, x) for x in items]`. */
  function WithPlaceholder(placeholder: Choice, items: seq<string>): (r: seq<Choice>)
    ensures |r| == 1 + |items| && r[0] == placeholder
    ensures forall i :: 0 <= i < |items| ==> r[i + 1] == Choice(items[i], items[i])
  {
    [placeholder] + seq(|items|, i requires 0 <= i < |items| => Choice(items[i], items[i]))
  }

  /** Apart from the placeholder's value, the values offered are exactly the items. */
  lemma PlaceholderValues(placeholder: Choice, items: seq<string>, v: string)
    requires v != placeholder.value
    ensures v in ChoiceValues(WithPlaceholder(placeholder, items)) <==> v in items
  {
    var cs := WithPlaceholder(placeholder, items);
    if v in ChoiceValues(cs) {
      var k :| 0 <= k < |cs| && cs[k].value == v;
      assert items[k - 1] == v;
    }
    if v in items {
      var k :| 0 <= k < |items| && items[k] == v;
      assert ChoiceValues(cs)[k + 1] == v;
    }
  }

  /** The main-category choices: the placeholder, then every category in table order. */
  function MainCategoryChoices(): (r: seq<Choice>)
    ensures |r| == 1 + |AllCategories()| == 16
    ensures r[0] == Choice("", "Select Category")
    ensures forall i :: 0 <= i < |AllCategories()| ==> r[i + 1] == Choice(AllCategories()[i], AllCategories()[i])
  {
    WithPlaceholder(Choice("", "Select Category"), AllCategories())
  }

  /** The subcategory choices for the main category the form holds: with a (truthy) main
      category, the placeholder and that category's subcategories (none for an unknown one);
      without one, a single prompt. */
  function SubcategoryChoices(mainCategoryData: Option<string>): (r: seq<Choice>)
    ensures TruthyString(mainCategoryData) ==>
      var subs := GetSubcategories(mainCategoryData.value);
      |r| == 1 + |subs| && r[0] == Choice("", "Select Subcategory") &&
      forall i :: 0 <= i < |subs| ==> r[i + 1] == Choice(subs[i], subs[i])
    ensures !TruthyString(mainCategoryData) ==> r == [Choice("", "First select a category")]
  {
    if TruthyString(mainCategoryData) then
      WithPlaceholder(Choice("", "Select Subcategory"), GetSubcategories(mainCategoryData.value))
    else
      [Choice("", "First select a category")]
  }

  /** An unknown main category leaves only the placeholder. */
  lemma UnknownCategoryChoices(main: string)
    requires main != "" && main !in AllCategories()
    ensures SubcategoryChoices(Some(main)) == [Choice("", "Select Subcategory")]
  {
    assert GetSubcategories(main) == [];
  }

  /** The payment-method choices: the placeholder and eight methods. */
  const PaymentMethodChoices: seq<Choice> := [
    Choice("", "Select Payment Method"),
    Choice("Cash", "Cash"),
    Choice("Credit Card", "Credit Card"),
    Choice("Debit Card", "Debit Card"),
    Choice("Bank Transfer", "Bank Transfer"),
    Choice("Check", "Check"),
    Choice("PayPal", "PayPal"),
    Choice("Venmo", "Venmo"),
    Choice("Other", "Other")
  ]

  /** The eight payment methods the select field offers after its placeholder. */
  const PaymentMethods: seq<string> :=
    ["Cash", "Credit Card", "Debit Card", "Bank Transfer", "Check", "PayPal", "Venmo", "Other"]

  /** The placeholder comes first with the blank value, then each method labelled by itself;
      so a non-blank submission passes the choice check exactly when it is one of the eight. */
  lemma PaymentMethodValues()
    ensures |PaymentMethodChoices| == 1 + |PaymentMethods| && PaymentMethodChoices[0].value == ""
    ensures forall i :: 0 <= i < |PaymentMethods| ==>
      PaymentMethodChoices[i + 1] == Choice(PaymentMethods[i], PaymentMethods[i])
    ensures forall v :: !IsBlank(v) ==> (v in ChoiceValues(PaymentMethodChoices) <==> v in PaymentMethods)
  {
    assert ChoiceValues(PaymentMethodChoices) == [""] + PaymentMethods;
  }

  /** `Length(max=64)` on the name. */
  const NameMaxLength: nat := 64

  /** `Length(max=255)` on the description. */
  const DescriptionMaxLength: nat := 255

  /** The float literal `0.01` is the binary fraction FloatCentNumerator / 2^59, a little
      above one hundredth. */
  const FloatCentNumerator: int := 5764607523034235
  const FloatCentDenominator: int := 576460752303423488

  /** `NumberRange(min=0.01)` as written: the submitted `Decimal` amount of `cents` hundredths
      compared exactly with the float `0.01`, as `Decimal` compares with a float. The smallest
      amount that passes is two cents. */
  function MeetsMinimum(cents: int): (r: bool)
    ensures r <==> cents >= 2
  {
    cents * FloatCentDenominator >= 100 * FloatCentNumerator
  }

  /** The minimum the field evidently intends: at least `Decimal("0.01")`, compared exactly in
      the same way. It admits exactly the amounts greater than 0, as the message says. */
  function MeetsIntendedMinimum(cents: int): (r: bool)
    ensures r <==> cents > 0
  {
    cents * 100 >= 100 * 1
  }

  /** An amount of `0.01` meets the intended minimum and is refused as written. */
  lemma OneCentRefused()
    ensures !MeetsMinimum(1) && MeetsIntendedMinimum(1)
  {
  }

  /** The whitespace `str.strip()` removes, restricted to ASCII: tab through carriage return,
      the four separators 0x1C to 0x1F, and space. */
  predicate IsSpace(c: char) {
    c == ' ' || '\t' <= c <= '\r' || '\U{001C}' <= c <= '\U{001F}'
  }

  /** A string that is empty once stripped. */
  predicate IsBlank(s: string) {
    forall i :: 0 <= i < |s| ==> IsSpace(s[i])
  }

  /** The data of a submitted form. `amount` is `None` when it did not parse as a decimal and
      `date` is `None` when it did not parse as a date; the other fields hold the raw text. */
  datatype FormInput = FormInput(
    name: string,
    amount: Option<int>,
    mainCategory: string,
    subcategory: string,
    date: Option<Date>,
    paymentMethod: string,
    description: string)

  /** `validate_on_submit()` for a submitted form, given the choices its select fields hold:
      `DataRequired` fields must be present and not blank, a select field's value must be one
      of its choices, and an `Optional` field that is blank passes whatever its other checks. */
  function Accepts(input: FormInput, mainChoices: seq<Choice>, subChoices: seq<Choice>, paymentChoices: seq<Choice>): (r: bool)
    ensures r ==> input.amount.Some? && input.amount.value > 0 && input.date.Some?
    ensures r ==> input.name != "" && input.mainCategory != "" && input.subcategory != ""
  {
    && !IsBlank(input.name) && |input.name| <= NameMaxLength
    && input.amount.Some? && MeetsIntendedMinimum(input.amount.value)
    && !IsBlank(input.mainCategory) && input.mainCategory in ChoiceValues(mainChoices)
    && !IsBlank(input.subcategory) && input.subcategory in ChoiceValues(subChoices)
    && input.date.Some?
    && (IsBlank(input.paymentMethod) || input.paymentMethod in ChoiceValues(paymentChoices))
    && (IsBlank(input.description) || |input.description| <= DescriptionMaxLength)
  }

  /** The checks of the fields that do not depend on the category table. */
  predicate FieldsValid(input: FormInput) {
    && !IsBlank(input.name) && |input.name| <= NameMaxLength
    && input.amount.Some? && MeetsIntendedMinimum(input.amount.value)
    && input.date.Some?
    && (IsBlank(input.paymentMethod) || input.paymentMethod in ChoiceValues(PaymentMethodChoices))
    && (IsBlank(input.description) || |input.description| <= DescriptionMaxLength)
  }

  /** Every name starts with a capital letter. */
  predicate Capitalised(names: seq<string>) {
    forall k :: 0 <= k < |names| ==> names[k] != [] && 'A' <= names[k][0] <= 'Z'
  }

  /** The fifteen subcategory lists are checked five at a time: one proof over the whole of
      Table would be too large for the solver. */
  lemma FirstSubcategoriesCapitalised()
    ensures Capitalised(Table[0].1) && Capitalised(Table[1].1) && Capitalised(Table[2].1)
    ensures Capitalised(Table[3].1) && Capitalised(Table[4].1)
  {
  }

  lemma MiddleSubcategoriesCapitalised()
    ensures Capitalised(Table[5].1) && Capitalised(Table[6].1) && Capitalised(Table[7].1)
    ensures Capitalised(Table[8].1) && Capitalised(Table[9].1)
  {
  }

  lemma LastSubcategoriesCapitalised()
    ensures Capitalised(Table[10].1) && Capitalised(Table[11].1) && Capitalised(Table[12].1)
    ensures Capitalised(Table[13].1) && Capitalised(Table[14].1)
  {
  }

  lemma SubcategoriesCapitalised(i: int)
    requires 0 <= i < |Table|
    ensures Capitalised(Table[i].1)
  {
    FirstSubcategoriesCapitalised();
    MiddleSubcategoriesCapitalised();
    LastSubcategoriesCapitalised();
  }

  /** No category or subcategory name of the table is blank. */
  lemma TableNamesNotBlank()
    ensures forall i :: 0 <= i < |Table| ==> !IsBlank(Table[i].0)
    ensures forall i, s :: 0 <= i < |Table| && s in Table[i].1 ==> !IsBlank(s)
  {
    CategorySignaturesOfTable();
    forall i, s | 0 <= i < |Table| && s in Table[i].1
      ensures !IsBlank(s)
    {
      SubcategoriesCapitalised(i);
      var k :| 0 <= k < |Table[i].1| && Table[i].1[k] == s;
      assert s != [] && !IsSpace(s[0]);
    }
    forall i | 0 <= i < |Table|
      ensures !IsBlank(Table[i].0)
    {
      assert CategorySignatures[i] in CategorySignatures;
      assert !IsSpace(Table[i].0[0]);
    }
  }

  /** A value other than the placeholder is a main-category choice iff it is a category. */
  lemma MainChoiceValues(v: string)
    requires v != ""
    ensures v in ChoiceValues(MainCategoryChoices()) <==> v in AllCategories()
  {
    PlaceholderValues(Choice("", "Select Category"), AllCategories(), v);
  }

  /** A value other than the placeholder is a subcategory choice for `main` iff it is one of
      `main`'s subcategories. */
  lemma SubChoiceValues(main: string, v: string)
    requires main != "" && v != ""
    ensures v in ChoiceValues(SubcategoryChoices(Some(main))) <==> v in GetSubcategories(main)
  {
    PlaceholderValues(Choice("", "Select Subcategory"), GetSubcategories(main), v);
  }

  /** A form built from the submitted main category accepts exactly the submissions whose
      plain fields are valid and whose (main, sub) pair passes `validate_category`. */
  lemma AcceptsIffValid(input: FormInput)
    ensures Accepts(input, MainCategoryChoices(), SubcategoryChoices(Some(input.mainCategory)), PaymentMethodChoices)
        <==> FieldsValid(input) && ValidateCategory(input.mainCategory, input.subcategory)
  {
    var main, sub := input.mainCategory, input.subcategory;
    TableNamesNotBlank();
    ValidateMatchesSubcategories(main, sub);
    if !IsBlank(main) {
      assert main != "";
      MainChoiceValues(main);
      if !IsBlank(sub) {
        assert sub != "";
        SubChoiceValues(main, sub);
      }
    }
    if ValidateCategory(main, sub) {
      var i :| 0 <= i < |Table| && Table[i].0 == main && sub in Table[i].1;
      assert !IsBlank(main) && !IsBlank(sub);
    }
  }

  /** The form object: the choices `__init__` assigns to its select fields. */
  class ExpenseForm {
    var mainCategoryChoices: seq<Choice>
    var subcategoryChoices: seq<Choice>
    var paymentMethodChoices: seq<Choice>

    /** `ExpenseForm()` holding `mainCategoryData` in its main-category field. */
    constructor (mainCategoryData: Option<string>)
      ensures mainCategoryChoices == MainCategoryChoices()
      ensures subcategoryChoices == SubcategoryChoices(mainCategoryData)
      ensures paymentMethodChoices == PaymentMethodChoices
    {
      paymentMethodChoices := PaymentMethodChoices;
      mainCategoryChoices := WithPlaceholder(Choice("", "Select Category"), AllCategories());
      if TruthyString(mainCategoryData) {
        var subcats := GetSubcategories(mainCategoryData.value);
        subcategoryChoices := WithPlaceholder(Choice("", "Select Subcategory"), subcats);
      } else {
        subcategoryChoices := [Choice("", "First select a category")];
      }
    }

    /** `validate_on_submit()` against the choices this form holds. */
    function ValidateOnSubmit(input: FormInput): (r: bool)
      reads this
      ensures r ==> input.amount.Some? && input.amount.value > 0 && input.date.Some?
    {
      Accepts(input, mainCategoryChoices, subcategoryChoices, paymentMethodChoices)
    }
  }

  /** A form built from the submitted main category validates exactly the submissions whose
      plain fields are valid and whose (main, sub) pair passes `validate_category`. */
  lemma BuiltFormValidates(form: ExpenseForm, input: FormInput)
    requires form.mainCategoryChoices == MainCategoryChoices()
    requires form.subcategoryChoices == SubcategoryChoices(Some(input.mainCategory))
    requires form.paymentMethodChoices == PaymentMethodChoices
    ensures form.ValidateOnSubmit(input) <==> FieldsValid(input) && ValidateCategory(input.mainCategory, input.subcategory)
  {
    AcceptsIffValid(input);
  }
}
