/** The add-transaction form: the category list chosen by the route's
    `type` parameter, the amount field that is re-formatted on every
    keystroke, and the checks `handleSave` makes before accepting. */
module AddTransaction {
  import opened Numerals

  /** A route query parameter as the router hands it over: missing, one
      value, or several values. */
  datatype RouteParam = Absent | Single(value: string) | Many(values: seq<string>)

  /** `type === 'income'`: only a single value equal to "income" counts. */
  predicate IsIncome(p: RouteParam)
  {
    p == Single("income")
  }

  const IncomeCategories: seq<string> := ["Salary", "Freelance", "Bonus", "Investment", "Other"]
  const ExpenseCategories: seq<string> := ["Food", "Transport", "Shopping", "Bills", "Entertainment", "Health", "Other"]

  /** The category chips offered: the income list for an income form, the
      expense list for every other value of the parameter, missing included. */
  function Categories(p: RouteParam): (r: seq<string>)
    ensures r == IncomeCategories <==> IsIncome(p)
    ensures r == ExpenseCategories <==> !IsIncome(p)
    ensures "Other" in r
    ensures forall c :: c in r ==> c != ""
  {
    if IsIncome(p) then IncomeCategories else ExpenseCategories
  }

  /** `formatAmount`: keep the digits; nothing if there are none; otherwise
      the number they denote, grouped in the id-ID style. */
  function FormatAmount(text: string): (r: string)
    ensures forall i :: 0 <= i < |r| ==> IsDigit(r[i]) || r[i] == '.'
  {
    var digits := DigitsOf(text);
    if digits == [] then "" else FormatNumber(Value(digits))
  }

  /** The formatted amount is empty exactly when the input has no digit. */
  lemma FormatAmountEmpty(text: string)
    ensures FormatAmount(text) == "" <==> DigitsOf(text) == ""
    ensures FormatAmount(text) == "" <==> forall i :: 0 <= i < |text| ==> !IsDigit(text[i])
  {
    DigitsOfEmpty(text);
    if DigitsOf(text) != [] {
      FormatNumberReadsBack(Value(DigitsOf(text)));
    }
  }

  /** The digits of the formatted amount are the input's digits with their
      leading zeros dropped (one "0" stays when all digits are zero). */
  lemma FormatAmountDigits(text: string)
    requires DigitsOf(text) != ""
    ensures DigitsOf(FormatAmount(text)) == Canonical(DigitsOf(text))
  {
    var digits := DigitsOf(text);
    FormatNumberReadsBack(Value(digits));
    ShowOfValue(digits);
  }

  /** Formatting the formatted text again changes nothing, so the field is
      stable under the re-formatting done on every keystroke. */
  lemma FormatAmountIdempotent(text: string)
    ensures FormatAmount(FormatAmount(text)) == FormatAmount(text)
  {
    var digits := DigitsOf(text);
    if digits != [] {
      FormatNumberReadsBack(Value(digits));
    }
  }

  /** The formatted field keeps the number that was typed. */
  lemma FormatAmountKeepsValue(text: string)
    requires DigitsOf(text) != ""
    ensures DigitsOf(FormatAmount(text)) != ""
    ensures Value(DigitsOf(FormatAmount(text))) == Value(DigitsOf(text))
  {
    FormatNumberReadsBack(Value(DigitsOf(text)));
  }

  /** The record `handleSave` accepts. */
  datatype Draft = Draft(title: string, amount: nat, category: string, description: string, kind: RouteParam)

  /** The outcome of pressing save: the two error alerts, or success. */
  datatype SaveResult = MissingFields | InvalidAmount | Saved(draft: Draft, message: string)

  /** The text of the alert shown for an outcome. */
  function AlertMessage(r: SaveResult): (s: string)
    ensures r.Saved? ==> s == r.message
    ensures r == MissingFields ==> s == "Mohon lengkapi semua field yang diperlukan"
    ensures r == InvalidAmount ==> s == "Mohon masukkan jumlah yang valid"
  {
    match r
    case MissingFields => "Mohon lengkapi semua field yang diperlukan"
    case InvalidAmount => "Mohon masukkan jumlah yang valid"
    case Saved(_, message) => message
  }

  /** The success text names the kind of transaction the form was opened for. */
  function SuccessMessage(kind: RouteParam): (s: string)
    ensures IsIncome(kind) ==> s == "Transaksi pemasukan berhasil ditambahkan"
    ensures !IsIncome(kind) ==> s == "Transaksi pengeluaran berhasil ditambahkan"
  {
    if IsIncome(kind) then "Transaksi pemasukan berhasil ditambahkan"
    else "Transaksi pengeluaran berhasil ditambahkan"
  }

  /** The alert tells the three outcomes apart: each error text is shown
      for its own error only, never for the other one or for a success. */
  lemma AlertTellsOutcome(r: SaveResult)
    requires r.Saved? ==> r.message == SuccessMessage(r.draft.kind)
    ensures AlertMessage(r) == AlertMessage(MissingFields) <==> r == MissingFields
    ensures AlertMessage(r) == AlertMessage(InvalidAmount) <==> r == InvalidAmount
  {
    assert AlertMessage(MissingFields)[6] != AlertMessage(InvalidAmount)[6];
    if r.Saved? {
      if IsIncome(r.draft.kind) {
        assert AlertMessage(r) == "Transaksi pemasukan berhasil ditambahkan";
      } else {
        assert AlertMessage(r) == "Transaksi pengeluaran berhasil ditambahkan";
      }
      assert AlertMessage(r)[0] == 'T';
    }
  }

  /** The form's state: the values held by its input fields. */
  class TransactionForm {
    const kind: RouteParam
    var title: string
    var amount: string
    var category: string
    var description: string

    /** The amount field only ever holds formatted text, and the category is
        unset or one of the chips offered. */
    ghost predicate Valid()
      reads this
    {
      && FormatAmount(amount) == amount
      && (category == "" || category in Categories(kind))
    }

    constructor (kind: RouteParam)
      ensures Valid()
      ensures this.kind == kind
      ensures title == "" && amount == "" && category == "" && description == ""
    {
      this.kind := kind;
      title, amount, category, description := "", "", "", "";
    }

    /** `setTitle`, the title field's change handler. */
    method SetTitle(text: string)
      requires Valid()
      modifies this`title
      ensures Valid()
      ensures title == text
    {
      title := text;
    }

    /** `handleAmountChange`: store the formatted text, not what was typed. */
    method HandleAmountChange(text: string)
      requires Valid()
      modifies this`amount
      ensures Valid()
      ensures amount == FormatAmount(text)
      ensures DigitsOf(text) == "" ==> amount == ""
      ensures DigitsOf(text) != "" ==> Value(DigitsOf(amount)) == Value(DigitsOf(text))
    {
      FormatAmountIdempotent(text);
      FormatAmountEmpty(text);
      if DigitsOf(text) != "" {
        FormatAmountKeepsValue(text);
      }
      amount := FormatAmount(text);
    }

    /** `setCategory(cat)`, pressed on one of the offered chips. */
    method SelectCategory(cat: string)
      requires Valid()
      requires cat in Categories(kind)
      modifies this`category
      ensures Valid()
      ensures category == cat
    {
      category := cat;
    }

    /** `setDescription`, the optional description field. */
    method SetDescription(text: string)
      requires Valid()
      modifies this`description
      ensures Valid()
      ensures description == text
    {
      description := text;
    }

    /** `handleSave`: the required fields, then the amount's digits must
        denote a positive number. Nothing in the form changes. */
    method Save() returns (r: SaveResult)
      ensures r == MissingFields <==> title == "" || amount == "" || category == ""
      ensures r == InvalidAmount <==>
                && title != "" && amount != "" && category != ""
                && (DigitsOf(amount) == "" || Value(DigitsOf(amount)) == 0)
      ensures r.Saved? ==> r.draft.amount > 0 && r.draft.amount == Value(DigitsOf(amount))
      ensures r.Saved? ==> r.draft == Draft(title, r.draft.amount, category, description, kind)
      ensures r.Saved? ==> r.message == SuccessMessage(kind)
      ensures Valid() && r == InvalidAmount ==> DigitsOf(amount) != "" && Value(DigitsOf(amount)) == 0
    {
      if title == "" || amount == "" || category == "" {
        return MissingFields;
      }
      var digits := DigitsOf(amount);
      if digits == "" {
        return InvalidAmount;
      }
      var numericAmount := Value(digits);
      if numericAmount <= 0 {
        return InvalidAmount;
      }
      FormatAmountEmpty(amount);
      r := Saved(Draft(title, numericAmount, category, description, kind), SuccessMessage(kind));
    }
  }

  /** The user enters a title, presses a category chip and types an
      amount into a new form. */
  method Fill(kind: RouteParam, title: string, cat: string, text: string) returns (form: TransactionForm)
    requires cat in Categories(kind)
    ensures fresh(form) && form.Valid() && form.kind == kind
    ensures form.title == title && form.category == cat && form.amount == FormatAmount(text)
  {
    form := new TransactionForm(kind);
    form.SetTitle(title);
    form.SelectCategory(cat);
    form.HandleAmountChange(text);
  }

  /** Typing `text` into the amount field and saving: refused as incomplete
      when the title is empty or `text` has no digit, refused as invalid when
      its digits denote 0, and otherwise the number they denote is stored. */
  method TypeThenSave(kind: RouteParam, title: string, cat: string, text: string) returns (r: SaveResult)
    requires cat in Categories(kind)
    ensures r == MissingFields <==> title == "" || DigitsOf(text) == ""
    ensures r == InvalidAmount <==> title != "" && DigitsOf(text) != "" && Value(DigitsOf(text)) == 0
    ensures r.Saved? <==> title != "" && Value(DigitsOf(text)) > 0
    ensures r.Saved? ==> r.draft.amount == Value(DigitsOf(text))
  {
    var form := Fill(kind, title, cat, text);
    FormatAmountEmpty(text);
    if DigitsOf(text) != "" {
      FormatAmountKeepsValue(text);
    }
    assert cat != "";
    r := form.Save();
  }
}
