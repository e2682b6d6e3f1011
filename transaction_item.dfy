/** One row of a transaction list: the category's icon and colour, and the
    signed amount label built from the screen's currency formatter. */
module TransactionItem {
  import opened Text
  import opened Numerals
  import opened Palette
  import opened Transactions

  const IconMap: map<string, string> := map[
    "Transport" := "car",
    "Shopping" := "bag",
    "Food" := "restaurant",
    "Salary" := "card",
    "Freelance" := "laptop",
    "Transfer" := "swap-horizontal",
    "Entertainment" := "game-controller",
    "Bills" := "receipt",
    "Health" := "medical",
    "Bonus" := "gift"
  ]

  const ColorMap: map<string, string> := map[
    "Transport" := "#3B82F6",
    "Shopping" := "#8B5CF6",
    "Food" := "#F59E0B",
    "Salary" := "#10B981",
    "Freelance" := "#6366F1",
    "Transfer" := "#06B6D4",
    "Entertainment" := "#EC4899",
    "Bills" := "#EF4444",
    "Health" := "#84CC16",
    "Bonus" := "#F97316"
  ]

  /** `m[key]`, where a missing key reads as a falsy value. */
  function Lookup(m: map<string, string>, key: string): string
  {
    if key in m then m[key] else ""
  }

  /** `iconMap[category] || 'ellipse'`. No entry is empty, so the fallback
      is taken exactly for categories outside the table. */
  function CategoryIcon(category: string): (r: string)
    ensures category in IconMap ==> r == IconMap[category]
    ensures category !in IconMap ==> r == "ellipse"
  {
    var icon := Lookup(IconMap, category);
    if icon != "" then icon else "ellipse"
  }

  /** `colorMap[category] || colors.primary`: a fixed hex colour for the
      listed categories, the theme's primary colour for any other. */
  function CategoryColor(category: string): (r: Color)
    ensures category in ColorMap ==> r == Hex(ColorMap[category])
    ensures category !in ColorMap ==> r == Themed(Primary)
  {
    var code := Lookup(ColorMap, category);
    if code != "" then Hex(code) else Themed(Primary)
  }

  /** Both tables cover the same ten categories. */
  lemma TablesAgree(category: string)
    ensures category in IconMap <==> category in ColorMap
    ensures CategoryIcon(category) == "ellipse" <==> CategoryColor(category) == Themed(Primary)
  {
  }

  /** `getAmountColor`. */
  function AmountColor(kind: TxType): (r: Role)
    ensures r == IncomeColor <==> kind == Income
    ensures r == ExpenseColor <==> kind.Expense?
  {
    if kind == Income then IncomeColor else ExpenseColor
  }

  /** `getAmountPrefix`. */
  function AmountPrefix(kind: TxType): (r: string)
    ensures r == "+" <==> kind == Income
    ensures r == "-" <==> kind.Expense?
  {
    if kind == Income then "+" else "-"
  }

  /** `formatted.replace(/Rp\s?/, '')`: delete the first "Rp" together with
      one whitespace character right after it, if there is one. */
  function StripRp(s: string): (r: string)
    ensures |s| - 3 <= |r| <= |s|
    decreases |s|
  {
    if |s| < 2 then s
    else if s[0] == 'R' && s[1] == 'p' then
      (if |s| > 2 && IsJsWhitespace(s[2]) then s[3..] else s[2..])
    else [s[0]] + StripRp(s[1..])
  }

  /** An "Rp" starts at position `i` of `s`. */
  predicate RpAt(s: string, i: int)
  {
    0 <= i && i + 1 < |s| && s[i] == 'R' && s[i + 1] == 'p'
  }

  /** Without an "Rp" the text is left as it is. */
  lemma {:induction false} StripRpWithoutMatch(s: string)
    requires forall j :: !RpAt(s, j)
    ensures StripRp(s) == s
    decreases |s|
  {
    if |s| >= 2 {
      assert !RpAt(s, 0);
      forall j ensures !RpAt(s[1..], j) {
        assert !RpAt(s, j + 1);
      }
      StripRpWithoutMatch(s[1..]);
    }
  }

  /** With an "Rp" at `i` and none before it, exactly that occurrence is
      removed, plus one whitespace character after it if present. */
  lemma {:induction false} StripRpFirstMatch(s: string, i: nat)
    requires RpAt(s, i)
    requires forall j :: 0 <= j < i ==> !RpAt(s, j)
    ensures StripRp(s) == s[..i] + (if i + 2 < |s| && IsJsWhitespace(s[i + 2]) then s[i + 3..] else s[i + 2..])
    decreases i
  {
    if i > 0 {
      assert !RpAt(s, 0);
      var t := s[1..];
      assert StripRp(s) == [s[0]] + StripRp(t);
      assert RpAt(t, i - 1);
      forall j | 0 <= j < i - 1 ensures !RpAt(t, j) {
        assert !RpAt(s, j + 1);
      }
      StripRpFirstMatch(t, i - 1);
      assert s[..i] == [s[0]] + t[..i - 1];
      assert t[i + 1..] == s[i + 2..] && (i + 1 < |t| ==> t[i + 2..] == s[i + 3..] && t[i + 1] == s[i + 2]);
    }
  }

  /** `formatAmount`: format the absolute value, then strip the symbol. */
  function FormatAmount(amount: int, formatCurrency: int -> string): (r: string)
    ensures |formatCurrency(Abs(amount))| - 3 <= |r| <= |formatCurrency(Abs(amount))|
  {
    StripRp(formatCurrency(Abs(amount)))
  }

  /** The displayed figure ignores the sign of the stored amount. */
  lemma FormatAmountIgnoresSign(amount: int, formatCurrency: int -> string)
    ensures FormatAmount(amount, formatCurrency) == FormatAmount(-amount, formatCurrency)
  {
  }

  /** The row's amount text, `{getAmountPrefix()}Rp{formatAmount(amount)}`. */
  function AmountLabel(t: Transaction, formatCurrency: int -> string): (r: string)
    ensures |r| >= 3 && RpAt(r, 1)
    ensures r[3..] == FormatAmount(t.amount, formatCurrency)
    ensures r[0] == '+' <==> t.kind == Income
    ensures r[0] == '-' <==> t.kind == Expense
  {
    AmountPrefix(t.kind) + "Rp" + FormatAmount(t.amount, formatCurrency)
  }

  /** The sign shown comes from the type alone: flipping the stored sign
      leaves the label unchanged, and it starts with "+" exactly for income. */
  lemma LabelSignFromType(t: Transaction, formatCurrency: int -> string)
    ensures AmountLabel(t, formatCurrency) == AmountLabel(t.(amount := -t.amount), formatCurrency)
    ensures AmountLabel(t, formatCurrency)[0] == '+' <==> t.kind == Income
  {
  }

  /** `Intl.NumberFormat('id-ID', {style: 'currency', currency: 'IDR',
      minimumFractionDigits: 0}).format(n)` for whole amounts, as the
      screens' `formatCurrency` calls it (app/transactions.tsx:88-94): the
      symbol, a no-break space, and the grouped digits. */
  function IdrCurrency(n: int): (r: string)
    ensures |r| >= 3 && (r[0] == '-' <==> n < 0)
    ensures var k := if n < 0 then 1 else 0;
      RpAt(r, k) && k + 2 < |r| && r[k + 2] == '\U{A0}' && r[k + 3..] == FormatNumber(Abs(n))
  {
    (if n < 0 then "-" else "") + "Rp" + ['\U{A0}'] + FormatNumber(Abs(n))
  }

  /** With the id-ID formatter, the row shows the sign, "Rp" and the
      grouped absolute amount with nothing between them. */
  lemma LabelWithIdrCurrency(t: Transaction)
    ensures AmountLabel(t, IdrCurrency) == AmountPrefix(t.kind) + "Rp" + FormatNumber(Abs(t.amount))
  {
    var s := IdrCurrency(Abs(t.amount));
    assert s == "Rp" + ['\U{A0}'] + FormatNumber(Abs(t.amount));
    assert RpAt(s, 0) && IsJsWhitespace(s[2]);
    StripRpFirstMatch(s, 0);
  }

  /** The sample salary row: "+Rp8.500.000". */
  lemma SalaryLabel()
    ensures AmountLabel(Transaction("2", "Gaji Bulanan", 8500000, "Salary", "2024-01-01", Income), IdrCurrency)
            == "+Rp8.500.000"
  {
    SampleFormat();
    LabelWithIdrCurrency(Transaction("2", "Gaji Bulanan", 8500000, "Salary", "2024-01-01", Income));
  }
}
