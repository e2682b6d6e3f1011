# Personal-finance app: the client-side rules, modelled in Dafny

The app is a set of React Native screens over in-memory sample data. Apart
from rendering, the screens apply a small set of rules:

- the transaction list searches by text and filters by type, and shows
  income and expense totals;
- the add-transaction form picks its category list from the route's `type`
  parameter, re-formats the amount on every keystroke, and validates before
  saving;
- the dashboard picks a greeting by the hour, draws a budget bar with
  clamping and three colour bands, and lists the first four transactions
  of the collection (the screen's "Transaksi Terbaru" list, taken in
  collection order; nothing sorts it by date);
- a transaction row looks up an icon and a colour by category, chooses the
  sign from the type, and strips the currency symbol from the formatted
  absolute amount;
- the reports screen sums the monthly figures, colours the net-income card
  by its sign, and scales the bar chart to its largest value.

These rules are modelled here, and what the screens promise about them is
proved.

Files and modules:

- `text.dfy` (`Text`): ASCII `toLowerCase`, `String.prototype.includes`, and
  the `\s` class of JavaScript regular expressions.
- `numerals.dfy` (`Numerals`): what `replace(/[^\d]/g, '')` keeps, the
  value a digit string denotes, and the id-ID integer format (groups of
  three separated by ".").
- `palette.dfy` (`Palette`): the theme colour roles the rules choose between.
- `fractions.dfy` (`Fractions`): exact ratios. The floating-point
  percentages and bar heights are compared by cross-multiplication.
- `transactions.dfy` (`Transactions`): app/transactions.tsx.
- `add_transaction.dfy` (`AddTransaction`): app/add-transaction.tsx. The
  form is a class whose fields are the input values. Its change handlers
  and `Save` are methods.
- `dashboard.dfy` (`Dashboard`): app/index.tsx.
- `transaction_item.dfy` (`TransactionItem`): components/TransactionItem.tsx.
- `reports.dfy` (`Reports`): app/reports.tsx.

On these points the model follows the code as written:

- Income is totalled with its signed `amount`; only expenses go through
  `Math.abs`. `TotalsCoverAll` therefore equates the two totals with the sum
  of magnitudes only when no income amount is negative.
- The currency formatter puts a no-break space after "Rp". The row strips
  "Rp" and that one whitespace character, then writes "Rp" back without a
  space. The row reads "+Rp8.500.000"; the formatter alone gives
  "Rp 8.500.000".
- The budget limit is the constant 5,000,000. The code has no zero-limit
  case, so `BudgetUsed` requires a positive limit.
- Net income on the reports screen is computed from the monthly figures,
  not from the transaction collection.

## Model

| member | source | states |
|---|---|---|
| Text.Lower | app/transactions.tsx:97-98 | lower-casing keeps the length, maps every character on its own, and leaves no upper-case ASCII letter |
| Text.Includes | app/transactions.tsx:97-98 | a string includes only needles no longer than itself, and always includes the empty needle |
| Text.LowerIdempotent | app/transactions.tsx:97-98 | lower-casing an already lower-cased string changes nothing |
| Text.IncludesIff | app/transactions.tsx:97-98 | the left-to-right scan `includes` is true exactly when the needle occurs at some position |
| Text.IncludesEmpty | app/transactions.tsx:97-100 | every string includes the empty query |
| Transactions.MatchesSearch | app/transactions.tsx:97-98 | the search matches iff the lower-cased query occurs in the lower-cased title or category; an empty query matches every transaction |
| Transactions.Keeps | app/transactions.tsx:96-102 | nothing is kept under a key other than "all" or the row's own type; under those keys an empty query keeps the row |
| Numerals.DigitsOf | app/add-transaction.tsx:57 | removing non-digits leaves only digits and never lengthens the text |
| Numerals.DigitsOfAppend | app/add-transaction.tsx:57 | digit extraction distributes over concatenation |
| Numerals.DigitsOfEmpty | app/add-transaction.tsx:57-58 | nothing is left exactly when the text holds no digit |
| Numerals.DigitsOfDigits | app/add-transaction.tsx:57 | a string of digits only is left as it is |
| Numerals.Value | app/add-transaction.tsx:35 | the number a digit string denotes is 0 iff every digit is "0" |
| Numerals.Show | app/add-transaction.tsx:61 | the decimal digits of a number: "0" for zero, and no leading zero otherwise |
| Numerals.Group | app/add-transaction.tsx:61 | up to three digits are left alone; longer strings end with a separator and the last three digits |
| Numerals.ValueOfShow | app/add-transaction.tsx:60-61 | the decimal digits of a number read back as that number |
| Numerals.ShowOfValue | app/add-transaction.tsx:60-61 | reading a digit string as a number and printing it drops exactly the leading zeros, keeping one digit |
| Numerals.DigitsOfGroup | app/add-transaction.tsx:61 | removing the "." separators from a grouped digit string gives back the digits |
| Numerals.GroupLength | app/add-transaction.tsx:61 | grouping adds one separator per three digits after the first group, and gives empty only for empty input |
| Numerals.GroupChars | app/add-transaction.tsx:61 | a grouped digit string holds only digits and "." separators |
| Numerals.GroupSeparators | app/add-transaction.tsx:61 | in a grouped digit string the separators stand exactly at every fourth position from the right end |
| Numerals.FormatNumber | app/add-transaction.tsx:61 | the id-ID format of a number holds only digits and separators, with a separator exactly at every fourth position from the right end and one for every three digits after the first group |
| Numerals.FormatNumberReadsBack | app/add-transaction.tsx:61 | the id-ID formatted number is non-empty and reads back as the same number |
| Numerals.SampleFormat | app/add-transaction.tsx:61 | 8500000 is formatted as "8.500.000" |
| Transactions.Filtered | app/transactions.tsx:96-102 | the filtered list is never longer than the collection |
| Transactions.FilteredIsSubsequence | app/transactions.tsx:96-102 | the filtered list is an order-preserving subsequence of the collection |
| Transactions.FilteredMembership | app/transactions.tsx:96-102 | a transaction is listed iff it is in the collection and the predicate keeps it |
| Transactions.FilteredAppend | app/transactions.tsx:96-102 | filtering a concatenation filters each part, so a kept row appears as often as in the collection and in its order |
| Transactions.SearchAllIff | app/transactions.tsx:97-100 | under "all", a transaction is listed iff the lower-cased query occurs in its lower-cased title or category |
| Transactions.TypeChipSearchIff | app/transactions.tsx:97-101 | under a type chip, a transaction is listed iff it has that type and the lower-cased query occurs in its lower-cased title or category |
| Transactions.FilteredHasType | app/transactions.tsx:101 | under the "income" or "expense" chip every listed transaction has that type |
| Transactions.UnknownFilterIsEmpty | app/transactions.tsx:100-101 | a filter key other than the three chips lists nothing |
| Transactions.FilteredKeepsAll | app/transactions.tsx:96-102 | when every transaction passes, the whole collection is returned |
| Transactions.EmptyQuery | app/transactions.tsx:97-101 | with an empty query, "all" returns the collection unchanged and a type chip lists exactly that type |
| Transactions.FilteredIdempotent | app/transactions.tsx:96-102 | filtering the filtered list again changes nothing |
| Transactions.TotalIncome | app/transactions.tsx:104-106 | the income total is 0 when there is no income, and not negative when no amount is |
| Transactions.IncomeIsSigned | app/transactions.tsx:104-106 | income is added with its sign: a negative income amount lowers the total |
| Transactions.TotalExpenses | app/transactions.tsx:108-110 | the expense total is never negative and is 0 when there are no expenses |
| Transactions.TotalsCoverAll | app/transactions.tsx:104-110 | with no negative income, income total plus expense total is the sum of all magnitudes |
| Transactions.TotalsMatchTypeChips | app/transactions.tsx:104-110 | each total equals the total of what its type chip lists under an empty query |
| Transactions.ListAreaOf | app/transactions.tsx:237-256 | the empty state shows iff nothing is listed; its no-match message shows iff the query is non-empty, and its hint shows iff the query is empty; with an empty query it is the no-data message with the first-transaction hint |
| Transactions.SampleTotals | app/transactions.tsx:104-110 | the sample collection totals 12,000,000 income and 1,160,000 expenses |
| AddTransaction.Categories | app/add-transaction.tsx:25-27 | the income list iff `type` is the single value "income"; the expense list for every other value, missing included |
| AddTransaction.AlertMessage | app/add-transaction.tsx:31-51 | the alert shows the missing-fields text, the invalid-amount text, or the success message of a save |
| AddTransaction.SuccessMessage | app/add-transaction.tsx:49-51 | the success text names an income transaction for an income form and an expense transaction for any other |
| AddTransaction.FormatAmount | app/add-transaction.tsx:56-62 | the formatted amount holds only digits and "." separators |
| AddTransaction.FormatAmountEmpty | app/add-transaction.tsx:56-58 | the formatted amount is empty iff the input has no digit |
| AddTransaction.FormatAmountDigits | app/add-transaction.tsx:56-62 | the digits of the formatted amount are those of the input without leading zeros |
| AddTransaction.FormatAmountIdempotent | app/add-transaction.tsx:56-67 | re-formatting formatted text changes nothing |
| AddTransaction.FormatAmountKeepsValue | app/add-transaction.tsx:56-62 | the formatted amount still has digits, and they denote the number typed |
| AddTransaction.AlertTellsOutcome | app/add-transaction.tsx:29-53 | each error alert text is shown for its own error only, never for the other error or for a success |
| AddTransaction.TransactionForm.constructor | app/add-transaction.tsx:18-23 | the form starts empty, with its invariant holding |
| AddTransaction.TransactionForm.SetTitle | app/add-transaction.tsx:148 | the title field takes the typed text; the invariant is kept |
| AddTransaction.TransactionForm.HandleAmountChange | app/add-transaction.tsx:64-67 | the amount field holds the formatted text, which is stable under re-formatting and keeps the typed number |
| AddTransaction.TransactionForm.SelectCategory | app/add-transaction.tsx:179-198 | pressing a chip sets the category to one of the offered chips |
| AddTransaction.TransactionForm.SetDescription | app/add-transaction.tsx:230 | the description field takes the typed text |
| AddTransaction.TransactionForm.Save | app/add-transaction.tsx:29-54 | empty title, amount or category is rejected first; then no digits or a zero value is rejected; otherwise the saved amount is the positive number the amount's digits denote; in a valid form the no-digit case cannot occur |
| AddTransaction.Fill | app/add-transaction.tsx:64-67 | a new form given a title, a chip and typed text holds that title and chip and the formatted amount, with its invariant |
| AddTransaction.TypeThenSave | app/add-transaction.tsx:29-67 | typing an amount and saving is refused as incomplete iff the title is empty or the text has no digit, refused as invalid iff the digits denote 0, and otherwise stores the typed number |
| Dashboard.Greeting | app/index.tsx:66-72 | Pagi under 12, Siang for 12-14, Sore for 15-17, Malam from 18; each hour gets exactly one |
| Dashboard.GreetingMonotone | app/index.tsx:66-72 | a later hour never gets an earlier greeting |
| Dashboard.BudgetUsed | app/index.tsx:74-75 | the usage is the exact ratio expenses*100/limit: above k% iff expenses*100 > k*limit and exactly k% iff they are equal, for every k; in particular above 100% iff expenses exceed the limit |
| Dashboard.BarWidth | app/index.tsx:240 | the width never exceeds 100, equals the usage up to 100, and is 100 beyond |
| Dashboard.BarColor | app/index.tsx:241 | error iff above 80, warning iff above 60 and not above 80, success iff not above 60; the bands are disjoint and cover every value |
| Dashboard.BarColorBands | app/index.tsx:241 | in money: red iff spending passes 4/5 of the limit, amber iff it passes 3/5 but not 4/5, green up to 3/5 |
| Dashboard.LabelColor | app/index.tsx:252 | the label is red iff the usage is above 80, and muted otherwise |
| Dashboard.LabelMatchesBar | app/index.tsx:241-252 | the usage label is red iff the bar is red, and muted otherwise |
| Dashboard.BandsMonotone | app/index.tsx:241 | spending more never moves the bar to a calmer band |
| Dashboard.DashboardBudget | app/index.tsx:56-75 | the dashboard's 3,250,000 of 5,000,000 is in the warning band and is not clamped |
| Dashboard.EightyPercentIsWarning | app/index.tsx:241-252 | 4,000,000 of 5,000,000 is exactly 80%, which still shows the warning bar and the muted label |
| Dashboard.Recent | app/index.tsx:198 | the recent list has at most four items, exactly min(4, n), and is a prefix of the collection |
| TransactionItem.CategoryIcon | components/TransactionItem.tsx:50-64 | the listed icon for the ten categories, "ellipse" for any other string |
| TransactionItem.CategoryColor | components/TransactionItem.tsx:66-80 | the listed hex colour for the ten categories, the theme's primary colour otherwise |
| TransactionItem.TablesAgree | components/TransactionItem.tsx:50-80 | a category falls back on its icon iff it falls back on its colour |
| TransactionItem.AmountColor | components/TransactionItem.tsx:90-92 | the income colour iff the type is income, the expense colour iff expense |
| TransactionItem.AmountPrefix | components/TransactionItem.tsx:94-96 | "+" iff the type is income, "-" iff expense |
| TransactionItem.StripRp | components/TransactionItem.tsx:102 | removing the symbol shortens the text by at most three characters |
| TransactionItem.StripRpWithoutMatch | components/TransactionItem.tsx:102 | text without "Rp" is left unchanged |
| TransactionItem.StripRpFirstMatch | components/TransactionItem.tsx:102 | only the first "Rp" is removed, with at most one whitespace character after it |
| TransactionItem.FormatAmount | components/TransactionItem.tsx:99-103 | the displayed figure is the formatter's text for the absolute amount, at most three characters shorter |
| TransactionItem.AmountLabel | components/TransactionItem.tsx:207 | the label is the sign, then "Rp", then the figure; the sign is "+" iff income and "-" iff expense |
| TransactionItem.IdrCurrency | app/transactions.tsx:88-94 | the currency format is an optional "-" exactly for negative amounts, "Rp", a no-break space, and the grouped absolute amount |
| TransactionItem.FormatAmountIgnoresSign | components/TransactionItem.tsx:99-100 | the displayed figure is the same for an amount and its negation |
| TransactionItem.LabelSignFromType | components/TransactionItem.tsx:207 | the label is unchanged by flipping the stored sign, and starts with "+" iff the type is income |
| TransactionItem.LabelWithIdrCurrency | components/TransactionItem.tsx:99-103 | with the id-ID currency formatter the label is the prefix, "Rp" and the grouped absolute amount |
| TransactionItem.SalaryLabel | components/TransactionItem.tsx:207 | the sample salary row reads "+Rp8.500.000" |
| Reports.NetIsSumOfMonthlyNets | app/reports.tsx:45-47 | net income equals the sum of each month's income minus expense |
| Reports.TotalIncome | app/reports.tsx:45 | the income total is not negative when no month's income is |
| Reports.TotalExpense | app/reports.tsx:46 | the expense total is not negative when no month's expense is |
| Reports.NetIncome | app/reports.tsx:47 | the net income is not negative when no month spends more than it earns |
| Reports.SurplusMonths | app/reports.tsx:45-47 | months that each earn at least what they spend give a period that does too |
| Reports.TotalsAppend | app/reports.tsx:45-46 | both totals split over consecutive periods |
| Reports.NetCardOf | app/reports.tsx:143-156 | income colour and "trending-up" iff net income is at least 0; expense colour and "trending-down" iff it is negative |
| Reports.NetCardConsistent | app/reports.tsx:143-156 | the card's colour and icon agree, and the card is green iff total income is at least total expense |
| Reports.MaxAmount | app/reports.tsx:194 | the maximum is at least every month's income and expense, and equals one of them |
| Reports.BarHeight | app/reports.tsx:195-196 | for a positive maximum the bar is exactly 120 iff the value is the maximum, above 120 iff it exceeds it, and above 0 iff the value is positive |
| Reports.BarsFitChart | app/reports.tsx:194-196 | no bar is taller than 120, and a bar for a non-negative amount is not negative |
| Reports.TallestBarIsFull | app/reports.tsx:194-196 | some bar is exactly 120 tall |
| Reports.SampleReport | app/reports.tsx:28-47 | the sample months total 54,700,000 income and 23,100,000 expense, so the net is 31,600,000 and the card is green |

## Left out

- Rendering, animation, theme switching, navigation (`router.back`, `router.push`), alerts and `console.log` are left out. The alert for each outcome of `Save` is its `AlertMessage` text.
- `new Date().getHours()` is left out; `Greeting` takes the hour as its argument.
- `Intl.NumberFormat` is a foreign locale call. `Numerals.FormatNumber` models only the id-ID grouping of non-negative integers. `TransactionItem.IdrCurrency` models the currency style as "Rp", a no-break space and the grouped digits, with "-" in front for negative values. The row takes the screen's formatter as a parameter.
- `toLocaleDateString` (the row's date) is left out.
- `toLowerCase` folds only ASCII letters here; Unicode case mappings are left out.
- Floating point is left out. Percentages and bar heights are exact ratios. `budgetUsed.toFixed(1)` is not modelled.
- Dashboard.BudgetUsed: requires a positive limit. The source divides by the constant 5,000,000, so a zero limit (NaN or Infinity in JavaScript) never occurs.
- Reports.BarHeight: requires a positive maximum, and so do Reports.BarsFitChart and Reports.TallestBarIsFull. A non-positive maximum is not modelled. If every month's income and expense is 0, the source computes 0/0, which gives NaN. If every figure is negative, the maximum is negative and bars come out taller than 120 pixels: one month with income -10 and expense -5 has a maximum of -5 and an income bar of 240.
- AddTransaction.TransactionForm.Save: does not model `parseFloat` losing precision above 2^53 or overflowing to Infinity on extremely long digit strings. The model reads the exact integer.
- AddTransaction.FormatAmount: does not model `parseInt` precision above 2^53; the model uses the exact integer.
- TransactionItem.CategoryIcon: names inherited from `Object.prototype` (such as "toString" or "constructor") are treated as unlisted. In JavaScript they would return the inherited function rather than the fallback.
- TransactionItem.CategoryColor: for the same reason, names inherited from `Object.prototype` (such as "toString", "constructor" or "__proto__") get `Themed(Primary)`. In JavaScript `colorMap[category] || colors.primary` would use the inherited value as the colour.
- The categorised expense breakdown on the reports screen (percentages hard-coded in the data) and the period selector hold no logic and are left out.
- `useLocalSearchParams` is modelled only as missing, one value, or several values (`AddTransaction.RouteParam`).
