/** The dashboard: the greeting chosen by the hour, the budget bar with its
    three colour bands, and the short list of recent transactions. */
module Dashboard {
  import opened Palette
  import opened Fractions
  import opened Transactions

  const Morning := "Selamat Pagi"
  const Midday := "Selamat Siang"
  const Afternoon := "Selamat Sore"
  const Evening := "Selamat Malam"

  /** `getGreeting`, with the clock's hour given as the argument. Each hour
      falls in exactly one band: before 12, 12 to 14, 15 to 17, 18 on. */
  function Greeting(hour: int): (r: string)
    ensures r == Morning <==> hour < 12
    ensures r == Midday <==> 12 <= hour < 15
    ensures r == Afternoon <==> 15 <= hour < 18
    ensures r == Evening <==> 18 <= hour
  {
    if hour < 12 then Morning
    else if hour < 15 then Midday
    else if hour < 18 then Afternoon
    else Evening
  }

  /** Over a day the greeting only moves forward: a later hour never gets
      an earlier band. */
  lemma GreetingMonotone(h1: int, h2: int)
    requires h1 <= h2
    ensures Greeting(h1) == Evening ==> Greeting(h2) == Evening
    ensures Greeting(h1) == Afternoon ==> Greeting(h2) in {Afternoon, Evening}
    ensures Greeting(h1) == Midday ==> Greeting(h2) != Morning
  {
  }

  const BudgetLimit := 5000000

  /** `budgetUsed = (monthlyExpenses / budgetLimit) * 100`, kept exact. */
  function BudgetUsed(expenses: int, limit: int): (p: Ratio)
    requires limit > 0
    ensures WellFormed(p)
    ensures p.num * limit == expenses * 100 * p.den
    ensures Above(p, 100) <==> expenses > limit
    ensures Equals(p, 100) <==> expenses == limit
    ensures forall k: int :: (Above(p, k) <==> expenses * 100 > k * limit) && (Equals(p, k) <==> expenses * 100 == k * limit)
  {
    Ratio(expenses * 100, limit)
  }

  /** `Math.min(budgetUsed, 100)`, the bar's width in percent. */
  function BarWidth(used: Ratio): (w: Ratio)
    requires WellFormed(used)
    ensures WellFormed(w)
    ensures !Above(w, 100)
    ensures !Above(used, 100) ==> w == used
    ensures Above(used, 100) ==> Equals(w, 100)
  {
    if Above(used, 100) then Ratio(100, 1) else used
  }

  /** The bar's colour: error above 80, warning above 60, success otherwise.
      The three bands are disjoint and cover every usage value. */
  function BarColor(used: Ratio): (r: Role)
    requires WellFormed(used)
    ensures r in {ErrorColor, WarningColor, SuccessColor}
    ensures r == ErrorColor <==> Above(used, 80)
    ensures r == WarningColor <==> Above(used, 60) && !Above(used, 80)
    ensures r == SuccessColor <==> !Above(used, 60)
  {
    if Above(used, 80) then ErrorColor else if Above(used, 60) then WarningColor else SuccessColor
  }

  /** The bands in money: the bar is red once spending passes 4/5 of the
      limit, amber once it passes 3/5, green up to 3/5. */
  lemma BarColorBands(expenses: int, limit: int)
    requires limit > 0
    ensures BarColor(BudgetUsed(expenses, limit)) == ErrorColor <==> 5 * expenses > 4 * limit
    ensures BarColor(BudgetUsed(expenses, limit)) == WarningColor <==> 3 * limit < 5 * expenses <= 4 * limit
    ensures BarColor(BudgetUsed(expenses, limit)) == SuccessColor <==> 5 * expenses <= 3 * limit
  {
  }

  /** The usage label's colour: error above 80, muted text otherwise. */
  function LabelColor(used: Ratio): (r: Role)
    requires WellFormed(used)
    ensures r == ErrorColor <==> Above(used, 80)
    ensures r != ErrorColor ==> r == TextSecondary
  {
    if Above(used, 80) then ErrorColor else TextSecondary
  }

  /** The label turns red exactly when the bar does. */
  lemma LabelMatchesBar(used: Ratio)
    requires WellFormed(used)
    ensures LabelColor(used) == ErrorColor <==> BarColor(used) == ErrorColor
    ensures LabelColor(used) != ErrorColor ==> LabelColor(used) == TextSecondary
  {
  }

  /** Spending more never moves the bar to a calmer band. */
  lemma BandsMonotone(e1: int, e2: int, limit: int)
    requires limit > 0 && e1 <= e2
    ensures BarColor(BudgetUsed(e1, limit)) == ErrorColor ==> BarColor(BudgetUsed(e2, limit)) == ErrorColor
    ensures BarColor(BudgetUsed(e2, limit)) == SuccessColor ==> BarColor(BudgetUsed(e1, limit)) == SuccessColor
  {
  }

  /** The dashboard's own figures: 3,250,000 spent of 5,000,000 is 65%,
      inside the warning band. */
  lemma DashboardBudget()
    ensures BarColor(BudgetUsed(3250000, BudgetLimit)) == WarningColor
    ensures BarWidth(BudgetUsed(3250000, BudgetLimit)) == BudgetUsed(3250000, BudgetLimit)
  {
  }

  /** Exactly 80% is not above 80: 4,000,000 of 5,000,000 still shows the
      warning colour and the muted label. */
  lemma EightyPercentIsWarning()
    ensures Equals(BudgetUsed(4000000, BudgetLimit), 80)
    ensures BarColor(BudgetUsed(4000000, BudgetLimit)) == WarningColor
    ensures LabelColor(BudgetUsed(4000000, BudgetLimit)) == TextSecondary
  {
  }

  /** `mockTransactions.slice(0, 4)`. */
  function Recent(txs: seq<Transaction>): (r: seq<Transaction>)
    ensures |r| <= 4
    ensures |r| == if |txs| < 4 then |txs| else 4
    ensures forall i :: 0 <= i < |r| ==> r[i] == txs[i]
  {
    if |txs| <= 4 then txs else txs[..4]
  }
}
