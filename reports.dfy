/** The reports screen: totals over the monthly figures, the net income
    card, and the monthly bar chart scaled to its largest value. */
module Reports {
  import opened Palette
  import opened Fractions

  /** One month of the chart data. */
  datatype MonthData = MonthData(month: string, income: int, expense: int)

  /** `monthlyData.reduce((sum, item) => sum + item.income, 0)`. */
  function TotalIncome(data: seq<MonthData>): (r: int)
    ensures (forall i :: 0 <= i < |data| ==> data[i].income >= 0) ==> r >= 0
    decreases |data|
  {
    if data == [] then 0 else data[0].income + TotalIncome(data[1..])
  }

  /** `monthlyData.reduce((sum, item) => sum + item.expense, 0)`. */
  function TotalExpense(data: seq<MonthData>): (r: int)
    ensures (forall i :: 0 <= i < |data| ==> data[i].expense >= 0) ==> r >= 0
    decreases |data|
  {
    if data == [] then 0 else data[0].expense + TotalExpense(data[1..])
  }

  /** `netIncome = totalIncome - totalExpense`. */
  function NetIncome(data: seq<MonthData>): (r: int)
    ensures (forall i :: 0 <= i < |data| ==> data[i].expense <= data[i].income) ==> r >= 0
  {
    SurplusMonths(data);
    TotalIncome(data) - TotalExpense(data)
  }

  /** When no month spends more than it earns, neither does the period. */
  lemma {:induction false} SurplusMonths(data: seq<MonthData>)
    ensures (forall i :: 0 <= i < |data| ==> data[i].expense <= data[i].income) ==>
              TotalExpense(data) <= TotalIncome(data)
    decreases |data|
  {
    if data != [] {
      SurplusMonths(data[1..]);
      assert forall i :: 1 <= i < |data| ==> data[i] == data[1..][i - 1];
    }
  }

  /** The sum of each month's own balance. */
  function SumOfMonthlyNets(data: seq<MonthData>): int
  {
    if data == [] then 0 else (data[0].income - data[0].expense) + SumOfMonthlyNets(data[1..])
  }

  /** The net income is the sum of the monthly balances. */
  lemma {:induction false} NetIsSumOfMonthlyNets(data: seq<MonthData>)
    ensures NetIncome(data) == SumOfMonthlyNets(data)
    decreases |data|
  {
    if data != [] {
      NetIsSumOfMonthlyNets(data[1..]);
    }
  }

  /** The totals split over consecutive periods. */
  lemma {:induction false} TotalsAppend(a: seq<MonthData>, b: seq<MonthData>)
    ensures TotalIncome(a + b) == TotalIncome(a) + TotalIncome(b)
    ensures TotalExpense(a + b) == TotalExpense(a) + TotalExpense(b)
    decreases |a|
  {
    if a == [] {
      assert a + b == b;
    } else {
      assert (a + b)[1..] == a[1..] + b;
      TotalsAppend(a[1..], b);
    }
  }

  /** The net income card: its background and its trend icon. */
  datatype NetCard = NetCard(background: Role, icon: string)

  function NetCardOf(netIncome: int): (c: NetCard)
    ensures c.background == IncomeColor <==> netIncome >= 0
    ensures c.background == ExpenseColor <==> netIncome < 0
    ensures c.icon == "trending-up" <==> netIncome >= 0
    ensures c.icon == "trending-down" <==> netIncome < 0
  {
    NetCard(
      if netIncome >= 0 then IncomeColor else ExpenseColor,
      if netIncome >= 0 then "trending-up" else "trending-down")
  }

  /** The card's colour and its icon always tell the same story. */
  lemma NetCardConsistent(data: seq<MonthData>)
    ensures var card := NetCardOf(NetIncome(data));
      (card.background == IncomeColor <==> card.icon == "trending-up")
      && (card.background == IncomeColor <==> TotalIncome(data) >= TotalExpense(data))
  {
  }

  function Max(a: int, b: int): int
  {
    if a >= b then a else b
  }

  /** `Math.max(...monthlyData.map(d => Math.max(d.income, d.expense)))`.
      It is evaluated inside the callback of `monthlyData.map`, so only
      when there is at least one month. */
  function MaxAmount(data: seq<MonthData>): (m: int)
    requires data != []
    ensures forall i :: 0 <= i < |data| ==> data[i].income <= m && data[i].expense <= m
    ensures exists i :: 0 <= i < |data| && (m == data[i].income || m == data[i].expense)
  {
    if |data| == 1 then Max(data[0].income, data[0].expense)
    else
      var rest := MaxAmount(data[1..]);
      assert forall i :: 1 <= i < |data| ==> data[i] == data[1..][i - 1];
      Max(Max(data[0].income, data[0].expense), rest)
  }

  /** A bar's height in pixels, `value / maxAmount * 120`, kept exact. */
  function BarHeight(value: int, maxAmount: int): (h: Ratio)
    requires maxAmount > 0
    ensures WellFormed(h)
    ensures Equals(h, 120) <==> value == maxAmount
    ensures Above(h, 120) <==> value > maxAmount
    ensures Above(h, 0) <==> value > 0
  {
    Ratio(value * 120, maxAmount)
  }

  /** No bar is taller than the chart's 120 pixels, and bars of
      non-negative amounts do not point downwards. */
  lemma BarsFitChart(data: seq<MonthData>, i: nat)
    requires data != [] && i < |data| && MaxAmount(data) > 0
    ensures !Above(BarHeight(data[i].income, MaxAmount(data)), 120)
    ensures !Above(BarHeight(data[i].expense, MaxAmount(data)), 120)
    ensures data[i].income >= 0 ==> BarHeight(data[i].income, MaxAmount(data)).num >= 0
    ensures data[i].expense >= 0 ==> BarHeight(data[i].expense, MaxAmount(data)).num >= 0
  {
    var m := MaxAmount(data);
    assert data[i].income <= m && data[i].expense <= m;
  }

  /** Some bar reaches the full 120 pixels. */
  lemma TallestBarIsFull(data: seq<MonthData>)
    requires data != [] && MaxAmount(data) > 0
    ensures exists i :: 0 <= i < |data| &&
              (Equals(BarHeight(data[i].income, MaxAmount(data)), 120)
               || Equals(BarHeight(data[i].expense, MaxAmount(data)), 120))
  {
    var m := MaxAmount(data);
    var k :| 0 <= k < |data| && (m == data[k].income || m == data[k].expense);
    assert Equals(BarHeight(data[k].income, m), 120) || Equals(BarHeight(data[k].expense, m), 120);
  }

  /** The six months the screen charts. */
  const MonthlyData: seq<MonthData> := [
    MonthData("Jan", 8500000, 3200000),
    MonthData("Feb", 9200000, 3800000),
    MonthData("Mar", 8800000, 3500000),
    MonthData("Apr", 9500000, 4200000),
    MonthData("May", 8900000, 3900000),
    MonthData("Jun", 9800000, 4500000)
  ]

  /** The figures the screen shows for its data. */
  lemma SampleReport()
    ensures TotalIncome(MonthlyData) == 54700000
    ensures TotalExpense(MonthlyData) == 23100000
    ensures NetIncome(MonthlyData) == 31600000
    ensures NetCardOf(NetIncome(MonthlyData)) == NetCard(IncomeColor, "trending-up")
  {
  }
}
