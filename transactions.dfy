/** The transaction list screen: search by text, filter by type, and the
    income and expense totals shown above the list. */
module Transactions {
  import opened Text

  datatype TxType = Income | Expense

  /** The string a transaction's `type` field holds. */
  function TypeName(t: TxType): string
  {
    match t
    case Income => "income"
    case Expense => "expense"
  }

  /** A transaction record. `amount` is signed as in the mock data:
      income positive, expense negative. */
  datatype Transaction = Transaction(
    id: string,
    title: string,
    amount: int,
    category: string,
    date: string,
    kind: TxType)

  /** The search box matches a transaction when the lower-cased query is
      part of the lower-cased title or the lower-cased category. */
  predicate MatchesSearch(t: Transaction, query: string)
    ensures MatchesSearch(t, query) <==>
              Occurs(Lower(t.title), Lower(query)) || Occurs(Lower(t.category), Lower(query))
    ensures query == "" ==> MatchesSearch(t, query)
  {
    IncludesIff(Lower(t.title), Lower(query));
    IncludesIff(Lower(t.category), Lower(query));
    IncludesEmpty(Lower(t.title));
    || Includes(Lower(t.title), Lower(query))
    || Includes(Lower(t.category), Lower(query))
  }

  /** The predicate handed to `filter`: the search must match, and unless
      the selected chip is "all", the type must equal the chip's key. */
  predicate Keeps(t: Transaction, query: string, filter: string)
    ensures Keeps(t, query, filter) ==> filter == "all" || filter == TypeName(t.kind)
    ensures query == "" && (filter == "all" || filter == TypeName(t.kind)) ==> Keeps(t, query, filter)
  {
    if filter == "all" then MatchesSearch(t, query)
    else MatchesSearch(t, query) && TypeName(t.kind) == filter
  }

  /** `allTransactions.filter(...)`. */
  function Filtered(txs: seq<Transaction>, query: string, filter: string): (r: seq<Transaction>)
    ensures |r| <= |txs|
  {
    if txs == [] then []
    else (if Keeps(txs[0], query, filter) then [txs[0]] else []) + Filtered(txs[1..], query, filter)
  }

  /** One step of the filter: the first row, then the filtered rest. */
  lemma FilteredCons(x: Transaction, rest: seq<Transaction>, query: string, filter: string)
    ensures Filtered([x] + rest, query, filter)
            == (if Keeps(x, query, filter) then [x] else []) + Filtered(rest, query, filter)
  {
    assert ([x] + rest)[0] == x && ([x] + rest)[1..] == rest;
  }

  /** Regrouping concatenations, the only list algebra the filter proofs need. */
  lemma ConsAppend<T>(x: T, tail: seq<T>, b: seq<T>, h: seq<T>, c: seq<T>, d: seq<T>)
    ensures ([x] + tail) + b == [x] + (tail + b)
    ensures h + (c + d) == (h + c) + d
  {
  }

  /** Filtering a collection in two parts filters each part: so every kept
      row is listed once for each time it occurs, in the original order. */
  lemma {:induction false} FilteredAppend(a: seq<Transaction>, b: seq<Transaction>, query: string, filter: string)
    ensures Filtered(a + b, query, filter) == Filtered(a, query, filter) + Filtered(b, query, filter)
    decreases |a|
  {
    if a == [] {
      assert a + b == b;
    } else {
      var x, tail := a[0], a[1..];
      var h := if Keeps(x, query, filter) then [x] else [];
      var ft, fb := Filtered(tail, query, filter), Filtered(b, query, filter);
      assert a == [x] + tail;
      ConsAppend(x, tail, b, h, ft, fb);
      FilteredCons(x, tail + b, query, filter);
      FilteredAppend(tail, b, query, filter);
      FilteredCons(x, tail, query, filter);
    }
  }

  /** `a` is obtained from `b` by deleting elements, keeping the order of
      the rest. */
  predicate IsSubsequence<T(==)>(a: seq<T>, b: seq<T>)
    decreases |b|
  {
    if b == [] then a == []
    else IsSubsequence(a, b[1..]) || (a != [] && a[0] == b[0] && IsSubsequence(a[1..], b[1..]))
  }

  /** Filtering only deletes: it never adds, duplicates or reorders. */
  lemma {:induction false} FilteredIsSubsequence(txs: seq<Transaction>, query: string, filter: string)
    ensures IsSubsequence(Filtered(txs, query, filter), txs)
    decreases |txs|
  {
    if txs != [] {
      FilteredIsSubsequence(txs[1..], query, filter);
      var rest := Filtered(txs[1..], query, filter);
      if Keeps(txs[0], query, filter) {
        assert Filtered(txs, query, filter) == [txs[0]] + rest;
        assert ([txs[0]] + rest)[1..] == rest;
      } else {
        assert Filtered(txs, query, filter) == rest;
      }
    }
  }

  /** A transaction is listed exactly when it is in the collection and the
      filter predicate keeps it. */
  lemma {:induction false} FilteredMembership(txs: seq<Transaction>, query: string, filter: string, t: Transaction)
    ensures t in Filtered(txs, query, filter) <==> t in txs && Keeps(t, query, filter)
    decreases |txs|
  {
    if txs != [] {
      FilteredMembership(txs[1..], query, filter, t);
      assert txs == [txs[0]] + txs[1..];
    }
  }

  /** Under the "all" chip, a transaction is listed exactly when the
      lower-cased query occurs in its lower-cased title or category. */
  lemma SearchAllIff(txs: seq<Transaction>, query: string, t: Transaction)
    requires t in txs
    ensures t in Filtered(txs, query, "all") <==>
              Occurs(Lower(t.title), Lower(query)) || Occurs(Lower(t.category), Lower(query))
  {
    var title, category, q := Lower(t.title), Lower(t.category), Lower(query);
    FilteredMembership(txs, query, "all", t);
    assert Keeps(t, query, "all") <==> Includes(title, q) || Includes(category, q);
    IncludesIff(title, q);
    IncludesIff(category, q);
  }

  /** Under a type chip, a transaction is listed exactly when it has the
      chip's type and the lower-cased query occurs in its lower-cased title
      or category. */
  lemma TypeChipSearchIff(txs: seq<Transaction>, query: string, kind: TxType, t: Transaction)
    requires t in txs
    ensures t in Filtered(txs, query, TypeName(kind)) <==>
              t.kind == kind && (Occurs(Lower(t.title), Lower(query)) || Occurs(Lower(t.category), Lower(query)))
  {
    FilteredMembership(txs, query, TypeName(kind), t);
    assert TypeName(t.kind) == TypeName(kind) <==> t.kind == kind;
  }

  /** Under a type chip, every listed transaction has that type. */
  lemma FilteredHasType(txs: seq<Transaction>, query: string, kind: TxType)
    ensures forall t :: t in Filtered(txs, query, TypeName(kind)) ==> t.kind == kind
  {
    forall t | t in Filtered(txs, query, TypeName(kind)) ensures t.kind == kind {
      FilteredMembership(txs, query, TypeName(kind), t);
    }
  }

  /** A filter key other than the three chips lists nothing. */
  lemma {:induction false} UnknownFilterIsEmpty(txs: seq<Transaction>, query: string, filter: string)
    requires filter != "all" && filter != "income" && filter != "expense"
    ensures Filtered(txs, query, filter) == []
    decreases |txs|
  {
    if txs != [] {
      UnknownFilterIsEmpty(txs[1..], query, filter);
    }
  }

  /** When the filter keeps everything, the collection is returned whole. */
  lemma {:induction false} FilteredKeepsAll(txs: seq<Transaction>, query: string, filter: string)
    requires forall t :: t in txs ==> Keeps(t, query, filter)
    ensures Filtered(txs, query, filter) == txs
    decreases |txs|
  {
    if txs != [] {
      assert txs[0] in txs;
      FilteredKeepsAll(txs[1..], query, filter);
      assert txs == [txs[0]] + txs[1..];
    }
  }

  /** With an empty search box, the "all" chip lists every transaction and
      a type chip lists exactly the transactions of that type. */
  lemma EmptyQuery(txs: seq<Transaction>, t: Transaction)
    ensures Filtered(txs, "", "all") == txs
    ensures t in Filtered(txs, "", "income") <==> t in txs && t.kind == Income
    ensures t in Filtered(txs, "", "expense") <==> t in txs && t.kind == Expense
  {
    forall u | u in txs ensures Keeps(u, "", "all") {
      IncludesEmpty(Lower(u.title));
    }
    FilteredKeepsAll(txs, "", "all");
    IncludesEmpty(Lower(t.title));
    FilteredMembership(txs, "", "income", t);
    FilteredMembership(txs, "", "expense", t);
  }

  /** Filtering the filtered list again changes nothing. */
  lemma {:induction false} FilteredIdempotent(txs: seq<Transaction>, query: string, filter: string)
    ensures Filtered(Filtered(txs, query, filter), query, filter) == Filtered(txs, query, filter)
  {
    var r := Filtered(txs, query, filter);
    forall t | t in r ensures Keeps(t, query, filter) {
      FilteredMembership(txs, query, filter, t);
    }
    FilteredKeepsAll(r, query, filter);
  }

  /** `totalIncome`: the signed amounts of the income transactions. */
  function TotalIncome(txs: seq<Transaction>): (r: int)
    ensures (forall t :: t in txs ==> t.kind == Expense) ==> r == 0
    ensures (forall t :: t in txs ==> t.amount >= 0) ==> r >= 0
  {
    if txs == [] then 0
    else (if txs[0].kind == Income then txs[0].amount else 0) + TotalIncome(txs[1..])
  }

  /** Income is added with its sign: an income recorded with a negative
      amount lowers the total. */
  lemma IncomeIsSigned()
    ensures TotalIncome([Transaction("9", "Koreksi", -5000, "Other", "2024-01-20", Income)]) == -5000
    ensures TotalIncome([Transaction("9", "Koreksi", -5000, "Other", "2024-01-20", Income),
                         Transaction("2", "Gaji Bulanan", 8500000, "Salary", "2024-01-01", Income)]) == 8495000
  {
  }

  function Abs(x: int): nat
  {
    if x < 0 then -x else x
  }

  /** `totalExpenses`: the absolute amounts of the expense transactions,
      which can never be negative whatever the sign convention of the data. */
  function TotalExpenses(txs: seq<Transaction>): (r: int)
    ensures r >= 0
    ensures (forall t :: t in txs ==> t.kind == Income) ==> r == 0
  {
    if txs == [] then 0
    else (if txs[0].kind == Expense then Abs(txs[0].amount) else 0) + TotalExpenses(txs[1..])
  }

  /** The sum of every transaction's absolute amount. */
  function TotalMagnitude(txs: seq<Transaction>): int
  {
    if txs == [] then 0 else Abs(txs[0].amount) + TotalMagnitude(txs[1..])
  }

  /** When no income is recorded with a negative amount, the two totals
      together account for every transaction's magnitude. */
  lemma {:induction false} TotalsCoverAll(txs: seq<Transaction>)
    requires forall t :: t in txs && t.kind == Income ==> t.amount >= 0
    ensures TotalIncome(txs) + TotalExpenses(txs) == TotalMagnitude(txs)
    decreases |txs|
  {
    if txs != [] {
      assert txs[0] in txs;
      assert forall t :: t in txs[1..] ==> t in txs;
      TotalsCoverAll(txs[1..]);
    }
  }

  /** Each total is the sum over what the matching type chip lists when
      the search box is empty; the totals themselves never depend on the
      query or the chip, as they are computed from the whole collection. */
  lemma {:induction false} TotalsMatchTypeChips(txs: seq<Transaction>)
    ensures TotalIncome(Filtered(txs, "", "income")) == TotalIncome(txs)
    ensures TotalExpenses(Filtered(txs, "", "expense")) == TotalExpenses(txs)
    decreases |txs|
  {
    if txs != [] {
      TotalsMatchTypeChips(txs[1..]);
      IncludesEmpty(Lower(txs[0].title));
      var t := txs[0];
      var fi, fe := Filtered(txs[1..], "", "income"), Filtered(txs[1..], "", "expense");
      if t.kind == Income {
        assert Filtered(txs, "", "income") == [t] + fi;
        assert ([t] + fi)[1..] == fi;
        assert Filtered(txs, "", "expense") == fe;
      } else {
        assert Filtered(txs, "", "expense") == [t] + fe;
        assert ([t] + fe)[1..] == fe;
        assert Filtered(txs, "", "income") == fi;
      }
    }
  }

  /** What the list area shows when nothing is listed. */
  datatype EmptyState = EmptyState(message: string, hint: string)

  const NoMatchMessage := "Tidak ada transaksi yang cocok dengan pencarian"
  const NoDataMessage := "Belum ada transaksi"
  const FirstTransactionHint := "Mulai tambahkan transaksi pertama Anda"

  /** The list area: the rows, or the empty-state texts. */
  datatype ListArea = Rows(items: seq<Transaction>) | Empty(state: EmptyState)

  /** The empty state is chosen on the filtered list; its message and its
      hint depend only on whether the search box holds text (a non-empty
      string is truthy, and `false` renders as nothing). */
  function ListAreaOf(txs: seq<Transaction>, query: string, filter: string): (v: ListArea)
    ensures v.Empty? <==> Filtered(txs, query, filter) == []
    ensures v.Rows? ==> v.items == Filtered(txs, query, filter)
    ensures v.Empty? ==> (v.state.message == NoMatchMessage <==> query != "")
    ensures v.Empty? ==> (v.state.hint == "" <==> query != "")
    ensures v.Empty? && query == "" ==> v.state == EmptyState(NoDataMessage, FirstTransactionHint)
  {
    var items := Filtered(txs, query, filter);
    if |items| == 0 then
      Empty(EmptyState(
        if query != "" then NoMatchMessage else NoDataMessage,
        if query == "" then FirstTransactionHint else ""))
    else Rows(items)
  }

  /** The collection the screen searches. */
  const AllTransactions: seq<Transaction> := [
    Transaction("1", "Gojek - Transportasi", -25000, "Transport", "2024-01-15", Expense),
    Transaction("2", "Gaji Bulanan", 8500000, "Salary", "2024-01-01", Income),
    Transaction("3", "Indomaret - Belanja", -150000, "Shopping", "2024-01-14", Expense),
    Transaction("4", "Dana - Top Up", -500000, "Transfer", "2024-01-13", Expense),
    Transaction("5", "Freelance Project", 2500000, "Freelance", "2024-01-12", Income),
    Transaction("6", "Warteg Bahari", -35000, "Food", "2024-01-12", Expense),
    Transaction("7", "Listrik PLN", -450000, "Bills", "2024-01-10", Expense),
    Transaction("8", "Bonus Kinerja", 1000000, "Bonus", "2024-01-08", Income)
  ]

  /** The two summary cards for the sample collection. */
  lemma SampleTotals()
    ensures TotalIncome(AllTransactions) == 12000000
    ensures TotalExpenses(AllTransactions) == 1160000
  {
  }
}
