/** The figures the dashboard page derives from the provider's transactions
    and budget: this month's totals, the remaining budget, the spending per
    category, the 6-month expense trend and the 8 most recent transactions.
    "Now" is a parameter. */
module Dashboard {
  import opened Calendar
  import opened Sequences
  import opened Tallies
  import opened Expense

  /** The predicate of `isWithinInterval(t.date, {start: startOfMonth(now),
      end: endOfMonth(now)})` for the month with index `mi`. */
  function InMonthOf(mi: int): Transaction -> bool {
    (t: Transaction) => InMonth(t.date, mi)
  }

  /** `t.type === 'expense' && isWithinInterval(...)` for the month `mi`. */
  function ExpenseIn(mi: int): Transaction -> bool {
    (t: Transaction) => IsExpense(t) && InMonth(t.date, mi)
  }

  /** `monthTx` */
  function MonthTx(txs: seq<Transaction>, now: Instant): seq<Transaction> {
    Filter(txs, InMonthOf(MonthIndex(now)))
  }

  /** `monthTx` keeps, in order, exactly the transactions dated in the
      current month, every copy of each. */
  lemma MonthTxSpec(txs: seq<Transaction>, now: Instant)
    ensures IsSubsequence(MonthTx(txs, now), txs)
    ensures forall t :: t in MonthTx(txs, now) <==> t in txs && MonthIndex(t.date) == MonthIndex(now)
    ensures forall t :: multiset(MonthTx(txs, now))[t] == if MonthIndex(t.date) == MonthIndex(now) then multiset(txs)[t] else 0
  {
    FilterIsSubsequence(txs, InMonthOf(MonthIndex(now)));
    forall t ensures t in MonthTx(txs, now) <==> t in txs && MonthIndex(t.date) == MonthIndex(now) {
      FilterMembers(txs, InMonthOf(MonthIndex(now)), t);
    }
    forall t ensures multiset(MonthTx(txs, now))[t] == if MonthIndex(t.date) == MonthIndex(now) then multiset(txs)[t] else 0 {
      FilterCount(txs, InMonthOf(MonthIndex(now)), t);
    }
  }

  function MonthExpenses(txs: seq<Transaction>, now: Instant): seq<Transaction> {
    Filter(MonthTx(txs, now), IsExpense)
  }

  /** `spent` */
  function Spent(txs: seq<Transaction>, now: Instant): real {
    SumBy(MonthExpenses(txs, now), Amount)
  }

  /** `income` */
  function Income(txs: seq<Transaction>, now: Instant): real {
    SumBy(Filter(MonthTx(txs, now), IsIncome), Amount)
  }

  /** What one transaction adds to the month's balance: an income its
      amount, an expense minus its amount. */
  function Net(t: Transaction): real {
    if IsIncome(t) then t.amount else -t.amount
  }

  /** The net amounts add up to income less spending. */
  lemma {:induction false} NetSum(s: seq<Transaction>)
    ensures SumBy(s, Net) == SumBy(Filter(s, IsIncome), Amount) - SumBy(Filter(s, IsExpense), Amount)
  {
    if |s| > 0 {
      var init, x := s[..|s| - 1], s[|s| - 1];
      NetSum(init);
      SumByAppend(Filter(init, IsIncome), if IsIncome(x) then [x] else [], Amount);
      SumByAppend(Filter(init, IsExpense), if IsExpense(x) then [x] else [], Amount);
    }
  }

  /** `savings = income - spent`: the month's balance, each transaction of
      the month counted by its net amount. */
  function Savings(txs: seq<Transaction>, now: Instant): (r: real)
    ensures r + Spent(txs, now) == Income(txs, now)
    ensures r == SumBy(MonthTx(txs, now), Net)
  {
    NetSum(MonthTx(txs, now));
    Income(txs, now) - Spent(txs, now)
  }

  /** Every transaction of the month is an expense or an income, so spending
      and income together are the month's whole turnover, and savings are
      that turnover less twice the spending. */
  lemma MonthSplit(txs: seq<Transaction>, now: Instant)
    ensures Spent(txs, now) + Income(txs, now) == SumBy(MonthTx(txs, now), Amount)
    ensures Savings(txs, now) == SumBy(MonthTx(txs, now), Amount) - 2.0 * Spent(txs, now)
  {
    FilterPartitionSum(MonthTx(txs, now), IsExpense, IsIncome, Amount);
  }

  /** `Math.max(0, (budget || 0) - spent)`: never negative; what is left of a
      budget that covers the spending, else 0, with a falsy budget read as 0. */
  function Remaining(budget: JsNumber, spent: real): (r: real)
    ensures r >= 0.0
    ensures r >= OrZero(budget) - spent
    ensures r == 0.0 || r == OrZero(budget) - spent
  {
    if OrZero(budget) - spent > 0.0 then OrZero(budget) - spent else 0.0
  }

  // ---------------------------------------------------------------------
  // recent

  /** The order of `sort((a, b) => +new Date(b.date) - +new Date(a.date))`:
      `a` may come before `b` when it is not older. */
  predicate NewerOrSame(a: Transaction, b: Transaction) {
    Rank(b.date) <= Rank(a.date)
  }

  lemma NewerOrSamePreorder()
    ensures TotalPreorder(NewerOrSame)
  {
  }

  /** The sort puts newer transactions first and keeps every one. */
  lemma SortedNewestFirst(txs: seq<Transaction>)
    ensures SortedBy(SortBy(txs, NewerOrSame), NewerOrSame)
    ensures |SortBy(txs, NewerOrSame)| == |txs|
  {
    NewerOrSamePreorder();
    SortBySorted(txs, NewerOrSame);
    assert |SortBy(txs, NewerOrSame)| == |multiset(SortBy(txs, NewerOrSame))| == |txs|;
  }

  /** `[...transactions].sort(...).slice(0, 8)`; `transactions` itself is a
      value here and is not touched. */
  function Recent(txs: seq<Transaction>): seq<Transaction> {
    var sorted := SortBy(txs, NewerOrSame);
    if |sorted| <= 8 then sorted else sorted[..8]
  }

  /** `recent` holds the min(8, n) newest transactions, newest first, drawn
      from `transactions`; none left out is newer than one kept. */
  lemma RecentSpec(txs: seq<Transaction>)
    ensures |Recent(txs)| == if |txs| <= 8 then |txs| else 8
    ensures SortedBy(Recent(txs), NewerOrSame)
    ensures multiset(Recent(txs)) <= multiset(txs)
    ensures forall x, y :: x in Recent(txs) && y in multiset(txs) - multiset(Recent(txs)) ==> NewerOrSame(x, y)
  {
    SortedNewestFirst(txs);
    var sorted := SortBy(txs, NewerOrSame);
    var n := if |sorted| <= 8 then |sorted| else 8;
    assert Recent(txs) == sorted[..n];
    SortedPrefixFirst(sorted, n, NewerOrSame);
  }

  // ---------------------------------------------------------------------
  // categoryMap (the pie chart)

  /** The `forEach` that fills `categoryMap` with this month's spending per
      category. */
  method CategoryMap(txs: seq<Transaction>, now: Instant) returns (m: Tally)
    ensures WellFormed(m)
    ensures Total(m) == Spent(txs, now)
    ensures forall k :: k in m.keys <==> exists i :: 0 <= i < |MonthExpenses(txs, now)| && MonthExpenses(txs, now)[i].category == k
    ensures m.keys == Distinct(KeysOf(MonthExpenses(txs, now), CategoryOf))
    ensures forall k :: Get(m, k) == SumBy(Filter(MonthExpenses(txs, now), KeyIs(CategoryOf, k)), Amount)
  {
    var items := MonthExpenses(txs, now);
    m := TallyBy(items, CategoryOf, Amount);
    GroupSumOrder(items, CategoryOf, Amount);
    GroupSumTotal(items, CategoryOf, Amount);
    forall k ensures k in m.keys <==> exists i :: 0 <= i < |items| && items[i].category == k {
      GroupSumKeys(items, CategoryOf, Amount, k);
    }
    forall k ensures Get(m, k) == SumBy(Filter(items, KeyIs(CategoryOf, k)), Amount) {
      GroupSumGet(items, CategoryOf, Amount, k);
    }
  }

  // ---------------------------------------------------------------------
  // the 6-month trend

  /** The expense total of the month with index `mi`. */
  function MonthExpenseSum(txs: seq<Transaction>, mi: int): real {
    SumBy(Filter(txs, ExpenseIn(mi)), Amount)
  }

  /** The trend's total for the current month is `spent`. */
  lemma CurrentMonthTrend(txs: seq<Transaction>, now: Instant)
    ensures MonthExpenseSum(txs, MonthIndex(now)) == Spent(txs, now)
  {
    FilterFilter(txs, InMonthOf(MonthIndex(now)), IsExpense, ExpenseIn(MonthIndex(now)));
  }

  /** The `for (let i = 5; i >= 0; i--)` loop: six labels and six totals,
      oldest month first, the last one the current month. */
  method Trend(txs: seq<Transaction>, now: Instant) returns (months: seq<string>, totals: seq<real>)
    ensures |months| == 6 && |totals| == 6
    ensures forall j :: 0 <= j < 6 ==> months[j] == MonthAbbrev(MonthOfIndex(MonthIndex(now) - 5 + j))
    ensures forall j :: 0 <= j < 6 ==> totals[j] == MonthExpenseSum(txs, MonthIndex(now) - 5 + j)
    ensures totals[5] == Spent(txs, now)
  {
    months, totals := [], [];
    var i := 5;
    while i >= 0
      invariant -1 <= i <= 5
      invariant |months| == 5 - i && |totals| == 5 - i
      invariant forall j :: 0 <= j < 5 - i ==> months[j] == MonthAbbrev(MonthOfIndex(MonthIndex(now) - 5 + j))
      invariant forall j :: 0 <= j < 5 - i ==> totals[j] == MonthExpenseSum(txs, MonthIndex(now) - 5 + j)
    {
      var mi := MonthIndex(now) - i;
      var abbrev := MonthAbbrev(MonthOfIndex(mi));
      var total := SumBy(Filter(txs, ExpenseIn(mi)), Amount);
      months := months + [abbrev];
      totals := totals + [total];
      i := i - 1;
    }
    CurrentMonthTrend(txs, now);
  }
}
