/** The stand-alone expense dashboard: its own list of transactions (seeded
    with four demo records), the add dialog, the record being edited, the
    same add, edit and delete as the provider, and the monthly summary. */
module ExpenseDashboard {
  import opened Wrappers
  import opened Calendar
  import opened Sequences
  import opened Expense
  import opened Finance
  import Dashboard
  import Reports

  /** `monthlyStats` */
  function MonthlyStatsOf(txs: seq<Transaction>, now: Instant): (s: MonthlyStats)
    ensures s.totalIncome == SumBy(Filter(Dashboard.MonthTx(txs, now), IsIncome), Amount)
    ensures s.totalExpenses == SumBy(Filter(Dashboard.MonthTx(txs, now), IsExpense), Amount)
    ensures s.transactionCount == |Dashboard.MonthTx(txs, now)|
  {
    var month := Dashboard.MonthTx(txs, now);
    var income := SumBy(Filter(month, IsIncome), Amount);
    var expenses := SumBy(Filter(month, IsExpense), Amount);
    MonthlyStats(income, expenses, income - expenses, |month|)
  }

  /** The balance is the month's income less its spending, which is the
      month's signed amounts negated; the count is the number of income
      records plus the number of expense records of the month. */
  lemma MonthlyStatsSpec(txs: seq<Transaction>, now: Instant)
    ensures MonthlyStatsOf(txs, now).balance + SumBy(Dashboard.MonthTx(txs, now), Reports.Signed) == 0.0
    ensures MonthlyStatsOf(txs, now).transactionCount ==
              |Filter(Dashboard.MonthTx(txs, now), IsIncome)| + |Filter(Dashboard.MonthTx(txs, now), IsExpense)|
  {
    var month := Dashboard.MonthTx(txs, now);
    Reports.SignedSum(month);
    FilterPartitionLength(month, IsIncome, IsExpense);
  }

  /** `sampleTransactions`; `new Date(2024, 0, d)` is taken at midnight UTC. */
  function SampleTransactions(): (r: seq<Transaction>)
    ensures |r| == 4
  {
    [Transaction("1", 3500.0, "Monthly Salary", "Salary", Income, Date(2024, 1, 1, 0, 0, 0, 0),
                 Some("bank"), Some("January salary payment")),
     Transaction("2", 85.5, "Grocery Shopping", "Food & Dining", Expense, Date(2024, 1, 5, 0, 0, 0, 0),
                 Some("card"), Some("Weekly groceries")),
     Transaction("3", 1200.0, "Rent Payment", "Bills", Expense, Date(2024, 1, 1, 0, 0, 0, 0),
                 Some("bank"), Some("Monthly rent")),
     Transaction("4", 45.0, "Gas Station", "Transportation", Expense, Date(2024, 1, 8, 0, 0, 0, 0),
                 Some("card"), None)]
  }

  lemma SampleKinds()
    ensures Filter(SampleTransactions(), IsIncome) == SampleTransactions()[..1]
    ensures Filter(SampleTransactions(), IsExpense) == SampleTransactions()[1..]
  {
    var s := SampleTransactions();
    assert s[..1][..0] == [] && s[..2][..1] == s[..1] && s[..3][..2] == s[..2] && s[..3] == s[..|s| - 1];
    assert Filter(s[..1], IsIncome) == [s[0]] && Filter(s[..1], IsExpense) == [];
    assert Filter(s[..2], IsIncome) == [s[0]] && Filter(s[..2], IsExpense) == [s[1]];
    assert Filter(s[..3], IsIncome) == [s[0]] && Filter(s[..3], IsExpense) == [s[1], s[2]];
    assert s[1..] == [s[1], s[2], s[3]];
  }

  lemma SampleInJanuary(now: Instant)
    requires now.year == 2024 && now.month == 1
    ensures Dashboard.MonthTx(SampleTransactions(), now) == SampleTransactions()
  {
    FilterKeepsAll(SampleTransactions(), Dashboard.InMonthOf(MonthIndex(now)));
  }

  /** The demo data's ids are distinct, and in January 2024 the summary
      shows 3500 of income against 1330.5 of spending. */
  lemma SampleSummary(now: Instant)
    requires now.year == 2024 && now.month == 1
    ensures UniqueIds(SampleTransactions())
    ensures MonthlyStatsOf(SampleTransactions(), now) == MonthlyStats(3500.0, 1330.5, 2169.5, 4)
  {
    var s := SampleTransactions();
    SampleInJanuary(now);
    SampleKinds();
    var e := s[1..];
    assert e[..|e| - 1] == e[..2] && e[..2][..1] == e[..1] && e[..1][..0] == [];
    assert SumBy(e[..1], Amount) == 85.5;
    assert SumBy(e[..2], Amount) == 1285.5;
    assert SumBy(e, Amount) == 1330.5;
    assert SumBy(s[..1], Amount) == 3500.0;
  }

  class DashboardState {
    var transactions: seq<Transaction>
    var isFormOpen: bool
    var editing: Option<Transaction>

    constructor ()
      ensures transactions == SampleTransactions() && !isFormOpen && editing == None
    {
      transactions := SampleTransactions();
      isFormOpen := false;
      editing := None;
    }

    /** `setIsFormOpen`, from the add buttons and the dialog. */
    method SetFormOpen(open: bool)
      modifies this
      ensures isFormOpen == open
      ensures transactions == old(transactions) && editing == old(editing)
    {
      isFormOpen := open;
    }

    /** `onEdit={setEditingTransaction}`, and `setEditingTransaction(null)`
        when the edit dialog is dismissed. */
    method SelectForEdit(t: Option<Transaction>)
      modifies this
      ensures editing == t
      ensures transactions == old(transactions) && isFormOpen == old(isFormOpen)
    {
      editing := t;
    }

    /** `handleAddTransaction`: the record, under the supplied id, goes first
        and the add dialog closes. */
    method HandleAdd(tx: TxFields, newId: string)
      modifies this
      ensures transactions == Prepend(old(transactions), tx, newId)
      ensures !isFormOpen && editing == old(editing)
    {
      transactions := Prepend(transactions, tx, newId);
      isFormOpen := false;
    }

    /** `handleEditTransaction`: nothing without a selection; otherwise the
        records with the selected id take the new fields under that id and
        the selection is cleared. */
    method HandleEdit(tx: TxFields)
      modifies this
      ensures old(editing).None? ==> transactions == old(transactions) && editing == old(editing)
      ensures old(editing).Some? ==>
                transactions == ReplaceById(old(transactions), old(editing).value.id, tx) && editing == None
      ensures isFormOpen == old(isFormOpen)
    {
      if editing.None? {
        return;
      }
      transactions := ReplaceById(transactions, editing.value.id, tx);
      editing := None;
    }

    /** `handleDeleteTransaction` */
    method HandleDelete(id: string)
      modifies this
      ensures transactions == RemoveById(old(transactions), id)
      ensures isFormOpen == old(isFormOpen) && editing == old(editing)
    {
      transactions := RemoveById(transactions, id);
    }
  }
}
