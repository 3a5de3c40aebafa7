/** The investments page: the total invested, the amount per category and
    per month, the month bar chart, and the add/edit dialog that sends a
    submitted form to the add or the update call. The investment list is a
    parameter; the calls are returned, not carried out. */
module Investments {
  import opened Wrappers
  import opened Calendar
  import opened Sequences
  import opened Tallies
  import opened Expense

  /** `totalInvested` */
  function TotalInvested(invs: seq<Investment>): real {
    SumBy(invs, InvestmentAmount)
  }

  /** The `forEach` that fills `categoryMap`: the values add up to
      `totalInvested`, the keys are the categories that occur, in the order
      they first occur (the pie's labels), and each holds the sum of its
      investments. */
  method CategoryTotals(invs: seq<Investment>) returns (m: Tally)
    ensures m == GroupSum(invs, InvestmentCategory, InvestmentAmount)
    ensures WellFormed(m)
    ensures Total(m) == TotalInvested(invs)
    ensures forall k :: k in m.keys <==> exists i :: 0 <= i < |invs| && invs[i].category == k
    ensures m.keys == Distinct(KeysOf(invs, InvestmentCategory))
    ensures forall k :: Get(m, k) == SumBy(Filter(invs, KeyIs(InvestmentCategory, k)), InvestmentAmount)
  {
    m := TallyBy(invs, InvestmentCategory, InvestmentAmount);
    GroupSumOrder(invs, InvestmentCategory, InvestmentAmount);
    GroupSumTotal(invs, InvestmentCategory, InvestmentAmount);
    forall k ensures k in m.keys <==> exists i :: 0 <= i < |invs| && invs[i].category == k {
      GroupSumKeys(invs, InvestmentCategory, InvestmentAmount, k);
    }
    forall k ensures Get(m, k) == SumBy(Filter(invs, KeyIs(InvestmentCategory, k)), InvestmentAmount) {
      GroupSumGet(invs, InvestmentCategory, InvestmentAmount, k);
    }
  }

  /** `format(new Date(inv.date), 'MMM yyyy')` */
  function MonthKey(inv: Investment): string {
    MonthLabel(inv.date)
  }

  /** The `forEach` that fills `monthlyMap`. */
  method MonthlyTotals(invs: seq<Investment>) returns (m: Tally)
    ensures m == GroupSum(invs, MonthKey, InvestmentAmount)
    ensures WellFormed(m)
    ensures Total(m) == TotalInvested(invs)
    ensures forall k :: Get(m, k) == SumBy(Filter(invs, KeyIs(MonthKey, k)), InvestmentAmount)
  {
    m := TallyBy(invs, MonthKey, InvestmentAmount);
    GroupSumTotal(invs, MonthKey, InvestmentAmount);
    forall k ensures Get(m, k) == SumBy(Filter(invs, KeyIs(MonthKey, k)), InvestmentAmount) {
      GroupSumGet(invs, MonthKey, InvestmentAmount, k);
    }
  }

  /** The month labels, sorted as strings, each once, are the months that
      occur. */
  lemma MonthLabels(invs: seq<Investment>)
    ensures SortedBy(SortedLabels(GroupSum(invs, MonthKey, InvestmentAmount)), StrLe)
    ensures NoDuplicates(SortedLabels(GroupSum(invs, MonthKey, InvestmentAmount)))
    ensures forall k :: k in SortedLabels(GroupSum(invs, MonthKey, InvestmentAmount)) <==>
              exists i :: 0 <= i < |invs| && MonthKey(invs[i]) == k
  {
    var m := GroupSum(invs, MonthKey, InvestmentAmount);
    ChartSeries(m);
    forall k ensures k in SortedLabels(m) <==> exists i :: 0 <= i < |invs| && MonthKey(invs[i]) == k {
      GroupSumKeys(invs, MonthKey, InvestmentAmount, k);
      assert k in SortedLabels(m) <==> k in m.vals;
      assert k in m.vals <==> k in m.keys;
    }
  }

  /** `barData`: labels are the month keys in ascending string order, and
      each bar is the amount invested in its month. */
  method BarSeries(invs: seq<Investment>) returns (labels: seq<string>, data: seq<real>)
    ensures SortedBy(labels, StrLe)
    ensures NoDuplicates(labels)
    ensures forall k :: k in labels <==> exists i :: 0 <= i < |invs| && MonthKey(invs[i]) == k
    ensures |data| == |labels|
    ensures forall i :: 0 <= i < |labels| ==> data[i] == SumBy(Filter(invs, KeyIs(MonthKey, labels[i])), InvestmentAmount)
  {
    var m := MonthlyTotals(invs);
    labels := SortedLabels(m);
    data := SeriesData(m, labels);
    MonthLabels(invs);
    forall i | 0 <= i < |labels|
      ensures data[i] == SumBy(Filter(invs, KeyIs(MonthKey, labels[i])), InvestmentAmount)
    {
      assert data[i] == Get(m, labels[i]);
    }
  }

  // ---------------------------------------------------------------------
  // The dialog

  /** `{ ...data, id }` */
  function WithInvestmentId(data: InvestmentFields, id: string): (inv: Investment)
    ensures inv.id == id && InvestmentFieldsOf(inv) == data
  {
    Investment(id, data.amount, data.category, data.date, data.expectedReturn, data.notes)
  }

  function InvestmentFieldsOf(inv: Investment): InvestmentFields {
    InvestmentFields(inv.amount, inv.category, inv.date, inv.expectedReturn, inv.notes)
  }

  /** The call a submit makes: `updateInvestment(id, investment)` or
      `addInvestment(data)`. */
  datatype InvestmentCall = UpdateCall(id: string, investment: Investment) | AddCall(data: InvestmentFields)

  class InvestmentsPage {
    var showForm: bool
    var editing: Option<Investment>

    constructor ()
      ensures !showForm && editing == None
    {
      showForm := false;
      editing := None;
    }

    /** `handleEdit`: the form opens on the investment. */
    method HandleEdit(inv: Investment)
      modifies this
      ensures editing == Some(inv) && showForm
    {
      editing := Some(inv);
      showForm := true;
    }

    /** `handleAdd`: the form opens empty. */
    method HandleAdd()
      modifies this
      ensures editing == None && showForm
    {
      editing := None;
      showForm := true;
    }

    /** `handleSubmit`: an update under the edited id when editing, else an
        add of the data unchanged; either way the form closes and nothing
        stays selected. */
    method HandleSubmit(data: InvestmentFields) returns (call: InvestmentCall)
      modifies this
      ensures old(editing).Some? ==>
                call == UpdateCall(old(editing).value.id, WithInvestmentId(data, old(editing).value.id))
      ensures old(editing).None? ==> call == AddCall(data)
      ensures !showForm && editing == None
    {
      if editing.Some? {
        call := UpdateCall(editing.value.id, WithInvestmentId(data, editing.value.id));
      } else {
        call := AddCall(data);
      }
      showForm := false;
      editing := None;
    }

    /** The form's cancel button. */
    method Cancel()
      modifies this
      ensures !showForm && editing == None
    {
      showForm := false;
      editing := None;
    }

    /** The dialog's `onOpenChange={setShowForm}`. */
    method SetShowForm(open: bool)
      modifies this
      ensures showForm == open && editing == old(editing)
    {
      showForm := open;
    }
  }
}
