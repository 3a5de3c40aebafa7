/** The investment form: five text fields, prefilled from the investment
    being edited, and the submit that validates, converts and hands the data
    on and then resets the form. `toString`, `parseFloat` and today's date
    are parameters. */
module InvestmentForm {
  import opened Wrappers
  import opened Calendar
  import opened Expense
  import Investments

  /** `investmentCategories`, the options of the category select. */
  const InvestmentCategories: seq<string> := ["Stocks", "Mutual Funds", "Gold", "FD", "Crypto", "Real Estate"]

  /** What the form's fields hold; the date is the date input's
      `yyyy-MM-dd` text. */
  datatype InvestmentDraft = InvestmentDraft(
    amount: string,
    category: string,
    date: string,
    expectedReturn: string,
    notes: string)

  /** The date input holds a day of the calendar. */
  predicate DateReadable(d: InvestmentDraft) {
    ParseDay(d.date).Some?
  }

  /** The initial and the reset state: empty texts and today's date. */
  function Fresh(today: Instant): (d: InvestmentDraft)
    ensures DateReadable(d) && ParseDay(d.date) == Some(StartOfDay(today))
  {
    DayTextRoundTrip(today);
    InvestmentDraft("", "", DayText(today), "", "")
  }

  /** The `useEffect` that fills the form from the investment being edited:
      a missing expected return or missing notes become empty texts. */
  function PrefillOf(inv: Investment, show: real -> string): (d: InvestmentDraft)
    ensures DateReadable(d) && ParseDay(d.date) == Some(StartOfDay(inv.date))
  {
    DayTextRoundTrip(inv.date);
    InvestmentDraft(show(inv.amount), inv.category, DayText(inv.date),
                    match inv.expectedReturn case Some(r) => show(r) case None => "",
                    inv.notes.GetOr(""))
  }

  /** What `onSubmit` receives: nothing while amount or category is empty,
      else `parseFloat` of the amount, the category, midnight UTC of the
      date text, `parseFloat` of a filled expected return and filled notes. */
  function Submission(d: InvestmentDraft, parse: string -> real): Option<InvestmentFields>
    requires DateReadable(d)
  {
    if d.amount == "" || d.category == "" then None
    else Some(InvestmentFields(parse(d.amount), d.category, ParseDay(d.date).value,
                               if d.expectedReturn == "" then None else Some(parse(d.expectedReturn)),
                               if d.notes == "" then None else Some(d.notes)))
  }

  /** A submit is sent exactly when amount and category are filled; the
      empty optional fields are left out of it. */
  lemma SubmissionSpec(d: InvestmentDraft, parse: string -> real)
    requires DateReadable(d)
    ensures Submission(d, parse).Some? <==> d.amount != "" && d.category != ""
    ensures Submission(d, parse).Some? ==>
              var f := Submission(d, parse).value;
              && f.amount == parse(d.amount) && f.category == d.category
              && DayText(f.date) == d.date
              && (f.expectedReturn.None? <==> d.expectedReturn == "")
              && (f.notes.None? <==> d.notes == "")
  {
    ParseDayCanonical(d.date);
  }

  /** Submitting an edit form left untouched gives back the investment,
      its date cut to midnight of its day, provided `parseFloat` reads back
      what `toString` wrote and the notes, when present, are not empty. */
  lemma EditRoundTrip(inv: Investment, show: real -> string, parse: string -> real)
    requires show(inv.amount) != "" && parse(show(inv.amount)) == inv.amount
    requires inv.category != ""
    requires inv.expectedReturn.Some? ==>
               show(inv.expectedReturn.value) != "" && parse(show(inv.expectedReturn.value)) == inv.expectedReturn.value
    requires inv.notes != Some("")
    ensures Submission(PrefillOf(inv, show), parse) ==
              Some(Investments.InvestmentFieldsOf(inv).(date := StartOfDay(inv.date)))
  {
  }

  class Form {
    var amount: string
    var category: string
    var date: string
    var expectedReturn: string
    var notes: string

    function Draft(): InvestmentDraft
      reads this
    {
      InvestmentDraft(amount, category, date, expectedReturn, notes)
    }

    ghost predicate Valid()
      reads this
    {
      DateReadable(Draft())
    }

    /** The `useState` initialisers. */
    constructor (today: Instant)
      ensures Draft() == Fresh(today) && Valid()
    {
      var d := Fresh(today);
      amount, category, date, expectedReturn, notes := d.amount, d.category, d.date, d.expectedReturn, d.notes;
    }

    /** The effect run when `editInvestment` changes: an investment fills
        the form, none leaves it as it is. */
    method Prefill(edit: Option<Investment>, show: real -> string)
      requires Valid()
      modifies this
      ensures Draft() == if edit.Some? then PrefillOf(edit.value, show) else old(Draft())
      ensures Valid()
    {
      if edit.Some? {
        var d := PrefillOf(edit.value, show);
        amount, category, date, expectedReturn, notes := d.amount, d.category, d.date, d.expectedReturn, d.notes;
      }
    }

    method SetAmount(text: string)
      requires Valid()
      modifies this
      ensures Draft() == old(Draft()).(amount := text) && Valid()
    {
      amount := text;
    }

    /** The category select: one of `investmentCategories`. */
    method SetCategory(name: string)
      requires Valid() && name in InvestmentCategories
      modifies this
      ensures Draft() == old(Draft()).(category := name) && Valid()
    {
      category := name;
    }

    /** The date input, which only reports days of the calendar. */
    method SetDate(text: string)
      requires Valid() && ParseDay(text).Some?
      modifies this
      ensures Draft() == old(Draft()).(date := text) && Valid()
    {
      date := text;
    }

    method SetExpectedReturn(text: string)
      requires Valid()
      modifies this
      ensures Draft() == old(Draft()).(expectedReturn := text) && Valid()
    {
      expectedReturn := text;
    }

    method SetNotes(text: string)
      requires Valid()
      modifies this
      ensures Draft() == old(Draft()).(notes := text) && Valid()
    {
      notes := text;
    }

    /** `handleSubmit`: the submission is handed on and the whole form,
        editing or not, goes back to its fresh state. */
    method HandleSubmit(parse: string -> real, today: Instant) returns (submitted: Option<InvestmentFields>)
      requires Valid()
      modifies this
      ensures submitted == Submission(old(Draft()), parse)
      ensures Draft() == if submitted.Some? then Fresh(today) else old(Draft())
      ensures Valid()
    {
      submitted := Submission(Draft(), parse);
      if submitted.Some? {
        var d := Fresh(today);
        amount, category, date, expectedReturn, notes := d.amount, d.category, d.date, d.expectedReturn, d.notes;
      }
    }
  }

  /** A fresh form cannot be submitted. */
  lemma FreshFormBlocked(today: Instant, parse: string -> real)
    ensures Submission(Fresh(today), parse) == None
  {
  }
}
