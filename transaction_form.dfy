/** The transaction form: seven fields, filled from the record being edited
    or from defaults, the category options offered for the chosen type, and
    the submit that validates, hands the record on and clears the form when
    it is adding. `toString` and `parseFloat` are parameters; the `onSubmit`
    callback is the value `HandleSubmit` returns. */
module TransactionForm {
  import opened Wrappers
  import opened Calendar
  import opened Sequences
  import opened Expense

  /** `defaultCategories`: twelve expense categories, then six income ones. */
  const DefaultCategories: seq<Category> := [
    Category("1", "Food & Dining", "\U{1F37D}\U{FE0F}", "hsl(25, 95%, 53%)", ForExpense),
    Category("2", "Transportation", "\U{1F697}", "hsl(220, 91%, 60%)", ForExpense),
    Category("3", "Groceries", "\U{1F6D2}", "hsl(142, 50%, 45%)", ForExpense),
    Category("4", "Utilities & Bills", "\U{26A1}", "hsl(45, 91%, 60%)", ForExpense),
    Category("5", "Rent/EMI", "\U{1F3E0}", "hsl(0, 70%, 55%)", ForExpense),
    Category("6", "Healthcare", "\U{1F3E5}", "hsl(350, 70%, 60%)", ForExpense),
    Category("7", "Education", "\U{1F4DA}", "hsl(260, 70%, 60%)", ForExpense),
    Category("8", "Entertainment", "\U{1F3AC}", "hsl(280, 70%, 60%)", ForExpense),
    Category("9", "Shopping", "\U{1F6CD}\U{FE0F}", "hsl(320, 70%, 60%)", ForExpense),
    Category("10", "Travel", "\U{2708}\U{FE0F}", "hsl(200, 70%, 60%)", ForExpense),
    Category("11", "Personal Care", "\U{1F485}", "hsl(300, 60%, 65%)", ForExpense),
    Category("12", "Fuel/Petrol", "\U{26FD}", "hsl(15, 80%, 55%)", ForExpense),
    Category("13", "Salary", "\U{1F4BC}", "hsl(142, 76%, 36%)", ForIncome),
    Category("14", "Freelance", "\U{1F4BB}", "hsl(142, 76%, 45%)", ForIncome),
    Category("15", "Business", "\U{1F3E2}", "hsl(142, 76%, 40%)", ForIncome),
    Category("16", "Investment", "\U{1F4C8}", "hsl(142, 76%, 50%)", ForIncome),
    Category("17", "Rental Income", "\U{1F3D8}\U{FE0F}", "hsl(142, 76%, 42%)", ForIncome),
    Category("18", "Other Income", "\U{1F4B0}", "hsl(142, 76%, 38%)", ForIncome)
  ]

  /** The category type that matches a transaction type. */
  function CategoryTypeFor(k: TxType): CategoryType {
    match k
    case Income => ForIncome
    case Expense => ForExpense
  }

  /** `cat.type === type || cat.type === 'both'` */
  function OfferedFor(k: TxType): Category -> bool {
    (c: Category) => c.kind == CategoryTypeFor(k) || c.kind == ForBoth
  }

  /** `categories.filter(...)` */
  function FilterCategories(cats: seq<Category>, k: TxType): seq<Category> {
    Filter(cats, OfferedFor(k))
  }

  /** The options keep their order and are exactly the categories of the
      chosen type or of both types. */
  lemma FilterCategoriesSpec(cats: seq<Category>, k: TxType)
    ensures IsSubsequence(FilterCategories(cats, k), cats)
    ensures forall c :: c in FilterCategories(cats, k) <==> c in cats && (c.kind == CategoryTypeFor(k) || c.kind == ForBoth)
  {
    FilterIsSubsequence(cats, OfferedFor(k));
    forall c ensures c in FilterCategories(cats, k) <==> c in cats && OfferedFor(k)(c) {
      FilterMembers(cats, OfferedFor(k), c);
    }
  }

  /** The first twelve default categories are for expenses, the rest for
      income. */
  lemma DefaultKinds()
    ensures |DefaultCategories| == 18
    ensures forall i :: 0 <= i < 12 ==> DefaultCategories[i].kind == ForExpense
    ensures forall i :: 12 <= i < 18 ==> DefaultCategories[i].kind == ForIncome
  {
  }

  /** With the default list an expense is offered the first twelve
      categories and an income the last six. */
  lemma DefaultOptions(k: TxType)
    ensures FilterCategories(DefaultCategories, k) ==
              if k == Expense then DefaultCategories[..12] else DefaultCategories[12..]
  {
    var d := DefaultCategories;
    DefaultKinds();
    var a, b := d[..12], d[12..];
    assert d == a + b;
    FilterAppend(a, b, OfferedFor(k));
    if k == Expense {
      assert forall i :: 0 <= i < |a| ==> OfferedFor(k)(a[i]);
      assert forall i :: 0 <= i < |b| ==> !OfferedFor(k)(b[i]);
      FilterKeepsAll(a, OfferedFor(k));
      FilterKeepsNone(b, OfferedFor(k));
    } else {
      assert forall i :: 0 <= i < |a| ==> !OfferedFor(k)(a[i]);
      assert forall i :: 0 <= i < |b| ==> OfferedFor(k)(b[i]);
      FilterKeepsNone(a, OfferedFor(k));
      FilterKeepsAll(b, OfferedFor(k));
    }
  }

  /** The names the category select lists. */
  function Names(cats: seq<Category>): (r: seq<string>)
    ensures |r| == |cats| && forall i :: 0 <= i < |cats| ==> r[i] == cats[i].name
  {
    seq(|cats|, i requires 0 <= i < |cats| => cats[i].name)
  }

  /** What the form's fields hold. */
  datatype TxDraft = TxDraft(
    amount: string,
    description: string,
    category: string,
    kind: TxType,
    date: Instant,
    paymentMethod: string,
    notes: string)

  /** The initial state: the record being edited, with `toString` of its
      amount and empty texts for a missing payment method or notes; without
      one, empty texts, an expense, and the moment the form opens. */
  function Prefill(edit: Option<Transaction>, show: real -> string, now: Instant): TxDraft {
    match edit
    case Some(t) =>
      TxDraft(show(t.amount), t.description, t.category, t.kind, t.date,
              t.paymentMethod.GetOr(""), t.notes.GetOr(""))
    case None => TxDraft("", "", "", Expense, now, "", "")
  }

  /** What `onSubmit` receives: nothing while amount, description or
      category is empty, else the fields with `parseFloat` of the amount and
      the payment method and notes as the texts held. */
  function Submission(d: TxDraft, parse: string -> real): Option<TxFields> {
    if d.amount == "" || d.description == "" || d.category == "" then None
    else Some(TxFields(parse(d.amount), d.description, d.category, d.kind, d.date,
                       Some(d.paymentMethod), Some(d.notes)))
  }

  /** The reset after adding: type and date stay. */
  function Cleared(d: TxDraft): TxDraft {
    d.(amount := "", description := "", category := "", paymentMethod := "", notes := "")
  }

  /** A submit is sent exactly when amount, description and category are
      filled, and then carries every field of the form. */
  lemma SubmissionSpec(d: TxDraft, parse: string -> real)
    ensures Submission(d, parse).Some? <==> d.amount != "" && d.description != "" && d.category != ""
    ensures Submission(d, parse).Some? ==>
              var f := Submission(d, parse).value;
              && f.amount == parse(d.amount) && f.description == d.description
              && f.category == d.category && f.kind == d.kind && f.date == d.date
              && f.paymentMethod == Some(d.paymentMethod) && f.notes == Some(d.notes)
  {
  }

  /** A new form cannot be submitted until it is filled in, and a cleared
      one neither. */
  lemma FreshFormBlocked(show: real -> string, now: Instant, d: TxDraft, parse: string -> real)
    ensures Submission(Prefill(None, show, now), parse) == None
    ensures Submission(Cleared(d), parse) == None
  {
  }

  /** Submitting an edit form left untouched gives back the record's fields,
      with a missing payment method or missing notes sent as empty texts,
      provided `parseFloat` reads back the amount `toString` wrote. */
  lemma EditRoundTrip(t: Transaction, show: real -> string, parse: string -> real, now: Instant)
    requires show(t.amount) != "" && parse(show(t.amount)) == t.amount
    requires t.description != "" && t.category != ""
    ensures Submission(Prefill(Some(t), show, now), parse) ==
              Some(FieldsOf(t).(paymentMethod := Some(t.paymentMethod.GetOr("")),
                                notes := Some(t.notes.GetOr(""))))
    ensures t.paymentMethod.Some? && t.notes.Some? ==>
              Submission(Prefill(Some(t), show, now), parse) == Some(FieldsOf(t))
  {
  }

  class Form {
    const editTransaction: Option<Transaction>
    /** The `categories` prop, or `defaultCategories` when it is not given. */
    const categories: seq<Category>
    var amount: string
    var description: string
    var category: string
    var kind: TxType
    var date: Instant
    var paymentMethod: string
    var notes: string

    function Draft(): TxDraft
      reads this
    {
      TxDraft(amount, description, category, kind, date, paymentMethod, notes)
    }

    /** The category field holds nothing, an offered name, or the category
        of the record being edited. */
    ghost predicate CategoryChosen()
      reads this
    {
      || category == ""
      || category in Names(categories)
      || (editTransaction.Some? && category == editTransaction.value.category)
    }

    /** The `useState` initialisers. */
    constructor (categoriesProp: Option<seq<Category>>, edit: Option<Transaction>, show: real -> string, now: Instant)
      ensures editTransaction == edit && categories == categoriesProp.GetOr(DefaultCategories)
      ensures Draft() == Prefill(edit, show, now)
      ensures CategoryChosen()
    {
      editTransaction := edit;
      categories := categoriesProp.GetOr(DefaultCategories);
      var d := Prefill(edit, show, now);
      amount, description, category, kind := d.amount, d.description, d.category, d.kind;
      date, paymentMethod, notes := d.date, d.paymentMethod, d.notes;
    }

    /** `filteredCategories` */
    function FilteredCategories(): seq<Category>
      reads this
    {
      FilterCategories(categories, kind)
    }

    method SetAmount(text: string)
      requires CategoryChosen()
      modifies this
      ensures Draft() == old(Draft()).(amount := text)
      ensures CategoryChosen()
    {
      amount := text;
    }

    method SetDescription(text: string)
      requires CategoryChosen()
      modifies this
      ensures Draft() == old(Draft()).(description := text)
      ensures CategoryChosen()
    {
      description := text;
    }

    /** The category select's `onValueChange`: only an offered name can be
        picked. */
    method SelectCategory(name: string)
      requires CategoryChosen()
      requires name in Names(FilteredCategories())
      modifies this
      ensures Draft() == old(Draft()).(category := name)
      ensures CategoryChosen()
    {
      var i :| 0 <= i < |FilteredCategories()| && Names(FilteredCategories())[i] == name;
      FilterMembers(categories, OfferedFor(kind), FilteredCategories()[i]);
      var j :| 0 <= j < |categories| && categories[j] == FilteredCategories()[i];
      assert Names(categories)[j] == name;
      category := name;
    }

    /** The expense and income buttons. */
    method SetType(k: TxType)
      requires CategoryChosen()
      modifies this
      ensures Draft() == old(Draft()).(kind := k)
      ensures CategoryChosen()
    {
      kind := k;
    }

    /** The calendar's `onSelect`. */
    method SetDate(d: Instant)
      requires CategoryChosen()
      modifies this
      ensures Draft() == old(Draft()).(date := d)
      ensures CategoryChosen()
    {
      date := d;
    }

    method SetPaymentMethod(text: string)
      requires CategoryChosen()
      modifies this
      ensures Draft() == old(Draft()).(paymentMethod := text)
      ensures CategoryChosen()
    {
      paymentMethod := text;
    }

    method SetNotes(text: string)
      requires CategoryChosen()
      modifies this
      ensures Draft() == old(Draft()).(notes := text)
      ensures CategoryChosen()
    {
      notes := text;
    }

    /** `handleSubmit`: the submission is handed on; a form that is adding
        is then cleared, one that is editing keeps its fields. */
    method HandleSubmit(parse: string -> real) returns (submitted: Option<TxFields>)
      requires CategoryChosen()
      modifies this
      ensures submitted == Submission(old(Draft()), parse)
      ensures Draft() == if submitted.Some? && editTransaction.None? then Cleared(old(Draft())) else old(Draft())
      ensures CategoryChosen()
    {
      submitted := Submission(Draft(), parse);
      if submitted.Some? && editTransaction.None? {
        amount := "";
        description := "";
        category := "";
        paymentMethod := "";
        notes := "";
      }
    }
  }

  /** As the callers use it, with an empty `categories` list, a form that is
      adding offers no category, so its category stays empty and every
      submit is refused. */
  lemma EmptyListBlocksAdding(f: Form, parse: string -> real)
    requires f.categories == [] && f.editTransaction.None? && f.CategoryChosen()
    ensures f.FilteredCategories() == []
    ensures Submission(f.Draft(), parse) == None
  {
  }

  /** Without a `categories` prop, every type is offered a category, so an
      adding form can be completed. */
  lemma DefaultListOffersEveryType(k: TxType)
    ensures |FilterCategories(DefaultCategories, k)| > 0
  {
    DefaultOptions(k);
  }
}
