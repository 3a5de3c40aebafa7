/** The records of the application: transactions, investments, categories and
    the monthly summary. The TypeScript field `type` is called `kind` here
    (`type` is a Dafny keyword); `Omit<Transaction, "id">` is `TxFields`. */
module Expense {
  import opened Wrappers
  import opened Calendar

  datatype TxType = Income | Expense

  /** The string the record carries in its `type` field. */
  function TxTypeName(k: TxType): string {
    match k
    case Income => "income"
    case Expense => "expense"
  }

  datatype Transaction = Transaction(
    id: string,
    amount: real,
    description: string,
    category: string,
    kind: TxType,
    date: Instant,
    paymentMethod: Option<string>,
    notes: Option<string>)

  /** `Omit<Transaction, "id">`: what forms submit and `add`/`update` take. */
  datatype TxFields = TxFields(
    amount: real,
    description: string,
    category: string,
    kind: TxType,
    date: Instant,
    paymentMethod: Option<string>,
    notes: Option<string>)

  /** `{ ...fields, id }` */
  function WithId(f: TxFields, id: string): (t: Transaction)
    ensures t.id == id && FieldsOf(t) == f
  {
    Transaction(id, f.amount, f.description, f.category, f.kind, f.date, f.paymentMethod, f.notes)
  }

  /** A transaction without its id. */
  function FieldsOf(t: Transaction): TxFields {
    TxFields(t.amount, t.description, t.category, t.kind, t.date, t.paymentMethod, t.notes)
  }

  predicate IsExpense(t: Transaction) {
    t.kind == Expense
  }

  predicate IsIncome(t: Transaction) {
    t.kind == Income
  }

  function Amount(t: Transaction): real {
    t.amount
  }

  function CategoryOf(t: Transaction): string {
    t.category
  }

  /** `Category.type`: which kind of transaction a category is offered for. */
  datatype CategoryType = ForIncome | ForExpense | ForBoth

  datatype Category = Category(id: string, name: string, icon: string, color: string, kind: CategoryType)

  datatype MonthlyStats = MonthlyStats(totalIncome: real, totalExpenses: real, balance: real, transactionCount: nat)

  datatype Investment = Investment(
    id: string,
    amount: real,
    category: string,
    date: Instant,
    expectedReturn: Option<real>,
    notes: Option<string>)

  /** `Omit<Investment, "id">` */
  datatype InvestmentFields = InvestmentFields(
    amount: real,
    category: string,
    date: Instant,
    expectedReturn: Option<real>,
    notes: Option<string>)

  function InvestmentAmount(inv: Investment): real {
    inv.amount
  }

  function InvestmentCategory(inv: Investment): string {
    inv.category
  }

  /** A JavaScript number where `NaN` can reach the code: the budget. */
  datatype JsNumber = Finite(value: real) | NaN

  /** `n || 0`: 0 and NaN are the falsy numbers. */
  function OrZero(n: JsNumber): (r: real)
    ensures n.NaN? ==> r == 0.0
    ensures n.Finite? ==> r == n.value
  {
    match n
    case Finite(v) => v
    case NaN => 0.0
  }
}
