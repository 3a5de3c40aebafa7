/** The reports page: the filter bar over the provider's transactions, the
    distinct categories it offers, the expense-by-category and net-spend-per-
    day charts, and the rows of the CSV export. `parseFloat` and
    `String(number)` are parameters. */
module Reports {
  import opened Wrappers
  import opened Calendar
  import opened Sequences
  import opened Tallies
  import opened Expense
  import opened JsonText

  // ---------------------------------------------------------------------
  // cats

  /** `transactions.map(t => t.category)` */
  function CategoriesOf(txs: seq<Transaction>): (r: seq<string>)
    ensures |r| == |txs| && forall i :: 0 <= i < |txs| ==> r[i] == txs[i].category
  {
    seq(|txs|, i requires 0 <= i < |txs| => txs[i].category)
  }

  /** `Array.from(new Set(transactions.map(t => t.category)))` */
  function Cats(txs: seq<Transaction>): seq<string> {
    Distinct(CategoriesOf(txs))
  }

  /** Each category that some transaction has is listed, and only once. */
  lemma CatsSpec(txs: seq<Transaction>)
    ensures NoDuplicates(Cats(txs))
    ensures forall c :: c in Cats(txs) <==> exists i :: 0 <= i < |txs| && txs[i].category == c
  {
    DistinctSpec(CategoriesOf(txs));
    var cs := CategoriesOf(txs);
    forall c ensures c in cs <==> exists i :: 0 <= i < |txs| && txs[i].category == c {
      if c in cs {
        var i :| 0 <= i < |cs| && cs[i] == c;
        assert txs[i].category == c;
      }
    }
  }

  // ---------------------------------------------------------------------
  // filtered

  /** The five controls of the filter bar, as the text they hold. */
  datatype Filters = Filters(category: string, minAmount: string, maxAmount: string, from: string, to: string)

  /** `category === 'all' || t.category === category` */
  predicate CategoryOk(f: Filters, t: Transaction) {
    f.category == "all" || t.category == f.category
  }

  /** `t.amount >= (minAmount ? parseFloat(minAmount) : -Infinity)`; a NaN
      bound lets nothing through. */
  predicate AboveMin(f: Filters, parse: string -> JsNumber, t: Transaction) {
    f.minAmount == "" || (parse(f.minAmount).Finite? && t.amount >= parse(f.minAmount).value)
  }

  /** `t.amount <= (maxAmount ? parseFloat(maxAmount) : Infinity)` */
  predicate BelowMax(f: Filters, parse: string -> JsNumber, t: Transaction) {
    f.maxAmount == "" || (parse(f.maxAmount).Finite? && t.amount <= parse(f.maxAmount).value)
  }

  /** `new Date(t.date) >= (from ? new Date(from) : new Date(0))`; an
      Invalid Date lets nothing through. */
  predicate AfterFrom(f: Filters, t: Transaction) {
    if f.from == "" then Rank(Epoch) <= Rank(t.date)
    else ParseDay(f.from).Some? && Rank(ParseDay(f.from).value) <= Rank(t.date)
  }

  /** `new Date(t.date) <= (to ? new Date(to) : new Date(8640000000000000))`:
      the default is the last instant a Date can hold, later than every
      instant of the model. */
  predicate BeforeTo(f: Filters, t: Transaction) {
    f.to == "" || (ParseDay(f.to).Some? && Rank(t.date) <= Rank(ParseDay(f.to).value))
  }

  function Keep(f: Filters, parse: string -> JsNumber): Transaction -> bool {
    (t: Transaction) =>
      CategoryOk(f, t) && AboveMin(f, parse, t) && BelowMax(f, parse, t) && AfterFrom(f, t) && BeforeTo(f, t)
  }

  /** `filtered` */
  function Filtered(txs: seq<Transaction>, f: Filters, parse: string -> JsNumber): seq<Transaction> {
    Filter(txs, Keep(f, parse))
  }

  /** `filtered` keeps the order, and a transaction is in it exactly when it
      passes all five conditions. */
  lemma FilteredSpec(txs: seq<Transaction>, f: Filters, parse: string -> JsNumber)
    ensures IsSubsequence(Filtered(txs, f, parse), txs)
    ensures forall t :: t in Filtered(txs, f, parse) <==>
      && t in txs
      && CategoryOk(f, t) && AboveMin(f, parse, t) && BelowMax(f, parse, t)
      && AfterFrom(f, t) && BeforeTo(f, t)
  {
    FilterIsSubsequence(txs, Keep(f, parse));
    forall t ensures t in Filtered(txs, f, parse) <==> t in txs && Keep(f, parse)(t) {
      FilterMembers(txs, Keep(f, parse), t);
    }
  }

  function DateWindow(f: Filters): Transaction -> bool {
    (t: Transaction) => AfterFrom(f, t) && BeforeTo(f, t)
  }

  /** With category "all" and blank amount bounds only the dates limit the
      result; with blank dates too, what is kept is every transaction from
      1 January 1970 on. */
  lemma BlankFilters(txs: seq<Transaction>, f: Filters, parse: string -> JsNumber)
    requires f.category == "all" && f.minAmount == "" && f.maxAmount == ""
    ensures Filtered(txs, f, parse) == Filter(txs, DateWindow(f))
    ensures f.from == "" && f.to == "" && (forall i :: 0 <= i < |txs| ==> Rank(Epoch) <= Rank(txs[i].date)) ==>
              Filtered(txs, f, parse) == txs
  {
    FilterCongruent(txs, Keep(f, parse), DateWindow(f));
    if f.from == "" && f.to == "" && (forall i :: 0 <= i < |txs| ==> Rank(Epoch) <= Rank(txs[i].date)) {
      forall i | 0 <= i < |txs| ensures Keep(f, parse)(txs[i]) {
        assert AfterFrom(f, txs[i]) && BeforeTo(f, txs[i]);
      }
      FilterKeepsAll(txs, Keep(f, parse));
    }
  }

  /** The "to" day is read as its midnight, so a transaction later that day
      is left out. */
  lemma ToDayEndsAtMidnight(txs: seq<Transaction>, f: Filters, parse: string -> JsNumber, day: Instant, t: Transaction)
    requires f.to == DayText(day)
    requires t.date.year == day.year && t.date.month == day.month && t.date.day == day.day
    requires Rank(StartOfDay(day)) < Rank(t.date)
    ensures t !in Filtered(txs, f, parse)
  {
    DayTextRoundTrip(day);
    FilterMembers(txs, Keep(f, parse), t);
  }

  // ---------------------------------------------------------------------
  // categoryMap (expenses of filtered) and dateMap (net spend per day)

  /** `filtered.filter(t => t.type === 'expense').forEach(...)`: the spending
      per category. */
  method ExpenseByCategory(filtered: seq<Transaction>) returns (m: Tally)
    ensures m == GroupSum(Filter(filtered, IsExpense), CategoryOf, Amount)
    ensures WellFormed(m)
    ensures m.keys == Cats(Filter(filtered, IsExpense))
    ensures forall k :: k in m.keys <==> exists i :: 0 <= i < |Filter(filtered, IsExpense)| && Filter(filtered, IsExpense)[i].category == k
    ensures Total(m) == SumBy(Filter(filtered, IsExpense), Amount)
    ensures forall k :: Get(m, k) == SumBy(Filter(Filter(filtered, IsExpense), KeyIs(CategoryOf, k)), Amount)
  {
    var items := Filter(filtered, IsExpense);
    m := TallyBy(items, CategoryOf, Amount);
    GroupSumOrder(items, CategoryOf, Amount);
    assert CategoriesOf(items) == KeysOf(items, CategoryOf);
    CatsSpec(items);
    GroupSumTotal(items, CategoryOf, Amount);
    forall k ensures Get(m, k) == SumBy(Filter(items, KeyIs(CategoryOf, k)), Amount) {
      GroupSumGet(items, CategoryOf, Amount, k);
    }
  }

  /** `format(new Date(t.date), 'yyyy-MM-dd')` */
  function DayKey(t: Transaction): string {
    DayText(t.date)
  }

  /** `t.type === 'expense' ? t.amount : -t.amount` */
  function Signed(t: Transaction): real {
    if IsExpense(t) then t.amount else -t.amount
  }

  /** Signed amounts add up to spending less income. */
  lemma {:induction false} SignedSum(s: seq<Transaction>)
    ensures SumBy(s, Signed) == SumBy(Filter(s, IsExpense), Amount) - SumBy(Filter(s, IsIncome), Amount)
  {
    if |s| > 0 {
      var init, x := s[..|s| - 1], s[|s| - 1];
      SignedSum(init);
      SumByAppend(Filter(init, IsExpense), if IsExpense(x) then [x] else [], Amount);
      SumByAppend(Filter(init, IsIncome), if IsIncome(x) then [x] else [], Amount);
    }
  }

  /** The `forEach` that fills `dateMap`: its values total the spending less
      the income of `filtered`, and each day holds that day's net spend. */
  method DateMap(filtered: seq<Transaction>) returns (m: Tally)
    ensures m == GroupSum(filtered, DayKey, Signed)
    ensures WellFormed(m)
    ensures Total(m) == SumBy(Filter(filtered, IsExpense), Amount) - SumBy(Filter(filtered, IsIncome), Amount)
    ensures forall k :: Get(m, k) == SumBy(Filter(filtered, KeyIs(DayKey, k)), Signed)
  {
    m := TallyBy(filtered, DayKey, Signed);
    GroupSumTotal(filtered, DayKey, Signed);
    SignedSum(filtered);
    forall k ensures Get(m, k) == SumBy(Filter(filtered, KeyIs(DayKey, k)), Signed) {
      GroupSumGet(filtered, DayKey, Signed, k);
    }
  }

  /** `lineData`: the days in ascending order, each once, and the net spend
      of each. */
  method LineSeries(filtered: seq<Transaction>) returns (labels: seq<string>, data: seq<real>)
    ensures SortedBy(labels, StrLe)
    ensures NoDuplicates(labels)
    ensures forall k :: k in labels <==> exists i :: 0 <= i < |filtered| && DayKey(filtered[i]) == k
    ensures |data| == |labels|
    ensures forall i :: 0 <= i < |labels| ==> data[i] == SumBy(Filter(filtered, KeyIs(DayKey, labels[i])), Signed)
  {
    var m := DateMap(filtered);
    labels := SortedLabels(m);
    data := SeriesData(m, labels);
    DayLabels(filtered);
    forall i | 0 <= i < |labels| ensures data[i] == SumBy(Filter(filtered, KeyIs(DayKey, labels[i])), Signed) {
      assert data[i] == Get(m, labels[i]);
    }
  }

  /** The sorted keys of the day map are its days, each once, in order. */
  lemma DayLabels(filtered: seq<Transaction>)
    ensures SortedBy(SortedLabels(GroupSum(filtered, DayKey, Signed)), StrLe)
    ensures NoDuplicates(SortedLabels(GroupSum(filtered, DayKey, Signed)))

    ensures forall k :: k in SortedLabels(GroupSum(filtered, DayKey, Signed)) <==>
              exists i :: 0 <= i < |filtered| && DayKey(filtered[i]) == k
  {
    var m := GroupSum(filtered, DayKey, Signed);
    ChartSeries(m);
    forall k ensures k in SortedLabels(m) <==> exists i :: 0 <= i < |filtered| && DayKey(filtered[i]) == k {
      GroupSumKeys(filtered, DayKey, Signed, k);
      assert k in SortedLabels(m) <==> k in m.vals;
      assert k in m.vals <==> k in m.keys;
    }
  }

  // ---------------------------------------------------------------------
  // exportCSV

  const CsvHeader: string := "Date,Type,Category,Amount,Description,Notes"

  /** The six cells of a transaction's row; `t.description || ''` is the
      description itself, and missing notes are written as `""`. */
  function CsvCells(t: Transaction, show: real -> string): (cells: seq<string>)
    ensures |cells| == 6
  {
    [DayText(t.date), TxTypeName(t.kind), t.category, show(t.amount),
     Quote(t.description), Quote(t.notes.GetOr(""))]
  }

  /** `cells.join(',')` */
  function Join(cells: seq<string>): string {
    if |cells| == 0 then ""
    else if |cells| == 1 then cells[0]
    else cells[0] + "," + Join(cells[1..])
  }

  function CsvRow(t: Transaction, show: real -> string): string {
    Join(CsvCells(t, show))
  }

  /** `rows`, built by the header push and the `forEach`. */
  method CsvRows(filtered: seq<Transaction>, show: real -> string) returns (rows: seq<string>)
    ensures |rows| == |filtered| + 1
    ensures rows[0] == CsvHeader
    ensures forall i :: 0 <= i < |filtered| ==> rows[i + 1] == CsvRow(filtered[i], show)
  {
    rows := [CsvHeader];
    var i := 0;
    while i < |filtered|
      invariant 0 <= i <= |filtered|
      invariant |rows| == i + 1 && rows[0] == CsvHeader
      invariant forall j :: 0 <= j < i ==> rows[j + 1] == CsvRow(filtered[j], show)
    {
      rows := rows + [CsvRow(filtered[i], show)];
      i := i + 1;
    }
  }

  // A reader for such a row: four plain cells, then two quoted ones.

  /** The text up to the first comma, and what follows that comma. */
  function PlainCell(s: string): Option<(string, string)>
    decreases |s|
  {
    if |s| == 0 then None
    else if s[0] == ',' then Some(("", s[1..]))
    else
      var (c, rest) :- PlainCell(s[1..]);
      Some(([s[0]] + c, rest))
  }

  function ReadRow(s: string): Option<seq<string>> {
    var (a, s1) :- PlainCell(s);
    var (b, s2) :- PlainCell(s1);
    var (c, s3) :- PlainCell(s2);
    var (d, s4) :- PlainCell(s3);
    var quoted :- ReadQuotedPair(s4);
    Some([a, b, c, d] + quoted)
  }

  /** The two quoted cells that end a row. */
  function ReadQuotedPair(s: string): Option<seq<string>> {
    var (e, s5) :- ReadQuoted(s);
    if |s5| == 0 || s5[0] != ',' then None
    else
      var (f, s6) :- ReadQuoted(s5[1..]);
      if s6 == "" then Some([e, f]) else None
  }

  lemma QuotedPairRoundTrip(e: string, f: string)
    ensures ReadQuotedPair(Quote(e) + "," + Quote(f)) == Some([e, f])
  {
    var qf := Quote(f);
    QuoteRoundTrip(e, "," + qf);
    assert Quote(e) + "," + qf == Quote(e) + ("," + qf);
    assert ("," + qf)[1..] == qf;
    QuoteRoundTrip(f, "");
    assert qf + "" == qf;
  }

  lemma {:induction false} PlainCellRoundTrip(c: string, tail: string)
    requires ',' !in c
    ensures PlainCell(c + "," + tail) == Some((c, tail))
  {
    if |c| == 0 {
      assert c + "," + tail == "," + tail;
    } else {
      PlainCellRoundTrip(c[1..], tail);
      assert (c + "," + tail)[1..] == c[1..] + "," + tail;
      assert [c[0]] + c[1..] == c;
    }
  }

  lemma DayTextHasNoComma(d: Instant)
    ensures ',' !in DayText(d)
  {
    var s := DayText(d);
    DayTextParts(d);
    forall i | 0 <= i < |s| ensures s[i] != ',' {
      if i < 4 { assert s[i] == s[..4][i]; }
      else if 5 <= i < 7 { assert s[i] == s[5..7][i - 5]; }
      else if 8 <= i { assert s[i] == s[8..10][i - 8]; }
    }
  }

  /** A row reads back as its six cells, the quoted ones unquoted, as long as
      the category and the amount's text hold no comma (the export does not
      quote them). */
  lemma CsvRowRoundTrip(t: Transaction, show: real -> string)
    requires ',' !in t.category && ',' !in show(t.amount)
    ensures ReadRow(CsvRow(t, show)) ==
      Some([DayText(t.date), TxTypeName(t.kind), t.category, show(t.amount), t.description, t.notes.GetOr("")])
  {
    var cells := CsvCells(t, show);
    var tail := Quote(t.description) + "," + Quote(t.notes.GetOr(""));
    assert Join(cells[4..]) == tail;
    assert Join(cells[3..]) == cells[3] + "," + tail;
    assert Join(cells[2..]) == cells[2] + "," + Join(cells[3..]);
    assert Join(cells[1..]) == cells[1] + "," + Join(cells[2..]);
    DayTextHasNoComma(t.date);
    assert ',' !in TxTypeName(t.kind);
    PlainCellRoundTrip(cells[0], Join(cells[1..]));
    PlainCellRoundTrip(cells[1], Join(cells[2..]));
    PlainCellRoundTrip(cells[2], Join(cells[3..]));
    PlainCellRoundTrip(cells[3], tail);
    QuotedPairRoundTrip(t.description, t.notes.GetOr(""));
    var row := CsvRow(t, show);
    assert row == cells[0] + "," + Join(cells[1..]);
    assert PlainCell(row) == Some((cells[0], Join(cells[1..])));
    assert PlainCell(Join(cells[1..])) == Some((cells[1], Join(cells[2..])));
    assert PlainCell(Join(cells[2..])) == Some((cells[2], Join(cells[3..])));
    assert PlainCell(Join(cells[3..])) == Some((cells[3], tail));
    assert ReadQuotedPair(tail) == Some([t.description, t.notes.GetOr("")]);
    assert [cells[0], cells[1], cells[2], cells[3]] + [t.description, t.notes.GetOr("")] ==
      [DayText(t.date), TxTypeName(t.kind), t.category, show(t.amount), t.description, t.notes.GetOr("")];
  }
}
