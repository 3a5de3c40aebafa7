/** The persistence adapter over the browser's key-value store: typed get and
    save of the transaction list, the budget and the settings under three keys,
    seeding of sample data, and reset.

    A stored value is text. `Value` names the shapes of text the adapter
    meets: the JSON array `saveTransactions` writes (records with the date as
    text); any text that `Number` reads as a finite number n, which is first
    of all the decimal text `String(n)` that `saveBudget` writes, but also
    blank text (0), padded text such as " 5 " and hexadecimal text such as
    "0x10"; the JSON object `saveSettings` writes (with the string at its
    `theme` member, if any); and any other text, which `Number` reads as NaN.
    `JSON.stringify`/`JSON.parse` and `String`/`Number` are read through this
    classification. */
module Storage {
  import opened Wrappers
  import opened Calendar
  import opened Sequences
  import opened Expense

  const TransactionsKey: string := "et.transactions"
  const BudgetKey: string := "et.budget"
  const SettingsKey: string := "et.settings"

  datatype ThemeMode = Light | Dark

  function ThemeName(m: ThemeMode): string {
    match m
    case Light => "light"
    case Dark => "dark"
  }

  /** The settings object. Its theme is whatever string the stored object held,
      "light" or "dark" when written by the application. */
  datatype AppSettings = AppSettings(theme: string)

  const DefaultSettings: AppSettings := AppSettings("light")

  /** A transaction record in the stored JSON: the date is its ISO text. */
  datatype StoredTx = StoredTx(
    id: string,
    amount: real,
    description: string,
    category: string,
    kind: TxType,
    date: string,
    paymentMethod: Option<string>,
    notes: Option<string>)

  datatype Value =
    | RecordsText(records: seq<StoredTx>)
    | NumberText(number: real)
    | ObjectText(theme: Option<string>)
    | OtherText(text: string)

  /** `localStorage`: `getItem`, `setItem` and `removeItem` over one map. */
  class KeyValueStore {
    var entries: map<string, Value>

    constructor(initial: map<string, Value>)
      ensures entries == initial
    {
      entries := initial;
    }

    method GetItem(key: string) returns (v: Option<Value>)
      ensures v == if key in entries then Some(entries[key]) else None
    {
      v := if key in entries then Some(entries[key]) else None;
    }

    method SetItem(key: string, v: Value)
      modifies this
      ensures entries == old(entries)[key := v]
    {
      entries := entries[key := v];
    }

    method RemoveItem(key: string)
      modifies this
      ensures entries == old(entries) - {key}
    {
      entries := entries - {key};
    }
  }

  // ---------------------------------------------------------------------
  // Encoding and decoding

  /** `{ ...t, date: t.date.toISOString() }` */
  function Serialize(t: Transaction): StoredTx {
    StoredTx(t.id, t.amount, t.description, t.category, t.kind, IsoText(t.date), t.paymentMethod, t.notes)
  }

  function SerializeAll(list: seq<Transaction>): (r: seq<StoredTx>)
    ensures |r| == |list|
    ensures forall i :: 0 <= i < |list| ==> r[i] == Serialize(list[i])
  {
    if |list| == 0 then [] else SerializeAll(list[..|list| - 1]) + [Serialize(list[|list| - 1])]
  }

  /** `{ ...t, date: new Date(t.date) }` for one record; None when its date
      text is not the ISO text `toISOString` writes. */
  function Revive(r: StoredTx): (t: Option<Transaction>)
    ensures t.Some? ==> t.value.id == r.id && t.value.amount == r.amount && t.value.kind == r.kind
  {
    match ParseIso(r.date)
    case Some(d) => Some(Transaction(r.id, r.amount, r.description, r.category, r.kind, d, r.paymentMethod, r.notes))
    case None => None
  }

  /** The record's date text reads as an instant. */
  predicate DateReads(r: StoredTx) {
    ParseIso(r.date).Some?
  }

  /** `reviveTransactions`, keeping the records whose date reads back. */
  function ReviveTransactions(raw: seq<StoredTx>): (list: seq<Transaction>)
    ensures |list| <= |raw|
  {
    if |raw| == 0 then []
    else
      var init := ReviveTransactions(raw[..|raw| - 1]);
      match Revive(raw[|raw| - 1])
      case Some(t) => init + [t]
      case None => init
  }

  /** The revived list is, in order, the records whose date reads, each
      revived. */
  lemma {:induction false} ReviveTransactionsSpec(raw: seq<StoredTx>)
    ensures |ReviveTransactions(raw)| == |Filter(raw, DateReads)|
    ensures forall i :: 0 <= i < |ReviveTransactions(raw)| ==>
      Some(ReviveTransactions(raw)[i]) == Revive(Filter(raw, DateReads)[i])
  {
    if |raw| > 0 {
      ReviveTransactionsSpec(raw[..|raw| - 1]);
    }
  }

  /** Reviving keeps every record exactly when every stored date reads. */
  lemma ReviveKeepsAll(raw: seq<StoredTx>)
    ensures |ReviveTransactions(raw)| == |raw| <==> forall i :: 0 <= i < |raw| ==> DateReads(raw[i])
    ensures (forall i :: 0 <= i < |raw| ==> DateReads(raw[i])) ==>
      forall i :: 0 <= i < |raw| ==> Some(ReviveTransactions(raw)[i]) == Revive(raw[i])
  {
    ReviveTransactionsSpec(raw);
    var fails := (r: StoredTx) => !DateReads(r);
    FilterPartitionLength(raw, DateReads, fails);
    if forall i :: 0 <= i < |raw| ==> DateReads(raw[i]) {
      FilterKeepsAll(raw, DateReads);
    } else {
      var i :| 0 <= i < |raw| && !DateReads(raw[i]);
      FilterMembers(raw, fails, raw[i]);
    }
  }

  /** Each record serialises and revives to itself. */
  lemma ReviveOfSerialize(t: Transaction)
    ensures Revive(Serialize(t)) == Some(t)
  {
    IsoRoundTrip(t.date);
  }

  /** Saving a list and reviving it gives the same list, field for field. */
  lemma {:induction false} ReviveSerializeAll(list: seq<Transaction>)
    ensures ReviveTransactions(SerializeAll(list)) == list
  {
    if |list| > 0 {
      var init, last := list[..|list| - 1], list[|list| - 1];
      var s := SerializeAll(list);
      assert s == SerializeAll(init) + [Serialize(last)];
      assert s[..|s| - 1] == SerializeAll(init);
      ReviveSerializeAll(init);
      ReviveOfSerialize(last);
      assert ReviveTransactions(s) == ReviveTransactions(SerializeAll(init)) + [last];
      assert list == init + [last];
    }
  }

  /** What `getTransactions` returns for a store: the empty list when the key is
      absent or its text is not an array of records (`JSON.parse` fails or
      `.map` is not a function there, and the `catch` answers `[]`). */
  function ReadTransactions(entries: map<string, Value>): (list: seq<Transaction>)
    ensures (TransactionsKey !in entries || !entries[TransactionsKey].RecordsText?) ==> list == []
  {
    if TransactionsKey in entries && entries[TransactionsKey].RecordsText? then
      ReviveTransactions(entries[TransactionsKey].records)
    else []
  }

  function EncodeTransactions(list: seq<Transaction>): Value {
    RecordsText(SerializeAll(list))
  }

  /** What `getBudget` returns: `raw ? Number(raw) : 0`. The empty text is
      falsy, and `Number("")` is 0 as well; a JSON array or object text,
      `"[]"` and `"{}"` among them, reads as NaN. */
  function ReadBudget(entries: map<string, Value>): (b: JsNumber)
    ensures BudgetKey !in entries ==> b == Finite(0.0)
    ensures b.Finite? <==> BudgetKey !in entries || entries[BudgetKey].NumberText?
    ensures BudgetKey in entries && entries[BudgetKey].NumberText? ==> b == Finite(entries[BudgetKey].number)
  {
    if BudgetKey !in entries then Finite(0.0)
    else
      match entries[BudgetKey]
      case NumberText(n) => Finite(n)
      case _ => NaN
  }

  /** `String(amount || 0)` */
  function EncodeBudget(amount: JsNumber): Value {
    NumberText(OrZero(amount))
  }

  /** What `getSettings` returns: theme "light", overridden by the string at
      the stored object's `theme` member. */
  function ReadSettings(entries: map<string, Value>): (s: AppSettings)
    ensures (SettingsKey !in entries || !entries[SettingsKey].ObjectText?) ==> s == DefaultSettings
  {
    if SettingsKey in entries then
      match entries[SettingsKey]
      case ObjectText(Some(theme)) => AppSettings(theme)
      case _ => DefaultSettings
    else DefaultSettings
  }

  function EncodeSettings(s: AppSettings): Value {
    ObjectText(Some(s.theme))
  }

  /** Saving a transaction list and reading it back yields the list. */
  lemma TransactionsRoundTrip(entries: map<string, Value>, list: seq<Transaction>)
    ensures ReadTransactions(entries[TransactionsKey := EncodeTransactions(list)]) == list
  {
    ReviveSerializeAll(list);
  }

  /** Saving a budget and reading it back yields it, or 0 when it was falsy. */
  lemma BudgetRoundTrip(entries: map<string, Value>, amount: JsNumber)
    ensures ReadBudget(entries[BudgetKey := EncodeBudget(amount)]) == Finite(OrZero(amount))
    ensures amount.Finite? ==> ReadBudget(entries[BudgetKey := EncodeBudget(amount)]) == amount
  {
  }

  /** Saving settings and reading them back yields them. */
  lemma SettingsRoundTrip(entries: map<string, Value>, s: AppSettings)
    ensures ReadSettings(entries[SettingsKey := EncodeSettings(s)]) == s
  {
  }

  lemma KeysDistinct()
    ensures TransactionsKey != BudgetKey && BudgetKey != SettingsKey && TransactionsKey != SettingsKey
  {
    assert TransactionsKey[3] != BudgetKey[3] && BudgetKey[3] != SettingsKey[3] && TransactionsKey[3] != SettingsKey[3];
  }

  /** The three keys are distinct, so each reader sees only its own key. */
  lemma ReadersIndependent(entries: map<string, Value>, v: Value)
    ensures ReadBudget(entries[TransactionsKey := v]) == ReadBudget(entries)
    ensures ReadBudget(entries[SettingsKey := v]) == ReadBudget(entries)
    ensures ReadTransactions(entries[BudgetKey := v]) == ReadTransactions(entries)
    ensures ReadTransactions(entries[SettingsKey := v]) == ReadTransactions(entries)
    ensures ReadSettings(entries[TransactionsKey := v]) == ReadSettings(entries)
    ensures ReadSettings(entries[BudgetKey := v]) == ReadSettings(entries)
  {
    KeysDistinct();
  }

  // ---------------------------------------------------------------------
  // Sample data and reset

  /** The three sample records, with fresh ids and the current instant. */
  function SampleTransactions(id1: string, id2: string, id3: string, now: Instant): (sample: seq<Transaction>)
    ensures |sample| == 3
  {
    [ Transaction(id1, 75000.0, "Monthly Salary", "Salary", Income, now, Some("netbanking"), Some("Sample data")),
      Transaction(id2, 2850.0, "Grocery Shopping", "Groceries", Expense, now, Some("upi"), Some("Sample data")),
      Transaction(id3, 18000.0, "House Rent", "Rent/EMI", Expense, now, Some("upi"), None) ]
  }

  /** The store after `seedSampleDataIfNeeded`. */
  function Seeded(entries: map<string, Value>, id1: string, id2: string, id3: string, now: Instant): map<string, Value> {
    if |ReadTransactions(entries)| > 0 then entries
    else entries[TransactionsKey := EncodeTransactions(SampleTransactions(id1, id2, id3, now))]
  }

  /** Seeding a store whose transaction list reads as empty stores the sample:
      three records, one income and two expenses; nothing else changes. */
  lemma SeedEmpty(entries: map<string, Value>, id1: string, id2: string, id3: string, now: Instant)
    requires ReadTransactions(entries) == []
    ensures ReadTransactions(Seeded(entries, id1, id2, id3, now)) == SampleTransactions(id1, id2, id3, now)
    ensures |Filter(SampleTransactions(id1, id2, id3, now), IsIncome)| == 1
    ensures |Filter(SampleTransactions(id1, id2, id3, now), IsExpense)| == 2
    ensures forall k :: k != TransactionsKey ==>
      && (k in Seeded(entries, id1, id2, id3, now) <==> k in entries)
      && (k in entries ==> Seeded(entries, id1, id2, id3, now)[k] == entries[k])
  {
    var s := SampleTransactions(id1, id2, id3, now);
    TransactionsRoundTrip(entries, s);
    assert Filter(s[..1], IsIncome) == [s[0]] by { assert s[..1][..0] == []; }
    assert Filter(s[..2], IsIncome) == [s[0]] by { assert s[..2][..1] == s[..1]; }
    assert Filter(s, IsIncome) == [s[0]] by { assert s[..3][..2] == s[..2]; assert s[..3] == s; }
    assert Filter(s[..1], IsExpense) == [] by { assert s[..1][..0] == []; }
    assert Filter(s[..2], IsExpense) == [s[1]] by { assert s[..2][..1] == s[..1]; }
    assert Filter(s, IsExpense) == [s[1], s[2]] by { assert s[..3][..2] == s[..2]; assert s[..3] == s; }
  }

  /** Seeding never overwrites a list that reads as non-empty, so a second
      seeding, whatever ids and instant it is given, changes nothing. */
  lemma SeedOnce(entries: map<string, Value>, id1: string, id2: string, id3: string, now: Instant,
                 id1': string, id2': string, id3': string, now': Instant)
    ensures Seeded(Seeded(entries, id1, id2, id3, now), id1', id2', id3', now') == Seeded(entries, id1, id2, id3, now)
  {
    TransactionsRoundTrip(entries, SampleTransactions(id1, id2, id3, now));
  }

  /** The store after `resetAllData`: the three keys are gone, every other key
      holds what it held. */
  function Cleared(entries: map<string, Value>): (r: map<string, Value>)
    ensures TransactionsKey !in r && BudgetKey !in r && SettingsKey !in r
    ensures forall k :: k in r <==> k in entries && k != TransactionsKey && k != BudgetKey && k != SettingsKey
    ensures forall k :: k in r ==> r[k] == entries[k]
  {
    entries - {TransactionsKey} - {BudgetKey} - {SettingsKey}
  }

  /** After a reset, every reader answers its default. */
  lemma ClearedReadsDefaults(entries: map<string, Value>)
    ensures ReadTransactions(Cleared(entries)) == []
    ensures ReadBudget(Cleared(entries)) == Finite(0.0)
    ensures ReadSettings(Cleared(entries)) == DefaultSettings
  {
  }

  // ---------------------------------------------------------------------
  // The adapter's operations on the shared store

  method GetTransactions(store: KeyValueStore) returns (list: seq<Transaction>)
    ensures list == ReadTransactions(store.entries)
  {
    var raw := store.GetItem(TransactionsKey);
    match raw
    case Some(RecordsText(records)) =>
      list := ReviveTransactions(records);
    case _ =>
      list := [];
  }

  method SaveTransactions(store: KeyValueStore, list: seq<Transaction>)
    modifies store
    ensures store.entries == old(store.entries)[TransactionsKey := EncodeTransactions(list)]
  {
    store.SetItem(TransactionsKey, EncodeTransactions(list));
  }

  method GetBudget(store: KeyValueStore) returns (b: JsNumber)
    ensures b == ReadBudget(store.entries)
  {
    var raw := store.GetItem(BudgetKey);
    match raw
    case None => b := Finite(0.0);
    case Some(NumberText(n)) => b := Finite(n);
    case Some(_) => b := NaN;
  }

  method SaveBudget(store: KeyValueStore, amount: JsNumber)
    modifies store
    ensures store.entries == old(store.entries)[BudgetKey := EncodeBudget(amount)]
  {
    store.SetItem(BudgetKey, NumberText(OrZero(amount)));
  }

  method GetSettings(store: KeyValueStore) returns (s: AppSettings)
    ensures s == ReadSettings(store.entries)
  {
    var raw := store.GetItem(SettingsKey);
    s := DefaultSettings;
    match raw
    case Some(ObjectText(Some(theme))) => s := AppSettings(theme);
    case _ =>
  }

  method SaveSettings(store: KeyValueStore, s: AppSettings)
    modifies store
    ensures store.entries == old(store.entries)[SettingsKey := EncodeSettings(s)]
  {
    store.SetItem(SettingsKey, EncodeSettings(s));
  }

  /** Ids (`crypto.randomUUID()`) and the current instant are supplied by the
      caller. */
  method SeedSampleDataIfNeeded(store: KeyValueStore, id1: string, id2: string, id3: string, now: Instant)
    modifies store
    ensures store.entries == Seeded(old(store.entries), id1, id2, id3, now)
  {
    var existing := GetTransactions(store);
    if |existing| > 0 {
      return;
    }
    SaveTransactions(store, SampleTransactions(id1, id2, id3, now));
  }

  method ResetAllData(store: KeyValueStore)
    modifies store
    ensures store.entries == Cleared(old(store.entries))
  {
    store.RemoveItem(TransactionsKey);
    store.RemoveItem(BudgetKey);
    store.RemoveItem(SettingsKey);
  }
}
