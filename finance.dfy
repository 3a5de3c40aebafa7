/** The finance state container: the in-memory transaction list, budget and
    settings of a session, the operations that replace them, and the
    persistence that follows every change. React's persist effects are written
    as a save at the end of each operation; an effect runs only when its state
    changed (for the budget, a set to the same number renders nothing and
    saves nothing). */
module Finance {
  import opened Wrappers
  import opened Calendar
  import opened Sequences
  import opened Expense
  import opened Storage

  // ---------------------------------------------------------------------
  // The list transforms of add, update and delete

  /** `[{ ...tx, id }, ...prev]` */
  function Prepend(list: seq<Transaction>, tx: TxFields, id: string): (r: seq<Transaction>)
    ensures |r| == |list| + 1 && r[0] == WithId(tx, id) && r[1..] == list
  {
    [WithId(tx, id)] + list
  }

  /** `prev.map(p => p.id === id ? { ...tx, id } : p)` */
  function ReplaceById(list: seq<Transaction>, id: string, tx: TxFields): (r: seq<Transaction>)
    ensures |r| == |list|
  {
    if |list| == 0 then []
    else
      var last := list[|list| - 1];
      ReplaceById(list[..|list| - 1], id, tx) + [if last.id == id then WithId(tx, id) else last]
  }

  /** `prev.filter(p => p.id !== id)` */
  function RemoveById(list: seq<Transaction>, id: string): seq<Transaction> {
    Filter(list, (t: Transaction) => t.id != id)
  }

  predicate HasId(list: seq<Transaction>, id: string) {
    exists i :: 0 <= i < |list| && list[i].id == id
  }

  ghost predicate UniqueIds(list: seq<Transaction>) {
    forall i, j :: 0 <= i < j < |list| ==> list[i].id != list[j].id
  }

  /** Update keeps the length and the order; the records with the id become
      the new fields under that id, and every other record stays as it was. */
  lemma {:induction false} ReplaceByIdAt(list: seq<Transaction>, id: string, tx: TxFields, i: int)
    requires 0 <= i < |list|
    ensures ReplaceById(list, id, tx)[i] == if list[i].id == id then WithId(tx, id) else list[i]
    ensures ReplaceById(list, id, tx)[i].id == list[i].id
  {
    if i < |list| - 1 {
      ReplaceByIdAt(list[..|list| - 1], id, tx, i);
    }
  }

  /** Updating an id that is not in the list leaves the list as it was. */
  lemma {:induction false} ReplaceUnknownId(list: seq<Transaction>, id: string, tx: TxFields)
    requires !HasId(list, id)
    ensures ReplaceById(list, id, tx) == list
  {
    if |list| > 0 {
      var init := list[..|list| - 1];
      assert forall i :: 0 <= i < |init| ==> init[i] == list[i];
      ReplaceUnknownId(init, id, tx);
      assert list == init + [list[|list| - 1]];
    }
  }

  /** Delete keeps exactly the records with another id, in their order. */
  lemma RemoveByIdSpec(list: seq<Transaction>, id: string)
    ensures IsSubsequence(RemoveById(list, id), list)
    ensures forall t :: multiset(RemoveById(list, id))[t] == if t.id == id then 0 else multiset(list)[t]
    ensures !HasId(RemoveById(list, id), id)
  {
    var p := (t: Transaction) => t.id != id;
    FilterIsSubsequence(list, p);
    forall t ensures multiset(RemoveById(list, id))[t] == if t.id == id then 0 else multiset(list)[t] {
      FilterCount(list, p, t);
    }
    var r := RemoveById(list, id);
    if HasId(r, id) {
      var i :| 0 <= i < |r| && r[i].id == id;
      FilterMembers(list, p, r[i]);
      assert false;
    }
  }

  /** Deleting an id that is not in the list leaves the list as it was. */
  lemma RemoveUnknownId(list: seq<Transaction>, id: string)
    requires !HasId(list, id)
    ensures RemoveById(list, id) == list
  {
    FilterKeepsAll(list, (t: Transaction) => t.id != id);
  }

  /** Delete is idempotent. */
  lemma RemoveByIdIdempotent(list: seq<Transaction>, id: string)
    ensures RemoveById(RemoveById(list, id), id) == RemoveById(list, id)
  {
    RemoveByIdSpec(list, id);
    RemoveUnknownId(RemoveById(list, id), id);
  }

  /** Add with an id not yet in the list keeps the ids pairwise distinct. */
  lemma PrependKeepsIdsUnique(list: seq<Transaction>, tx: TxFields, id: string)
    requires UniqueIds(list) && !HasId(list, id)
    ensures UniqueIds(Prepend(list, tx, id))
  {
    var r := Prepend(list, tx, id);
    forall i, j | 0 <= i < j < |r| ensures r[i].id != r[j].id {
      assert r[j] == list[j - 1];
      if i > 0 { assert r[i] == list[i - 1]; }
    }
  }

  /** Update keeps every id in place, so distinct ids stay distinct. */
  lemma ReplaceKeepsIdsUnique(list: seq<Transaction>, id: string, tx: TxFields)
    requires UniqueIds(list)
    ensures UniqueIds(ReplaceById(list, id, tx))
  {
    var r := ReplaceById(list, id, tx);
    forall i, j | 0 <= i < j < |r| ensures r[i].id != r[j].id {
      ReplaceByIdAt(list, id, tx, i);
      ReplaceByIdAt(list, id, tx, j);
    }
  }

  /** Delete keeps a subsequence, so distinct ids stay distinct. */
  lemma RemoveKeepsIdsUnique(list: seq<Transaction>, id: string)
    requires UniqueIds(list)
    ensures UniqueIds(RemoveById(list, id))
  {
    var p := (t: Transaction) => t.id != id;
    var idx := FilterIndexes(list, p);
    var r := RemoveById(list, id);
    forall i, j | 0 <= i < j < |r| ensures r[i].id != r[j].id {
      assert idx[i] < idx[j];
    }
  }

  // ---------------------------------------------------------------------
  // The provider

  class FinanceProvider {
    const store: KeyValueStore
    var transactions: seq<Transaction>
    var budget: JsNumber
    var settings: AppSettings
    /** Whether the document root carries the "dark" class. */
    var dark: bool

    /** The stored values are the in-memory ones, and the page is dark exactly
        when the theme is "dark". The budget is compared as it reads back: a
        NaN in memory is stored as 0. */
    ghost predicate Synced()
      reads this, store
    {
      && TransactionsKey in store.entries
      && store.entries[TransactionsKey] == EncodeTransactions(transactions)
      && ReadBudget(store.entries) == Finite(OrZero(budget))
      && SettingsKey in store.entries
      && store.entries[SettingsKey] == EncodeSettings(settings)
      && dark == (settings.theme == "dark")
    }

    /** Mounting the provider: seed the store if it has no transactions, load
        the three values, and persist them. */
    constructor (store: KeyValueStore, id1: string, id2: string, id3: string, now: Instant)
      modifies store
      ensures this.store == store
      ensures transactions == ReadTransactions(Seeded(old(store.entries), id1, id2, id3, now))
      ensures budget == ReadBudget(old(store.entries))
      ensures settings == ReadSettings(old(store.entries))
      ensures store.entries == Seeded(old(store.entries), id1, id2, id3, now)
                 [TransactionsKey := EncodeTransactions(transactions)]
                 [BudgetKey := EncodeBudget(budget)]
                 [SettingsKey := EncodeSettings(settings)]
      ensures Synced()
    {
      this.store := store;
      transactions := [];
      budget := Finite(0.0);
      settings := DefaultSettings;
      dark := false;
      new;
      ghost var e0 := store.entries;
      SeedSampleDataIfNeeded(store, id1, id2, id3, now);
      ReadersIndependent(e0, EncodeTransactions(SampleTransactions(id1, id2, id3, now)));
      var loaded := GetTransactions(store);
      var b := GetBudget(store);
      var s := GetSettings(store);
      transactions, budget, settings := loaded, b, s;
      KeysDistinct();
      ghost var e1 := store.entries;
      SaveTransactions(store, transactions);
      ghost var e2 := store.entries;
      SaveBudget(store, budget);
      BudgetRoundTrip(e2, budget);
      ghost var e3 := store.entries;
      SaveSettings(store, settings);
      ReadersIndependent(e3, EncodeSettings(settings));
      dark := settings.theme == "dark";
    }

    /** `addTransaction`: the new record, with the supplied fresh id, goes
        first. */
    method AddTransaction(tx: TxFields, newId: string)
      requires Synced()
      modifies this, store
      ensures transactions == Prepend(old(transactions), tx, newId)
      ensures budget == old(budget) && settings == old(settings) && dark == old(dark)
      ensures store.entries == old(store.entries)[TransactionsKey := EncodeTransactions(transactions)]
      ensures Synced()
    {
      ReadersIndependent(store.entries, EncodeTransactions(Prepend(transactions, tx, newId)));
      transactions := Prepend(transactions, tx, newId);
      SaveTransactions(store, transactions);
    }

    method UpdateTransaction(id: string, tx: TxFields)
      requires Synced()
      modifies this, store
      ensures transactions == ReplaceById(old(transactions), id, tx)
      ensures budget == old(budget) && settings == old(settings) && dark == old(dark)
      ensures store.entries == old(store.entries)[TransactionsKey := EncodeTransactions(transactions)]
      ensures Synced()
    {
      ReadersIndependent(store.entries, EncodeTransactions(ReplaceById(transactions, id, tx)));
      transactions := ReplaceById(transactions, id, tx);
      SaveTransactions(store, transactions);
    }

    method DeleteTransaction(id: string)
      requires Synced()
      modifies this, store
      ensures transactions == RemoveById(old(transactions), id)
      ensures budget == old(budget) && settings == old(settings) && dark == old(dark)
      ensures store.entries == old(store.entries)[TransactionsKey := EncodeTransactions(transactions)]
      ensures Synced()
    {
      ReadersIndependent(store.entries, EncodeTransactions(RemoveById(transactions, id)));
      transactions := RemoveById(transactions, id);
      SaveTransactions(store, transactions);
    }

    /** `setBudget(amount)`: the budget becomes `amount || 0`; it is saved only
        when that differs from the current budget. */
    method SetBudget(amount: JsNumber)
      requires Synced()
      modifies this, store
      ensures budget == Finite(OrZero(amount))
      ensures transactions == old(transactions) && settings == old(settings) && dark == old(dark)
      ensures store.entries == if budget == old(budget) then old(store.entries)
                               else old(store.entries)[BudgetKey := EncodeBudget(budget)]
      ensures Synced()
    {
      var next := Finite(OrZero(amount));
      if next != budget {
        budget := next;
        SaveBudget(store, budget);
      }
    }

    /** `setTheme(mode)`: only the theme changes; the page follows it. */
    method SetTheme(mode: ThemeMode)
      requires Synced()
      modifies this, store
      ensures settings == old(settings).(theme := ThemeName(mode))
      ensures dark == (mode == Dark)
      ensures transactions == old(transactions) && budget == old(budget)
      ensures store.entries == old(store.entries)[SettingsKey := EncodeSettings(settings)]
      ensures Synced()
    {
      ReadersIndependent(store.entries, EncodeSettings(settings.(theme := ThemeName(mode))));
      settings := settings.(theme := ThemeName(mode));
      SaveSettings(store, settings);
      dark := settings.theme == "dark";
    }

    /** The loading half of `resetData`: each value is read from the store
        and set, and each persist effect whose state changed saves it. (A
        stored budget that reads as NaN would stay in the store when the
        budget in memory is NaN too; after a reset it reads as 0.) */
    method Reload()
      requires ReadBudget(store.entries).Finite?
      modifies this, store
      ensures transactions == ReadTransactions(old(store.entries))
      ensures budget == ReadBudget(old(store.entries))
      ensures settings == ReadSettings(old(store.entries))
      ensures SameOtherKeys(old(store.entries), store.entries)
      ensures Synced()
    {
      KeysDistinct();
      ghost var e0 := store.entries;
      var t := GetTransactions(store);
      var b := GetBudget(store);
      var s := GetSettings(store);
      transactions := t;
      SaveTransactions(store, transactions);
      ReadersIndependent(e0, EncodeTransactions(transactions));
      SameOtherKeysUpdate(e0, TransactionsKey, EncodeTransactions(transactions));
      ghost var e1 := store.entries;
      ReloadBudget(b);
      ghost var e2 := store.entries;
      SameOtherKeysTransitive(e0, e1, e2);
      settings := s;
      SaveSettings(store, settings);
      ReadersIndependent(e2, EncodeSettings(settings));
      SameOtherKeysUpdate(e2, SettingsKey, EncodeSettings(settings));
      SameOtherKeysTransitive(e0, e2, store.entries);
      dark := settings.theme == "dark";
    }

    /** The budget half of a reload; the persist effect runs only when the
        value read differs from the one held. */
    method ReloadBudget(b: JsNumber)
      requires b.Finite? && ReadBudget(store.entries) == b
      modifies this, store
      ensures budget == b
      ensures transactions == old(transactions) && settings == old(settings) && dark == old(dark)
      ensures store.entries == if b == old(budget) then old(store.entries)
                               else old(store.entries)[BudgetKey := EncodeBudget(b)]
      ensures ReadBudget(store.entries) == b
    {
      if b != budget {
        budget := b;
        SaveBudget(store, budget);
        BudgetRoundTrip(old(store.entries), budget);
      }
    }

    /** `resetData`: clear the three keys, seed, and reload. Keys other than the
        three keep what they held. */
    method ResetData(id1: string, id2: string, id3: string, now: Instant)
      modifies this, store
      ensures transactions == SampleTransactions(id1, id2, id3, now)
      ensures budget == Finite(0.0) && settings == DefaultSettings && !dark
      ensures SameOtherKeys(old(store.entries), store.entries)
      ensures Synced()
    {
      KeysDistinct();
      ghost var e0 := store.entries;
      ResetAllData(store);
      ghost var cleared := store.entries;
      ClearedReadsDefaults(e0);
      SeedSampleDataIfNeeded(store, id1, id2, id3, now);
      SeedEmpty(cleared, id1, id2, id3, now);
      ReadersIndependent(cleared, EncodeTransactions(SampleTransactions(id1, id2, id3, now)));
      Reload();
    }
  }

  /** `e'` holds what `e` holds at every key but the adapter's three. */
  ghost predicate SameOtherKeys(e: map<string, Value>, e': map<string, Value>) {
    forall k :: k != TransactionsKey && k != BudgetKey && k != SettingsKey ==>
      (k in e' <==> k in e) && (k in e' ==> e'[k] == e[k])
  }

  lemma SameOtherKeysUpdate(e: map<string, Value>, k: string, v: Value)
    requires k == TransactionsKey || k == BudgetKey || k == SettingsKey
    ensures SameOtherKeys(e, e[k := v])
  {
  }

  lemma SameOtherKeysTransitive(e: map<string, Value>, e': map<string, Value>, e'': map<string, Value>)
    requires SameOtherKeys(e, e') && SameOtherKeys(e', e'')
    ensures SameOtherKeys(e, e'')
  {
  }

  /** While synced, reading the store gives back the in-memory state. */
  lemma SyncedReadsBack(p: FinanceProvider)
    requires p.Synced()
    ensures ReadTransactions(p.store.entries) == p.transactions
    ensures ReadBudget(p.store.entries) == Finite(OrZero(p.budget))
    ensures ReadSettings(p.store.entries) == p.settings
  {
    TransactionsRoundTrip(p.store.entries, p.transactions);
    assert p.store.entries == p.store.entries[TransactionsKey := EncodeTransactions(p.transactions)];
  }
}
