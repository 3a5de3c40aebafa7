/** The transaction list: the search box and the type filter over the list
    it is given, and the icon shown for each category. */
module TransactionList {
  import opened Sequences
  import opened Expense

  // ---------------------------------------------------------------------
  // Text helpers: `toLowerCase` (on ASCII letters) and `includes`

  function LowerChar(c: char): char {
    if 'A' <= c <= 'Z' then (c as int - 'A' as int + 'a' as int) as char else c
  }

  /** `s.toLowerCase()` */
  function Lower(s: string): (r: string)
    ensures |r| == |s| && forall i :: 0 <= i < |s| ==> r[i] == LowerChar(s[i])
  {
    seq(|s|, i requires 0 <= i < |s| => LowerChar(s[i]))
  }

  lemma LowerIdempotent(s: string)
    ensures Lower(Lower(s)) == Lower(s)
  {
  }

  /** `s.includes(sub)`, scanning from the front. */
  predicate Includes(s: string, sub: string)
    decreases |s|
  {
    (|sub| <= |s| && s[..|sub|] == sub) || (|s| > 0 && Includes(s[1..], sub))
  }

  /** `sub` occurs in `s` at position `i`. */
  predicate OccursAt(s: string, sub: string, i: int) {
    0 <= i && i + |sub| <= |s| && s[i..i + |sub|] == sub
  }

  /** `includes` holds exactly when `sub` occurs at some position. */
  lemma {:induction false} IncludesSpec(s: string, sub: string)
    ensures Includes(s, sub) <==> exists i :: OccursAt(s, sub, i)
  {
    if |sub| <= |s| && s[..|sub|] == sub {
      assert OccursAt(s, sub, 0);
    } else if |s| > 0 {
      IncludesSpec(s[1..], sub);
      if Includes(s[1..], sub) {
        var i :| OccursAt(s[1..], sub, i);
        assert s[1..][i..i + |sub|] == s[i + 1..i + 1 + |sub|];
        assert OccursAt(s, sub, i + 1);
      }
      if exists i :: OccursAt(s, sub, i) {
        var i :| OccursAt(s, sub, i);
        assert i != 0;
        assert s[1..][i - 1..i - 1 + |sub|] == s[i..i + |sub|];
        assert OccursAt(s[1..], sub, i - 1);
      }
    }
  }

  /** Every text includes the empty one. */
  lemma IncludesEmpty(s: string)
    ensures Includes(s, "")
  {
  }

  // ---------------------------------------------------------------------
  // filteredTransactions

  /** The type selector: "all", "income" or "expense". */
  datatype TypeFilter = All | Only(kind: TxType)

  /** `matchesSearch` */
  predicate MatchesSearch(t: Transaction, term: string) {
    Includes(Lower(t.description), Lower(term)) || Includes(Lower(t.category), Lower(term))
  }

  /** `matchesFilter` */
  predicate MatchesFilter(t: Transaction, filter: TypeFilter) {
    filter.All? || t.kind == filter.kind
  }

  function Shown(term: string, filter: TypeFilter): Transaction -> bool {
    (t: Transaction) => MatchesSearch(t, term) && MatchesFilter(t, filter)
  }

  /** `filteredTransactions` */
  function FilterTransactions(txs: seq<Transaction>, term: string, filter: TypeFilter): seq<Transaction> {
    Filter(txs, Shown(term, filter))
  }

  /** The list shown keeps the order of the list given. */
  lemma FilterKeepsOrder(txs: seq<Transaction>, term: string, filter: TypeFilter)
    ensures IsSubsequence(FilterTransactions(txs, term, filter), txs)
  {
    FilterIsSubsequence(txs, Shown(term, filter));
  }

  /** An empty search under "all" shows everything. */
  lemma EmptySearchShowsAll(txs: seq<Transaction>)
    ensures FilterTransactions(txs, "", All) == txs
  {
    forall i | 0 <= i < |txs| ensures Shown("", All)(txs[i]) {
      IncludesEmpty(Lower(txs[i].description));
    }
    FilterKeepsAll(txs, Shown("", All));
  }

  /** Under "income" or "expense" only transactions of that type are shown. */
  lemma TypeFilterSound(txs: seq<Transaction>, term: string, kind: TxType)
    ensures forall t :: t in FilterTransactions(txs, term, Only(kind)) ==> t.kind == kind
  {
    forall t | t in FilterTransactions(txs, term, Only(kind)) ensures t.kind == kind {
      FilterMembers(txs, Shown(term, Only(kind)), t);
    }
  }

  /** A transaction is shown exactly when the lower-cased term occurs in its
      lower-cased description or category and its type passes the filter. */
  lemma SearchSpec(txs: seq<Transaction>, term: string, filter: TypeFilter, t: Transaction)
    ensures t in FilterTransactions(txs, term, filter) <==>
      && t in txs
      && ((exists i :: OccursAt(Lower(t.description), Lower(term), i))
          || (exists i :: OccursAt(Lower(t.category), Lower(term), i)))
      && (filter.All? || t.kind == filter.kind)
  {
    FilterMembers(txs, Shown(term, filter), t);
    IncludesSpec(Lower(t.description), Lower(term));
    IncludesSpec(Lower(t.category), Lower(term));
  }

  /** The search ignores the case of the term. */
  lemma SearchIgnoresTermCase(txs: seq<Transaction>, term: string, filter: TypeFilter)
    ensures FilterTransactions(txs, term, filter) == FilterTransactions(txs, Lower(term), filter)
  {
    LowerIdempotent(term);
    FilterCongruent(txs, Shown(term, filter), Shown(Lower(term), filter));
  }

  // ---------------------------------------------------------------------
  // getCategoryIcon

  const FallbackIcon: string := "\U{1F4B0}"

  const Icons: map<string, string> := map[
    "Food & Dining" := "\U{1F37D}\U{FE0F}",
    "Transportation" := "\U{1F697}",
    "Shopping" := "\U{1F6CD}\U{FE0F}",
    "Entertainment" := "\U{1F3AC}",
    "Salary" := "\U{1F4BC}",
    "Freelance" := "\U{1F4BB}",
    "Bills" := "\U{1F4CB}",
    "Health" := "\U{1F3E5}",
    "Education" := "\U{1F4DA}",
    "Travel" := "\U{2708}\U{FE0F}"
  ]

  /** `icons[category] || '💰'`: the listed icon for the ten listed
      categories, the money bag for any other. */
  function CategoryIcon(category: string): (icon: string)
    ensures category in Icons ==> icon == Icons[category]
    ensures icon == FallbackIcon <==> category !in Icons
  {
    if category in Icons then Icons[category] else FallbackIcon
  }
}
