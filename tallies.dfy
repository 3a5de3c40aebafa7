/** A JavaScript `Map<string, number>` filled by
    `forEach(x => m.set(key(x), (m.get(key(x)) || 0) + amount(x)))`, the
    group-by that every chart of the application is built from. `keys` is the
    Map's insertion order (what `Array.from(m.keys())` lists). */
module Tallies {
  import opened Sequences

  datatype Tally = Tally(keys: seq<string>, vals: map<string, real>)

  const Empty: Tally := Tally([], map[])

  ghost predicate WellFormed(m: Tally) {
    && NoDuplicates(m.keys)
    && (forall k :: k in m.vals <==> k in m.keys)
  }

  /** `m.get(k) || 0` */
  function Get(m: Tally, k: string): real {
    if k in m.vals then m.vals[k] else 0.0
  }

  /** `m.set(k, (m.get(k) || 0) + d)`: a new key goes last, an old one keeps
      its place. */
  function Add(m: Tally, k: string, d: real): (r: Tally)
    requires WellFormed(m)
    ensures WellFormed(r)
    ensures Get(r, k) == Get(m, k) + d
    ensures forall k' :: k' != k ==> Get(r, k') == Get(m, k')
    ensures r.keys == if k in m.keys then m.keys else m.keys + [k]
  {
    if k in m.vals then Tally(m.keys, m.vals[k := m.vals[k] + d])
    else Tally(m.keys + [k], m.vals[k := d])
  }

  /** The sum of the Map's values at `ks`. */
  function SumAt(m: Tally, ks: seq<string>): real {
    if |ks| == 0 then 0.0 else SumAt(m, ks[..|ks| - 1]) + Get(m, ks[|ks| - 1])
  }

  /** The sum of the Map's values (`Array.from(m.values())` added up). */
  function Total(m: Tally): real {
    SumAt(m, m.keys)
  }

  /** The Map after the `forEach` over `items`. */
  function GroupSum<T>(items: seq<T>, key: T -> string, amount: T -> real): (r: Tally)
    ensures WellFormed(r)
  {
    if |items| == 0 then Empty
    else Add(GroupSum(items[..|items| - 1], key, amount), key(items[|items| - 1]), amount(items[|items| - 1]))
  }

  /** Raising one value of a sum over distinct keys raises the sum by as much. */
  lemma {:induction false} SumAtBump(m: Tally, r: Tally, s: seq<string>, k: string, d: real)
    requires NoDuplicates(s)
    requires forall x :: x != k ==> Get(r, x) == Get(m, x)
    requires Get(r, k) == Get(m, k) + d
    ensures SumAt(r, s) == SumAt(m, s) + (if k in s then d else 0.0)
  {
    if |s| > 0 {
      var init := s[..|s| - 1];
      assert NoDuplicates(init);
      assert s[|s| - 1] == k ==> k !in init;
      assert s == init + [s[|s| - 1]];
      SumAtBump(m, r, init, k, d);
    }
  }

  lemma TotalAdd(m: Tally, k: string, d: real)
    requires WellFormed(m)
    ensures Total(Add(m, k, d)) == Total(m) + d
  {
    var r := Add(m, k, d);
    SumAtBump(m, r, m.keys, k, d);
    if k !in m.keys {
      var ks := m.keys + [k];
      assert r.keys == ks;
      assert ks[..|ks| - 1] == m.keys;
      assert SumAt(r, ks) == SumAt(r, m.keys) + Get(r, k);
    }
  }

  /** The values of the Map add up to the sum of all amounts. */
  lemma {:induction false} GroupSumTotal<T>(items: seq<T>, key: T -> string, amount: T -> real)
    ensures Total(GroupSum(items, key, amount)) == SumBy(items, amount)
  {
    if |items| > 0 {
      var init := items[..|items| - 1];
      GroupSumTotal(init, key, amount);
      TotalAdd(GroupSum(init, key, amount), key(items[|items| - 1]), amount(items[|items| - 1]));
    }
  }

  /** The Map's keys are exactly the keys of the items. */
  lemma {:induction false} GroupSumKeys<T>(items: seq<T>, key: T -> string, amount: T -> real, k: string)
    ensures k in GroupSum(items, key, amount).keys <==> exists i :: 0 <= i < |items| && key(items[i]) == k
  {
    if |items| > 0 {
      var init := items[..|items| - 1];
      GroupSumKeys(init, key, amount, k);
      if exists i :: 0 <= i < |items| && key(items[i]) == k {
        var i :| 0 <= i < |items| && key(items[i]) == k;
        if i < |init| { assert key(init[i]) == k; }
      }
      if exists i :: 0 <= i < |init| && key(init[i]) == k {
        var i :| 0 <= i < |init| && key(init[i]) == k;
        assert key(items[i]) == k;
      }
    }
  }

  /** `items.map(key)` */
  function KeysOf<T>(items: seq<T>, key: T -> string): (r: seq<string>)
    ensures |r| == |items| && forall i :: 0 <= i < |items| ==> r[i] == key(items[i])
  {
    seq(|items|, i requires 0 <= i < |items| => key(items[i]))
  }

  /** The Map lists its keys in the order they first occur among the items. */
  lemma {:induction false} GroupSumOrder<T>(items: seq<T>, key: T -> string, amount: T -> real)
    ensures GroupSum(items, key, amount).keys == Distinct(KeysOf(items, key))
  {
    if |items| > 0 {
      var init := items[..|items| - 1];
      GroupSumOrder(init, key, amount);
      assert KeysOf(items, key)[..|items| - 1] == KeysOf(init, key);
    }
  }

  /** The predicate `x => key(x) === k`. */
  function KeyIs<T>(key: T -> string, k: string): T -> bool {
    x => key(x) == k
  }

  /** The value at every key is the sum of the amounts of the items with
      that key. */
  lemma {:induction false} GroupSumGet<T>(items: seq<T>, key: T -> string, amount: T -> real, k: string)
    ensures Get(GroupSum(items, key, amount), k) == SumBy(Filter(items, KeyIs(key, k)), amount)
  {
    if |items| > 0 {
      var init, x := items[..|items| - 1], items[|items| - 1];
      GroupSumGet(init, key, amount, k);
      SumByAppend(Filter(init, KeyIs(key, k)), if key(x) == k then [x] else [], amount);
    }
  }

  /** The forEach loop itself. */
  method TallyBy<T>(items: seq<T>, key: T -> string, amount: T -> real) returns (m: Tally)
    ensures m == GroupSum(items, key, amount)
  {
    m := Empty;
    var i := 0;
    while i < |items|
      invariant 0 <= i <= |items|
      invariant m == GroupSum(items[..i], key, amount)
    {
      assert items[..i + 1][..i] == items[..i];
      m := Add(m, key(items[i]), amount(items[i]));
      i := i + 1;
    }
    assert items[..i] == items;
  }

  // ---------------------------------------------------------------------
  // Chart series: `labels = Array.from(m.keys()).sort()` and
  // `data = labels.map(k => m.get(k) || 0)`

  function SortedLabels(m: Tally): seq<string> {
    SortBy(m.keys, StrLe)
  }

  function SeriesData(m: Tally, labels: seq<string>): (data: seq<real>)
    ensures |data| == |labels|
    ensures forall i :: 0 <= i < |labels| ==> data[i] == Get(m, labels[i])
  {
    seq(|labels|, i requires 0 <= i < |labels| => Get(m, labels[i]))
  }

  /** Sorting a tally's keys keeps them distinct. */
  lemma DistinctKeysSorted(m: Tally)
    requires WellFormed(m)
    ensures NoDuplicates(SortedLabels(m))
  {
    var labels := SortedLabels(m);
    forall i, j | 0 <= i < j < |labels| ensures labels[i] != labels[j] {
      if labels[i] == labels[j] {
        var x := labels[i];
        assert multiset(labels)[x] >= 2 by {
          assert labels == labels[..i] + [x] + labels[i + 1..j] + [x] + labels[j + 1..];
        }
        NoDuplicatesCount(m.keys, x);
        assert false;
      }
    }
  }

  /** The labels are the Map's keys, each once, in ascending string order, and
      each data point is the Map's value at its label. */
  lemma ChartSeries(m: Tally)
    requires WellFormed(m)
    ensures SortedBy(SortedLabels(m), StrLe)
    ensures NoDuplicates(SortedLabels(m))
    ensures |SortedLabels(m)| == |m.keys|
    ensures multiset(SortedLabels(m)) == multiset(m.keys)
    ensures forall k :: k in SortedLabels(m) <==> k in m.vals
    ensures forall i :: 0 <= i < |SortedLabels(m)| ==> SeriesData(m, SortedLabels(m))[i] == m.vals[SortedLabels(m)[i]]
  {
    StrLeTotalPreorder();
    SortBySorted(m.keys, StrLe);
    DistinctKeysSorted(m);
    var labels := SortedLabels(m);
    forall k ensures k in labels <==> k in m.vals {
      assert k in labels <==> k in multiset(labels);
      assert k in m.keys <==> k in multiset(m.keys);
    }
    assert |labels| == |multiset(labels)| == |m.keys|;
  }
}
