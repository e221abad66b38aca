/**
 * The restaurant panel (components/charts/TopRestaurants.tsx): expenses in the
 * 高級レストラン category are aggregated per restaurant (the trimmed description) in a map
 * whose records are updated in place, the ten restaurants with the largest totals are
 * listed, and the header counts and sums every such expense.
 */
module TopRestaurants {
  import opened Wrappers
  import opened Seqs
  import opened Sorting
  import opened Text
  import opened Ledger

  const RestaurantCategory: string := "高級レストラン"

  /** The address a restaurant starts with when its first transaction has no location. */
  const UnknownAddress: string := "住所不明"

  /** How many restaurants the panel lists. */
  const TopCount: nat := 10

  /** `t.type === 'expense' && t.category === '高級レストラン'`. */
  predicate IsRestaurantSpend(t: Transaction)
  {
    t.txType == Expense && t.category == RestaurantCategory
  }

  /** A restaurant expense whose trimmed description is blank: skipped by the map, counted by the header. */
  predicate IsBlankNamed(t: Transaction)
  {
    IsRestaurantSpend(t) && Trim(t.description) == ""
  }

  /** The restaurant a transaction is aggregated under: the trimmed description of a restaurant expense, unless blank. */
  function RestaurantKey(t: Transaction): Option<string>
  {
    if IsRestaurantSpend(t) && Trim(t.description) != "" then Some(Trim(t.description)) else None
  }

  datatype Restaurant = Restaurant(name: string, address: string, genre: string, url: string, totalAmount: real, count: nat)

  function RestaurantName(r: Restaurant): string { r.name }

  function TotalOf(r: Restaurant): real { r.totalAmount }

  function CountOf(r: Restaurant): real { r.count as real }

  /** The record a restaurant's first transaction opens. */
  function Opened(name: string, t: Transaction): Restaurant
  {
    Restaurant(name, OrElse(t.location, UnknownAddress), OrElse(t.subcategory, ""), OrElse(t.url, ""), t.amount, 1)
  }

  /**
   * The record after a further transaction: amount and count added, the address and the
   * genre replaced by a strictly longer location or subcategory, the URL filled in once.
   */
  function Updated(r: Restaurant, t: Transaction): Restaurant
  {
    r.(totalAmount := r.totalAmount + t.amount,
       count := r.count + 1,
       address := if Filled(t.location) && |t.location.value| > |r.address| then t.location.value else r.address,
       genre := if Filled(t.subcategory) && |t.subcategory.value| > |r.genre| then t.subcategory.value else r.genre,
       url := if Filled(t.url) && r.url == "" then t.url.value else r.url)
  }

  /** The map's record for restaurant k after the transactions ts; none if no transaction names it. */
  function Entry(ts: seq<Transaction>, k: string): Option<Restaurant>
  {
    if ts == [] then None
    else
      var e := Entry(ts[..|ts| - 1], k);
      var t := ts[|ts| - 1];
      if RestaurantKey(t) != Some(k) then e
      else if e.Some? then Some(Updated(e.value, t))
      else Some(Opened(k, t))
  }

  /** The record of k, or an empty record for a name no transaction has (where the map has no entry). */
  function EntryOf(ts: seq<Transaction>, k: string): Restaurant
  {
    Entry(ts, k).GetOr(Restaurant(k, UnknownAddress, "", "", 0.0, 0))
  }

  /** Some transaction is aggregated under k. */
  predicate Serves(ts: seq<Transaction>, k: string)
  {
    exists j :: 0 <= j < |ts| && RestaurantKey(ts[j]) == Some(k)
  }

  /** Some transaction of restaurant k has location a. */
  predicate LocatedAt(ts: seq<Transaction>, k: string, a: string)
  {
    exists j :: 0 <= j < |ts| && RestaurantKey(ts[j]) == Some(k) && ts[j].location == Some(a)
  }

  /** Some transaction of restaurant k has subcategory g. */
  predicate GenreAt(ts: seq<Transaction>, k: string, g: string)
  {
    exists j :: 0 <= j < |ts| && RestaurantKey(ts[j]) == Some(k) && ts[j].subcategory == Some(g)
  }

  /** The restaurant of a transaction that carries a URL. */
  function UrlKey(t: Transaction): Option<string>
  {
    if Filled(t.url) then RestaurantKey(t) else None
  }

  /** The first URL among restaurant k's transactions, or '' when none has one. */
  function FirstUrl(ts: seq<Transaction>, k: string): string
  {
    match FirstOf(ts, UrlKey, k)
    case Some(t) => t.url.value
    case None => ""
  }

  // ---------------------------------------------------------------- the map loop

  /** keys and m are the map the `forEach` builds over s: keys in insertion order, each record that of `Entry`. */
  ghost predicate RestaurantsBy(s: seq<Transaction>, keys: seq<string>, m: map<string, Restaurant>)
  {
    && keys == GroupKeys(s, RestaurantKey)
    && (forall k :: k in m <==> k in keys)
    && (forall k :: k in m ==> Entry(s, k) == Some(m[k]))
  }

  lemma EntrySnoc(s: seq<Transaction>, t: Transaction, k: string)
    ensures Entry(s + [t], k)
         == if RestaurantKey(t) != Some(k) then Entry(s, k)
            else if Entry(s, k).Some? then Some(Updated(Entry(s, k).value, t))
            else Some(Opened(k, t))
  {
    assert (s + [t])[..|s|] == s;
  }

  /** A restaurant has a record exactly when some transaction is aggregated under it. */
  lemma {:induction false} EntryPresent(ts: seq<Transaction>, k: string)
    ensures Entry(ts, k).Some? <==> Serves(ts, k)
  {
    if ts != [] {
      var s := ts[..|ts| - 1];
      EntryPresent(s, k);
      assert forall j :: 0 <= j < |s| ==> s[j] == ts[j];
      if Serves(ts, k) && !Serves(s, k) {
        var j :| 0 <= j < |ts| && RestaurantKey(ts[j]) == Some(k);
        assert j == |ts| - 1;
      }
    }
  }

  lemma RestaurantStep(s: seq<Transaction>, t: Transaction, keys: seq<string>, m: map<string, Restaurant>,
                       keys': seq<string>, m': map<string, Restaurant>)
    requires RestaurantsBy(s, keys, m)
    requires keys' == match RestaurantKey(t) case None => keys case Some(k) => if k in keys then keys else keys + [k]
    requires m' == match RestaurantKey(t)
                   case None => m
                   case Some(k) => if k in m then m[k := Updated(m[k], t)] else m[k := Opened(k, t)]
    ensures RestaurantsBy(s + [t], keys', m')
  {
    GroupKeysSnoc(s, t, RestaurantKey);
    forall c | c in m'
      ensures Entry(s + [t], c) == Some(m'[c])
    {
      EntrySnoc(s, t, c);
      if c !in m {
        GroupKeysSpec(s, RestaurantKey);
        EntryPresent(s, c);
      }
    }
  }

  /** The `forEach` of the panel: restaurant records opened and updated in a map, keys in insertion order. */
  method AggregateRestaurants(ts: seq<Transaction>) returns (keys: seq<string>, m: map<string, Restaurant>)
    ensures RestaurantsBy(ts, keys, m)
  {
    keys := [];
    m := map[];
    var i := 0;
    while i < |ts|
      invariant i <= |ts|
      invariant RestaurantsBy(ts[..i], keys, m)
    {
      var t := ts[i];
      ghost var keys0, m0 := keys, m;
      if t.txType == Expense && t.category == RestaurantCategory {
        var name := Trim(t.description);
        if name != "" {
          if name in m {
            var existing := m[name];
            existing := existing.(totalAmount := existing.totalAmount + t.amount, count := existing.count + 1);
            if Filled(t.location) && |t.location.value| > |existing.address| {
              existing := existing.(address := t.location.value);
            }
            if Filled(t.subcategory) && |t.subcategory.value| > |existing.genre| {
              existing := existing.(genre := t.subcategory.value);
            }
            if Filled(t.url) && existing.url == "" {
              existing := existing.(url := t.url.value);
            }
            m := m[name := existing];
          } else {
            m := m[name := Restaurant(name, OrElse(t.location, UnknownAddress), OrElse(t.subcategory, ""), OrElse(t.url, ""), t.amount, 1)];
          }
          keys := if name in keys then keys else keys + [name];
        }
      }
      RestaurantStep(ts[..i], t, keys0, m0, keys, m);
      assert ts[..i + 1] == ts[..i] + [t];
      i := i + 1;
    }
    assert ts[..i] == ts;
  }

  // ---------------------------------------------------------------- what a record holds

  /** A record is named by its key and holds the sum and the number of the restaurant's transactions. */
  lemma {:induction false} EntryTotals(ts: seq<Transaction>, k: string)
    ensures EntryOf(ts, k).name == k
    ensures EntryOf(ts, k).totalAmount == SumFor(ts, RestaurantKey, k, AmountOf)
    ensures EntryOf(ts, k).count == CountFor(ts, RestaurantKey, k)
  {
    if ts != [] {
      EntryTotals(ts[..|ts| - 1], k);
    }
  }

  /** The address is at least as long as every location the restaurant's transactions carry. */
  lemma {:induction false} EntryAddressLongest(ts: seq<Transaction>, k: string)
    ensures forall j :: 0 <= j < |ts| && RestaurantKey(ts[j]) == Some(k) && Filled(ts[j].location) ==>
              |ts[j].location.value| <= |EntryOf(ts, k).address|
  {
    if ts != [] {
      var s := ts[..|ts| - 1];
      EntryAddressLongest(s, k);
      EntryPresent(s, k);
      assert forall j :: 0 <= j < |s| ==> s[j] == ts[j];
    }
  }

  /** The address is the unknown-address text or one of the restaurant's locations. */
  lemma {:induction false} EntryAddressFrom(ts: seq<Transaction>, k: string)
    requires Serves(ts, k)
    ensures EntryOf(ts, k).address == UnknownAddress || LocatedAt(ts, k, EntryOf(ts, k).address)
  {
    var s := ts[..|ts| - 1];
    var t := ts[|ts| - 1];
    assert forall j :: 0 <= j < |s| ==> s[j] == ts[j];
    EntryPresent(s, k);
    if RestaurantKey(t) != Some(k) {
      assert Serves(s, k) by {
        var j :| 0 <= j < |ts| && RestaurantKey(ts[j]) == Some(k);
        assert j < |s|;
      }
      EntryAddressFrom(s, k);
      if LocatedAt(s, k, EntryOf(s, k).address) {
        var j :| 0 <= j < |s| && RestaurantKey(s[j]) == Some(k) && s[j].location == Some(EntryOf(s, k).address);
        assert ts[j] == s[j];
      }
    } else if Entry(s, k).Some? {
      var a := EntryOf(s, k).address;
      if !(Filled(t.location) && |t.location.value| > |a|) {
        EntryAddressFrom(s, k);
        if LocatedAt(s, k, a) {
          var j :| 0 <= j < |s| && RestaurantKey(s[j]) == Some(k) && s[j].location == Some(a);
          assert ts[j] == s[j];
        }
      } else {
        assert ts[|ts| - 1].location == Some(EntryOf(ts, k).address);
      }
    } else if Filled(t.location) {
      assert ts[|ts| - 1].location == Some(EntryOf(ts, k).address);
    }
  }

  /** The genre is at least as long as every subcategory the restaurant's transactions carry. */
  lemma {:induction false} EntryGenreLongest(ts: seq<Transaction>, k: string)
    ensures forall j :: 0 <= j < |ts| && RestaurantKey(ts[j]) == Some(k) && Filled(ts[j].subcategory) ==>
              |ts[j].subcategory.value| <= |EntryOf(ts, k).genre|
  {
    if ts != [] {
      var s := ts[..|ts| - 1];
      EntryGenreLongest(s, k);
      assert forall j :: 0 <= j < |s| ==> s[j] == ts[j];
    }
  }

  /** The genre is empty or one of the restaurant's subcategories. */
  lemma {:induction false} EntryGenreFrom(ts: seq<Transaction>, k: string)
    ensures EntryOf(ts, k).genre == "" || GenreAt(ts, k, EntryOf(ts, k).genre)
  {
    if ts != [] {
      var s := ts[..|ts| - 1];
      var t := ts[|ts| - 1];
      var g := EntryOf(s, k).genre;
      assert forall j :: 0 <= j < |s| ==> s[j] == ts[j];
      if EntryOf(ts, k).genre == g {
        EntryGenreFrom(s, k);
        if GenreAt(s, k, g) {
          var j :| 0 <= j < |s| && RestaurantKey(s[j]) == Some(k) && s[j].subcategory == Some(g);
          assert ts[j] == s[j];
        }
      } else if EntryOf(ts, k).genre != "" {
        assert ts[|ts| - 1].subcategory == Some(EntryOf(ts, k).genre);
      }
    }
  }

  /** The URL is the first one among the restaurant's transactions, or '' when none has one. */
  lemma {:induction false} EntryUrl(ts: seq<Transaction>, k: string)
    ensures EntryOf(ts, k).url == FirstUrl(ts, k)
    ensures Entry(ts, k).None? ==> FirstOf(ts, UrlKey, k).None?
  {
    if ts != [] {
      var s := ts[..|ts| - 1];
      var t := ts[|ts| - 1];
      EntryUrl(s, k);
      assert s + [t] == ts;
      FirstOfSnoc(s, t, UrlKey, k);
    }
  }

  // ---------------------------------------------------------------- the ranking

  /** The records of the names ks, in the order of ks. */
  function EntriesFor(ts: seq<Transaction>, ks: seq<string>): (r: seq<Restaurant>)
    ensures |r| == |ks|
    ensures forall i :: 0 <= i < |ks| ==> r[i] == EntryOf(ts, ks[i])
  {
    if ks == [] then [] else EntriesFor(ts, ks[..|ks| - 1]) + [EntryOf(ts, ks[|ks| - 1])]
  }

  /** `Array.from(restaurantMap.values())`: every record, in insertion order. */
  function AllRestaurants(ts: seq<Transaction>): seq<Restaurant>
  {
    EntriesFor(ts, GroupKeys(ts, RestaurantKey))
  }

  /** The comparator `(a, b) => b.totalAmount - a.totalAmount`. */
  function ByTotalDesc(a: Restaurant, b: Restaurant): real { b.totalAmount - a.totalAmount }

  /** `topBySpending`: the records stably sorted by total, largest first, cut to ten. */
  function TopBySpending(ts: seq<Transaction>): seq<Restaurant>
  {
    Take(SortBy(AllRestaurants(ts), ByTotalDesc), TopCount)
  }

  /** The ranking the panel renders, from the map the loop builds. */
  method RankRestaurants(ts: seq<Transaction>) returns (top: seq<Restaurant>)
    ensures top == TopBySpending(ts)
  {
    var keys, m := AggregateRestaurants(ts);
    var all := seq(|keys|, i requires 0 <= i < |keys| => m[keys[i]]);
    assert all == AllRestaurants(ts) by {
      forall i | 0 <= i < |keys|
        ensures all[i] == EntryOf(ts, keys[i])
      {
        assert keys[i] in m;
      }
    }
    top := Take(SortBy(all, ByTotalDesc), TopCount);
  }

  lemma ByTotalDescTotal()
    ensures Total(ByTotalDesc)
  {
    forall a: Restaurant, b: Restaurant
      ensures ByTotalDesc(a, b) <= 0.0 || ByTotalDesc(b, a) <= 0.0
    {
    }
  }

  /** At most ten restaurants are listed, by non-increasing total. */
  lemma TopSorted(ts: seq<Transaction>)
    ensures |TopBySpending(ts)| <= TopCount
    ensures forall i, j :: 0 <= i <= j < |TopBySpending(ts)| ==>
              TopBySpending(ts)[i].totalAmount >= TopBySpending(ts)[j].totalAmount
  {
    var sorted := SortBy(AllRestaurants(ts), ByTotalDesc);
    ByTotalDescTotal();
    SortBySorted(AllRestaurants(ts), ByTotalDesc);
    forall i, j | 0 <= i <= j < |TopBySpending(ts)|
      ensures TopBySpending(ts)[i].totalAmount >= TopBySpending(ts)[j].totalAmount
    {
      SortedDescending(sorted, ByTotalDesc, TotalOf, i, j);
    }
  }

  /** The names of all records are distinct, so no restaurant is listed twice. */
  lemma TopDistinct(ts: seq<Transaction>)
    ensures DistinctBy(TopBySpending(ts), RestaurantName)
  {
    var ks := GroupKeys(ts, RestaurantKey);
    var all := AllRestaurants(ts);
    GroupKeysSpec(ts, RestaurantKey);
    forall i | 0 <= i < |ks|
      ensures all[i].name == ks[i]
    {
      EntryTotals(ts, ks[i]);
    }
    assert DistinctBy(all, RestaurantName);
    SortByDistinctBy(all, ByTotalDesc, RestaurantName);
  }

  /** Every listed restaurant has transactions aggregated under its name and is that name's record. */
  lemma TopEntries(ts: seq<Transaction>)
    ensures forall i :: 0 <= i < |TopBySpending(ts)| ==>
              && Serves(ts, TopBySpending(ts)[i].name)
              && TopBySpending(ts)[i] == EntryOf(ts, TopBySpending(ts)[i].name)
  {
    var ks := GroupKeys(ts, RestaurantKey);
    var all := AllRestaurants(ts);
    var top := TopBySpending(ts);
    GroupKeysSpec(ts, RestaurantKey);
    SortByMembers(all, ByTotalDesc);
    forall i | 0 <= i < |top|
      ensures Serves(ts, top[i].name) && top[i] == EntryOf(ts, top[i].name)
    {
      var j :| 0 <= j < |all| && all[j] == top[i];
      EntryTotals(ts, ks[j]);
      assert top[i].name == ks[j];
    }
  }

  /** A restaurant that is not listed has a total no larger than any listed one. */
  lemma TopAreTop(ts: seq<Transaction>, name: string)
    requires Serves(ts, name)
    requires forall i :: 0 <= i < |TopBySpending(ts)| ==> TopBySpending(ts)[i].name != name
    ensures forall i :: 0 <= i < |TopBySpending(ts)| ==>
              TopBySpending(ts)[i].totalAmount >= SumFor(ts, RestaurantKey, name, AmountOf)
  {
    var all := AllRestaurants(ts);
    var sorted := SortBy(all, ByTotalDesc);
    var d := RecordListed(ts, name);
    assert d in multiset(sorted);
    var top := Take(sorted, TopCount);
    assert TopBySpending(ts) == top;
    assert forall i :: 0 <= i < |top| ==> top[i] != d by {
      forall i | 0 <= i < |top|
        ensures top[i] != d
      {
        assert top[i].name != name;
      }
    }
    ByTotalDescTotal();
    SortBySorted(all, ByTotalDesc);
    TakeSortedAbove(sorted, ByTotalDesc, TotalOf, d, TopCount);
    assert forall i :: 0 <= i < |top| ==> TotalOf(top[i]) >= TotalOf(d);
  }

  /** The record of a restaurant with transactions is among all records. */
  lemma RecordListed(ts: seq<Transaction>, name: string) returns (d: Restaurant)
    requires Serves(ts, name)
    ensures d in AllRestaurants(ts) && d.name == name
    ensures d.totalAmount == SumFor(ts, RestaurantKey, name, AmountOf)
  {
    var ks := GroupKeys(ts, RestaurantKey);
    GroupKeysSpec(ts, RestaurantKey);
    var j0 :| 0 <= j0 < |ts| && RestaurantKey(ts[j0]) == Some(name);
    var k :| 0 <= k < |ks| && ks[k] == name;
    d := AllRestaurants(ts)[k];
    EntryTotals(ts, name);
  }

  // ---------------------------------------------------------------- the header

  /** `totalTransactions`: every restaurant expense, blank-named ones included. */
  function HeaderCount(ts: seq<Transaction>): nat
  {
    |Filter(ts, IsRestaurantSpend)|
  }

  /** `totalAmount`: the sum of every restaurant expense, blank-named ones included. */
  function HeaderAmount(ts: seq<Transaction>): real
  {
    Sum(Filter(ts, IsRestaurantSpend), AmountOf)
  }

  /** Restaurant expenses split into the aggregated ones and the blank-named ones. */
  lemma {:induction false} SpendSplit(ts: seq<Transaction>, f: Transaction -> real)
    ensures Sum(Filter(ts, IsRestaurantSpend), f) == SumKeyed(ts, RestaurantKey, f) + Sum(Filter(ts, IsBlankNamed), f)
  {
    if ts != [] {
      var s := ts[..|ts| - 1];
      var t := ts[|ts| - 1];
      SpendSplit(s, f);
      SumAppend(Filter(s, IsRestaurantSpend), if IsRestaurantSpend(t) then [t] else [], f);
      SumAppend(Filter(s, IsBlankNamed), if IsBlankNamed(t) then [t] else [], f);
      assert Sum([t], f) == f(t) by {
        assert [t][..0] == [];
      }
    }
  }

  /** Summing a field over the records of distinct names is summing the per-name sums. */
  lemma {:induction false} EntriesTotals(ts: seq<Transaction>, ks: seq<string>)
    ensures Sum(EntriesFor(ts, ks), TotalOf) == GroupTotal(ts, RestaurantKey, AmountOf, ks)
    ensures Sum(EntriesFor(ts, ks), CountOf) == GroupTotal(ts, RestaurantKey, One, ks)
  {
    if ks != [] {
      var k := ks[|ks| - 1];
      EntriesTotals(ts, ks[..|ks| - 1]);
      EntryTotals(ts, k);
      CountForIsSumOfOnes(ts, RestaurantKey, k);
      assert EntriesFor(ts, ks)[..|ks| - 1] == EntriesFor(ts, ks[..|ks| - 1]);
    }
  }

  /**
   * The header's count and sum are those of the listed records' map plus the blank-named
   * expenses the map skips: so they are at least the aggregated count, and at least the
   * aggregated sum when no amount is negative.
   */
  lemma HeaderCovers(ts: seq<Transaction>)
    ensures HeaderAmount(ts) == Sum(AllRestaurants(ts), TotalOf) + Sum(Filter(ts, IsBlankNamed), AmountOf)
    ensures HeaderCount(ts) as real == Sum(AllRestaurants(ts), CountOf) + |Filter(ts, IsBlankNamed)| as real
  {
    var ks := GroupKeys(ts, RestaurantKey);
    GroupKeysSpec(ts, RestaurantKey);
    EntriesTotals(ts, ks);
    GroupTotalPartition(ts, RestaurantKey, AmountOf, ks);
    GroupTotalPartition(ts, RestaurantKey, One, ks);
    SpendSplit(ts, AmountOf);
    SpendSplit(ts, One);
    SumOne(Filter(ts, IsRestaurantSpend));
    SumOne(Filter(ts, IsBlankNamed));
  }

  lemma HeaderAtLeast(ts: seq<Transaction>)
    ensures Sum(AllRestaurants(ts), CountOf) <= HeaderCount(ts) as real
    ensures (forall j :: 0 <= j < |ts| ==> ts[j].amount >= 0.0) ==> Sum(AllRestaurants(ts), TotalOf) <= HeaderAmount(ts)
  {
    HeaderCovers(ts);
    var b := Filter(ts, IsBlankNamed);
    if forall j :: 0 <= j < |ts| ==> ts[j].amount >= 0.0 {
      SumNonNegative(b, AmountOf);
    }
  }
}
