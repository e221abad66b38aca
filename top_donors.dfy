/**
 * The top-donors panel (components/charts/TopDonors.tsx): income transactions with a
 * recipient are summed per recipient in a map, and the ten largest sums are listed,
 * largest first.
 */
module TopDonors {
  import opened Wrappers
  import opened Seqs
  import opened Sorting
  import opened Text
  import opened Ledger

  /**
   * The donor a transaction counts for: an income transaction with a non-empty recipient
   * counts for that recipient (`t.recipient || t.description` is then the recipient); any
   * other transaction counts for nobody.
   */
  function DonorKey(t: Transaction): Option<string>
  {
    if t.txType == Income && Filled(t.recipient) then Some(t.recipient.value) else None
  }

  datatype Donor = Donor(name: string, amount: real)

  function DonorName(d: Donor): string { d.name }

  function DonorAmount(d: Donor): real { d.amount }

  /** The comparator `(a, b) => b.amount - a.amount`. */
  function ByAmountDesc(a: Donor, b: Donor): real { b.amount - a.amount }

  /** How many donors the panel lists. */
  const TopCount: nat := 10

  /** One donor per name of ks, carrying the sum of that donor's transactions. */
  function DonorRows(ts: seq<Transaction>, ks: seq<string>): seq<Donor>
  {
    seq(|ks|, i requires 0 <= i < |ks| => Donor(ks[i], SumFor(ts, DonorKey, ks[i], AmountOf)))
  }

  /** What the panel lists: the donors in map order, stably sorted by amount, largest first, cut to ten. */
  function TopDonors(ts: seq<Transaction>): seq<Donor>
  {
    Take(SortBy(DonorRows(ts, GroupKeys(ts, DonorKey)), ByAmountDesc), TopCount)
  }

  /** Some transaction counts for the donor `name`. */
  predicate Donates(ts: seq<Transaction>, name: string)
  {
    exists j :: 0 <= j < |ts| && DonorKey(ts[j]) == Some(name)
  }

  /** The `forEach` over the qualifying transactions: a running sum per donor, keys in insertion order. */
  method AggregateDonors(ts: seq<Transaction>) returns (keys: seq<string>, sums: map<string, real>)
    ensures SummedBy(ts, DonorKey, AmountOf, keys, sums)
  {
    keys := [];
    sums := map[];
    var i := 0;
    while i < |ts|
      invariant i <= |ts|
      invariant SummedBy(ts[..i], DonorKey, AmountOf, keys, sums)
    {
      var t := ts[i];
      ghost var keys0, sums0 := keys, sums;
      if t.txType == Income && Filled(t.recipient) {
        var donor := t.recipient.value;
        var current := if donor in sums then sums[donor] else 0.0;
        sums := sums[donor := current + t.amount];
        keys := if donor in keys then keys else keys + [donor];
      }
      SummedStep(ts[..i], t, DonorKey, AmountOf, keys0, sums0, keys, sums);
      assert ts[..i + 1] == ts[..i] + [t];
      i := i + 1;
    }
    assert ts[..i] == ts;
  }

  /** The panel's list: the map's entries as donors, sorted by amount and cut to ten. */
  method RankDonors(ts: seq<Transaction>) returns (top: seq<Donor>)
    ensures top == TopDonors(ts)
  {
    var keys, sums := AggregateDonors(ts);
    var entries := seq(|keys|, i requires 0 <= i < |keys| => Donor(keys[i], sums[keys[i]]));
    assert entries == DonorRows(ts, GroupKeys(ts, DonorKey));
    top := Take(SortBy(entries, ByAmountDesc), TopCount);
  }

  lemma ByAmountDescTotal()
    ensures Total(ByAmountDesc)
  {
    forall a: Donor, b: Donor
      ensures ByAmountDesc(a, b) <= 0.0 || ByAmountDesc(b, a) <= 0.0
    {
    }
  }

  /** At most ten donors are listed, by non-increasing amount. */
  lemma TopDonorsSorted(ts: seq<Transaction>)
    ensures |TopDonors(ts)| <= TopCount
    ensures forall i, j :: 0 <= i <= j < |TopDonors(ts)| ==> TopDonors(ts)[i].amount >= TopDonors(ts)[j].amount
  {
    var rows := DonorRows(ts, GroupKeys(ts, DonorKey));
    var sorted := SortBy(rows, ByAmountDesc);
    ByAmountDescTotal();
    SortBySorted(rows, ByAmountDesc);
    forall i, j | 0 <= i <= j < |TopDonors(ts)|
      ensures TopDonors(ts)[i].amount >= TopDonors(ts)[j].amount
    {
      SortedDescending(sorted, ByAmountDesc, DonorAmount, i, j);
    }
  }

  /** No donor is listed twice. */
  lemma TopDonorsDistinct(ts: seq<Transaction>)
    ensures DistinctBy(TopDonors(ts), DonorName)
  {
    var ks := GroupKeys(ts, DonorKey);
    var rows := DonorRows(ts, ks);
    GroupKeysSpec(ts, DonorKey);
    assert DistinctBy(rows, DonorName);
    SortByDistinctBy(rows, ByAmountDesc, DonorName);
  }

  /** Every listed donor is the recipient of some qualifying transaction, listed with the sum of their amounts. */
  lemma TopDonorsAmounts(ts: seq<Transaction>)
    ensures forall i :: 0 <= i < |TopDonors(ts)| ==>
              && Donates(ts, TopDonors(ts)[i].name)
              && TopDonors(ts)[i].amount == SumFor(ts, DonorKey, TopDonors(ts)[i].name, AmountOf)
  {
    var ks := GroupKeys(ts, DonorKey);
    var rows := DonorRows(ts, ks);
    var top := TopDonors(ts);
    GroupKeysSpec(ts, DonorKey);
    SortByMembers(rows, ByAmountDesc);
    forall i | 0 <= i < |top|
      ensures Donates(ts, top[i].name) && top[i].amount == SumFor(ts, DonorKey, top[i].name, AmountOf)
    {
      var j :| 0 <= j < |rows| && rows[j] == top[i];
      assert rows[j].name == ks[j];
    }
  }

  /** The panel is empty, and renders nothing, exactly when no transaction qualifies. */
  lemma TopDonorsEmpty(ts: seq<Transaction>)
    ensures TopDonors(ts) == [] <==> forall j :: 0 <= j < |ts| ==> DonorKey(ts[j]).None?
  {
    var ks := GroupKeys(ts, DonorKey);
    GroupKeysSpec(ts, DonorKey);
    if ks != [] {
      var j :| 0 <= j < |ts| && DonorKey(ts[j]) == Some(ks[0]);
    }
  }

  /** A donor who is not listed gave no more than any listed donor. */
  lemma TopDonorsAreTop(ts: seq<Transaction>, name: string)
    requires Donates(ts, name)
    requires forall i :: 0 <= i < |TopDonors(ts)| ==> TopDonors(ts)[i].name != name
    ensures forall i :: 0 <= i < |TopDonors(ts)| ==> TopDonors(ts)[i].amount >= SumFor(ts, DonorKey, name, AmountOf)
  {
    var ks := GroupKeys(ts, DonorKey);
    var rows := DonorRows(ts, ks);
    var sorted := SortBy(rows, ByAmountDesc);
    GroupKeysSpec(ts, DonorKey);
    var k :| 0 <= k < |ks| && ks[k] == name;
    var d := rows[k];
    assert d == Donor(name, SumFor(ts, DonorKey, name, AmountOf));
    assert d in multiset(sorted);
    var top := Take(sorted, TopCount);
    assert TopDonors(ts) == top;
    assert forall i :: 0 <= i < |top| ==> top[i] != d by {
      forall i | 0 <= i < |top|
        ensures top[i] != d
      {
        assert top[i].name != name;
      }
    }
    ByAmountDescTotal();
    SortBySorted(rows, ByAmountDesc);
    TakeSortedAbove(sorted, ByAmountDesc, DonorAmount, d, TopCount);
    assert forall i :: 0 <= i < |top| ==> DonorAmount(top[i]) >= DonorAmount(d);
  }
}
