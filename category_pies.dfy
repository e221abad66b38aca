/**
 * The category pie charts (components/charts/CategoryPies.tsx): categories whose share of
 * the total is below five per cent are merged into one grey その他 slice appended after
 * the others, and a slice below five per cent of the pie gets no label.
 */
module CategoryPies {
  import opened Seqs
  import opened JsMath
  import opened Ledger

  const Threshold: real := 0.05

  const OtherCategory: string := "その他"

  const OtherColor: string := "#9CA3AF"

  /**
   * `cat.amount / total >= threshold` on JavaScript numbers. With a zero total the quotient
   * is +Infinity for a positive amount, which passes, and NaN or -Infinity otherwise, which fail.
   */
  predicate IsLarge(cat: CategoryBreakdown, total: real)
  {
    if total != 0.0 then cat.amount / total >= Threshold else cat.amount > 0.0
  }

  /** The categories at or above the threshold, in their original order: `large` before その他 is pushed. */
  function Kept(cats: seq<CategoryBreakdown>, total: real): (r: seq<CategoryBreakdown>)
    ensures forall i :: 0 <= i < |r| ==> r[i] in cats && IsLarge(r[i], total)
  {
    if cats == [] then []
    else Kept(cats[..|cats| - 1], total) + (if IsLarge(cats[|cats| - 1], total) then [cats[|cats| - 1]] else [])
  }

  /** `otherAmount`: the sum of the amounts below the threshold. */
  function SmallTotal(cats: seq<CategoryBreakdown>, total: real): real
  {
    if cats == [] then 0.0
    else SmallTotal(cats[..|cats| - 1], total) + (if IsLarge(cats[|cats| - 1], total) then 0.0 else cats[|cats| - 1].amount)
  }

  /** With a zero total only non-positive amounts fall below the threshold, so the merged amount is not positive. */
  lemma {:induction false} SmallTotalZeroTotal(cats: seq<CategoryBreakdown>, total: real)
    ensures total == 0.0 ==> SmallTotal(cats, total) <= 0.0
  {
    if cats != [] {
      SmallTotalZeroTotal(cats[..|cats| - 1], total);
    }
  }

  /**
   * The その他 row: the merged amount, its share of the total in per cent to one decimal, grey.
   * The source's object has no count; the record's count is 0 here.
   */
  function OtherRow(amount: real, total: real): CategoryBreakdown
    requires total != 0.0
  {
    CategoryBreakdown(OtherCategory, amount, ToFixed1(amount / total * 100.0), OtherColor, 0)
  }

  /** `combineSmallCategories(categories, total)`: the large categories, then その他 when the merged amount is positive. */
  function Combined(cats: seq<CategoryBreakdown>, total: real): seq<CategoryBreakdown>
  {
    var other := SmallTotal(cats, total);
    SmallTotalZeroTotal(cats, total);
    Kept(cats, total) + if other > 0.0 then [OtherRow(other, total)] else []
  }

  /** The `forEach` of `combineSmallCategories`, then the conditional push of その他. */
  method CombineSmallCategories(categories: seq<CategoryBreakdown>, total: real) returns (large: seq<CategoryBreakdown>)
    ensures large == Combined(categories, total)
  {
    large := [];
    var otherAmount := 0.0;
    var i := 0;
    while i < |categories|
      invariant i <= |categories|
      invariant large == Kept(categories[..i], total)
      invariant otherAmount == SmallTotal(categories[..i], total)
    {
      var cat := categories[i];
      assert categories[..i + 1][..i] == categories[..i];
      if IsLarge(cat, total) {
        large := large + [cat];
      } else {
        otherAmount := otherAmount + cat.amount;
      }
      i := i + 1;
    }
    assert categories[..i] == categories;
    if otherAmount > 0.0 {
      SmallTotalZeroTotal(categories, total);
      large := large + [OtherRow(otherAmount, total)];
    }
  }

  /** Keeping the large categories is the `filter` by the threshold test. */
  lemma {:induction false} KeptIsFilter(cats: seq<CategoryBreakdown>, total: real, large: CategoryBreakdown -> bool)
    requires forall c :: large(c) == IsLarge(c, total)
    ensures Kept(cats, total) == Filter(cats, large)
  {
    if cats != [] {
      KeptIsFilter(cats[..|cats| - 1], total, large);
    }
  }

  /** Keeping distributes over concatenation, so kept categories stay in their original order. */
  lemma {:induction false} KeptAppend(a: seq<CategoryBreakdown>, b: seq<CategoryBreakdown>, total: real)
    ensures Kept(a + b, total) == Kept(a, total) + Kept(b, total)
    decreases |b|
  {
    if b == [] {
      assert a + b == a;
    } else {
      KeptAppend(a, b[..|b| - 1], total);
      assert (a + b)[..|a + b| - 1] == a + b[..|b| - 1];
    }
  }

  /** The merged amount and the kept amounts together make up the input's amount. */
  lemma {:induction false} SmallTotalIsRest(cats: seq<CategoryBreakdown>, total: real)
    ensures SmallTotal(cats, total) + Sum(Kept(cats, total), RowAmount) == Sum(cats, RowAmount)
  {
    if cats != [] {
      var c := cats[|cats| - 1];
      SmallTotalIsRest(cats[..|cats| - 1], total);
      SumAppend(Kept(cats[..|cats| - 1], total), if IsLarge(c, total) then [c] else [], RowAmount);
      assert Sum([c], RowAmount) == c.amount by {
        assert [c][..0] == [];
      }
    }
  }

  function RowAmount(c: CategoryBreakdown): real { c.amount }

  /**
   * The output's amounts add up to the input's, except for a merged amount that is not
   * positive: that one is dropped with its その他 row.
   */
  lemma CombinedSum(cats: seq<CategoryBreakdown>, total: real)
    ensures var other := SmallTotal(cats, total);
            Sum(Combined(cats, total), RowAmount) == Sum(cats, RowAmount) - (if other > 0.0 then 0.0 else other)
  {
    var other := SmallTotal(cats, total);
    SmallTotalIsRest(cats, total);
    SmallTotalZeroTotal(cats, total);
    if other > 0.0 {
      SumAppend(Kept(cats, total), [OtherRow(other, total)], RowAmount);
      assert Sum([OtherRow(other, total)], RowAmount) == other by {
        assert [OtherRow(other, total)][..0] == [];
      }
    } else {
      assert Combined(cats, total) == Kept(cats, total);
    }
  }

  /** Some category below the threshold has a positive amount. */
  predicate HasSmallAmount(cats: seq<CategoryBreakdown>, total: real)
  {
    exists j :: 0 <= j < |cats| && !IsLarge(cats[j], total) && cats[j].amount > 0.0
  }

  /** With non-negative amounts the merged amount is positive exactly when some small category has a positive amount. */
  lemma {:induction false} SmallTotalPositive(cats: seq<CategoryBreakdown>, total: real)
    requires forall j :: 0 <= j < |cats| ==> cats[j].amount >= 0.0
    ensures SmallTotal(cats, total) >= 0.0
    ensures SmallTotal(cats, total) > 0.0 <==> HasSmallAmount(cats, total)
  {
    if cats != [] {
      var s := cats[..|cats| - 1];
      SmallTotalPositive(s, total);
      assert forall j :: 0 <= j < |s| ==> s[j] == cats[j];
      if HasSmallAmount(cats, total) && !HasSmallAmount(s, total) {
        var j :| 0 <= j < |cats| && !IsLarge(cats[j], total) && cats[j].amount > 0.0;
        assert j == |cats| - 1;
      }
    }
  }

  /**
   * With non-negative amounts: the large categories in their order, followed by one
   * その他 row exactly when some small category has a positive amount; and the output's
   * amounts add up to the input's.
   */
  lemma CombinedShape(cats: seq<CategoryBreakdown>, total: real)
    requires forall j :: 0 <= j < |cats| ==> cats[j].amount >= 0.0
    ensures HasSmallAmount(cats, total) ==>
              total != 0.0 && Combined(cats, total) == Kept(cats, total) + [OtherRow(SmallTotal(cats, total), total)]
    ensures !HasSmallAmount(cats, total) ==> Combined(cats, total) == Kept(cats, total)
    ensures Sum(Combined(cats, total), RowAmount) == Sum(cats, RowAmount)
  {
    SmallTotalPositive(cats, total);
    SmallTotalZeroTotal(cats, total);
    CombinedSum(cats, total);
  }

  /** renderCustomizedLabel draws a label unless the slice is below five per cent of the pie. */
  predicate LabelShown(percent: real)
  {
    !(percent < Threshold)
  }

  /**
   * When the total is the positive sum of non-negative category amounts, every kept
   * category's slice is at least five per cent of the pie, so it is labelled.
   */
  lemma KeptSlicesLabelled(cats: seq<CategoryBreakdown>, total: real)
    requires forall j :: 0 <= j < |cats| ==> cats[j].amount >= 0.0
    requires total == Sum(cats, RowAmount) && total > 0.0
    ensures Sum(Combined(cats, total), RowAmount) == total
    ensures forall i :: 0 <= i < |Kept(cats, total)| ==> LabelShown(Kept(cats, total)[i].amount / total)
  {
    CombinedShape(cats, total);
  }
}
