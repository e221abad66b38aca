/**
 * The five-axis radar chart (components/charts/PoliticianRadarChart.tsx): five ratios in
 * per cent, of this year's income to the average member's, of self-donations to half of
 * this year's income, of donations to allies to ten million yen, of event, corporate and
 * fund-raising income to this year's income, and of restaurant and reception spending to
 * fifteen million yen; each is plotted capped at 100.
 */
module RadarChart {
  import opened Seqs
  import opened JsMath
  import opened Ledger

  /** A JavaScript number as far as these ratios need it: a quotient by zero is infinite or NaN. */
  datatype Num = Finite(v: real) | NaN | PosInf | NegInf

  /** The average member's yearly income, 35,940,000 yen. */
  const AverageIncome: real := 35940000.0

  /** The baseline for donations to allies, 10,000,000 yen. */
  const TeamBaseline: real := 10000000.0

  /** The baseline for social spending, 15,000,000 yen. */
  const SocialSpendBaseline: real := 15000000.0

  const SelfDonation: string := "セルフ寄付"

  const TeamDonation: string := "仲間への寄付"

  const SocialIncomeCategories: seq<string> := ["イベント・グッズ売上", "企業・団体献金", "政治資金パーティー"]

  const SocialExpenseCategories: seq<string> := ["高級レストラン", "懇親会"]

  /** `a / b`: finite for a non-zero divisor; by zero, ±Infinity by the sign of a, or NaN for 0 / 0. */
  function Divide(a: real, b: real): (r: Num)
    ensures r.Finite? <==> b != 0.0
    ensures r.Finite? ==> r.v * b == a
    ensures b == 0.0 ==> (r == NaN <==> a == 0.0) && (r == PosInf <==> a > 0.0) && (r == NegInf <==> a < 0.0)
  {
    if b != 0.0 then Finite(a / b) else if a > 0.0 then PosInf else if a < 0.0 then NegInf else NaN
  }

  /** `Math.round(x * 100)`: a finite ratio becomes the nearest whole per cent; infinities and NaN stay. */
  function Percent(x: Num): (r: Num)
    ensures r.Finite? <==> x.Finite?
    ensures r.Finite? ==> r.v - 0.5 <= x.v * 100.0 < r.v + 0.5 && r.v == r.v.Floor as real
    ensures !x.Finite? ==> r == x
  {
    if x.Finite? then Finite(Round(x.v * 100.0) as real) else x
  }

  /** `Math.min(x, 100)`: +Infinity becomes 100, NaN and -Infinity stay. */
  function Cap(x: Num): (r: Num)
    ensures r != PosInf && (r.Finite? ==> r.v <= 100.0)
    ensures r == NaN <==> x == NaN
    ensures r == NegInf <==> x == NegInf
    ensures x.Finite? && x.v <= 100.0 ==> r == x
    ensures x == PosInf || (x.Finite? && x.v > 100.0) ==> r == Finite(100.0)
  {
    match x
    case Finite(v) => Finite(Min(v, 100.0))
    case NaN => NaN
    case PosInf => Finite(100.0)
    case NegInf => NegInf
  }

  predicate IsSelfDonation(t: Transaction) { t.category == SelfDonation }

  predicate IsTeamDonation(t: Transaction) { t.category == TeamDonation }

  predicate IsSocialIncome(t: Transaction) { t.txType == Income && t.category in SocialIncomeCategories }

  predicate IsSocialExpense(t: Transaction) { t.category in SocialExpenseCategories }

  /** `transactions.filter(p).reduce((sum, t) => sum + t.amount, 0)`. */
  function FilteredTotal(ts: seq<Transaction>, p: Transaction -> bool): real
  {
    Sum(Filter(ts, p), AmountOf)
  }

  /** `incomeTotal - carriedFromPrevYear`. */
  function ThisYearIncome(s: Summary): real
  {
    s.incomeTotal - s.carriedFromPrevYear
  }

  datatype RadarMetrics = RadarMetrics(
    combatPowerRatio: Num,
    combatPowerSum: real,
    defensePower: Num,
    defensePowerSum: real,
    teamInfluence: Num,
    teamInfluenceSum: real,
    socialInfluence: Num,
    socialInfluenceSum: real,
    socialPower: Num,
    socialPowerSum: real)

  /** `calculateMetrics`. */
  function CalculateMetrics(ts: seq<Transaction>, s: Summary): RadarMetrics
  {
    var thisYear := ThisYearIncome(s);
    var self := FilteredTotal(ts, IsSelfDonation);
    var team := FilteredTotal(ts, IsTeamDonation);
    var social := FilteredTotal(ts, IsSocialIncome);
    var spend := FilteredTotal(ts, IsSocialExpense);
    RadarMetrics(
      Percent(Divide(thisYear, AverageIncome)), thisYear,
      Percent(Divide(self, thisYear * 0.5)), self,
      Percent(Divide(team, TeamBaseline)), team,
      Percent(Divide(social, thisYear)), social,
      Percent(Divide(spend, SocialSpendBaseline)), spend)
  }

  /** A plotted point: the capped `value` and the uncapped `fullValue`. */
  datatype RadarPoint = RadarPoint(value: Num, fullValue: Num)

  /** The five metrics in axis order. */
  function Axes(m: RadarMetrics): seq<Num>
  {
    [m.combatPowerRatio, m.defensePower, m.teamInfluence, m.socialInfluence, m.socialPower]
  }

  /** `radarData` without the axis captions. */
  function RadarData(m: RadarMetrics): seq<RadarPoint>
  {
    [RadarPoint(Cap(m.combatPowerRatio), m.combatPowerRatio),
     RadarPoint(Cap(m.defensePower), m.defensePower),
     RadarPoint(Cap(m.teamInfluence), m.teamInfluence),
     RadarPoint(Cap(m.socialInfluence), m.socialInfluence),
     RadarPoint(Cap(m.socialPower), m.socialPower)]
  }

  /**
   * One point per axis, in order: the full value is the metric, and the plotted value never
   * exceeds 100, equals the metric up to 100, and is 100 above it.
   */
  lemma RadarDataCapped(m: RadarMetrics)
    ensures |RadarData(m)| == |Axes(m)| == 5
    ensures forall i :: 0 <= i < 5 ==>
              var p := RadarData(m)[i];
              && p.fullValue == Axes(m)[i]
              && p.value != PosInf && (p.value.Finite? ==> p.value.v <= 100.0)
              && (p.fullValue.Finite? && p.fullValue.v <= 100.0 ==> p.value == p.fullValue)
              && (p.fullValue == PosInf || (p.fullValue.Finite? && p.fullValue.v > 100.0) ==> p.value == Finite(100.0))
  {
  }

  /**
   * The three ratios over a fixed baseline are always whole per cents within half a per cent
   * of the exact ratio; the combat ratio of an income equal to the average is 100.
   */
  lemma FixedBaselineRatios(ts: seq<Transaction>, s: Summary)
    ensures var m := CalculateMetrics(ts, s);
            && m.combatPowerRatio.Finite? && m.teamInfluence.Finite? && m.socialPower.Finite?
            && m.combatPowerRatio.v - 0.5 <= ThisYearIncome(s) * 100.0 / AverageIncome < m.combatPowerRatio.v + 0.5
            && m.teamInfluence.v - 0.5 <= m.teamInfluenceSum * 100.0 / TeamBaseline < m.teamInfluence.v + 0.5
            && m.socialPower.v - 0.5 <= m.socialPowerSum * 100.0 / SocialSpendBaseline < m.socialPower.v + 0.5
    ensures ThisYearIncome(s) == AverageIncome ==> CalculateMetrics(ts, s).combatPowerRatio == Finite(100.0)
  {
  }

  /** A per-cent ratio over a non-zero divisor is finite and within half a per cent of the exact one. */
  lemma PercentOfQuotient(a: real, b: real)
    requires b != 0.0
    ensures Percent(Divide(a, b)).Finite?
    ensures Percent(Divide(a, b)).v - 0.5 <= a * 100.0 / b < Percent(Divide(a, b)).v + 0.5
  {
    assert Divide(a, b).v * 100.0 == a * 100.0 / b;
  }

  /** With income this year, the two ratios over it are within half a per cent of the exact ratios. */
  lemma IncomeRatios(ts: seq<Transaction>, s: Summary)
    requires ThisYearIncome(s) != 0.0
    ensures var m := CalculateMetrics(ts, s);
            var y := ThisYearIncome(s);
            && m.defensePower.Finite? && m.socialInfluence.Finite?
            && m.defensePower.v - 0.5 <= m.defensePowerSum * 100.0 / (y * 0.5) < m.defensePower.v + 0.5
            && m.socialInfluence.v - 0.5 <= m.socialInfluenceSum * 100.0 / y < m.socialInfluence.v + 0.5
  {
    var m := CalculateMetrics(ts, s);
    var y := ThisYearIncome(s);
    PercentOfQuotient(m.defensePowerSum, y * 0.5);
    PercentOfQuotient(m.socialInfluenceSum, y);
  }

  /**
   * Without income this year the two ratios over it divide by zero: NaN for a zero
   * numerator, +Infinity for a positive one and -Infinity for a negative one.
   */
  lemma NoIncomeRatios(ts: seq<Transaction>, s: Summary)
    requires ThisYearIncome(s) == 0.0
    ensures var m := CalculateMetrics(ts, s);
            && (m.defensePower == NaN <==> m.defensePowerSum == 0.0)
            && (m.defensePower == PosInf <==> m.defensePowerSum > 0.0)
            && (m.defensePower == NegInf <==> m.defensePowerSum < 0.0)
            && (m.socialInfluence == NaN <==> m.socialInfluenceSum == 0.0)
            && (m.socialInfluence == PosInf <==> m.socialInfluenceSum > 0.0)
            && (m.socialInfluence == NegInf <==> m.socialInfluenceSum < 0.0)
  {
  }

  /** Every transaction of ts with its type replaced by the one at the same position of tys. */
  function Retyped(ts: seq<Transaction>, tys: seq<TxType>): (r: seq<Transaction>)
    requires |tys| == |ts|
    ensures |r| == |ts|
    ensures forall i :: 0 <= i < |ts| ==> r[i] == ts[i].(txType := tys[i])
  {
    seq(|ts|, i requires 0 <= i < |ts| => ts[i].(txType := tys[i]))
  }

  /** The self-donation, ally-donation and social-spending totals do not look at a transaction's type. */
  lemma TotalsIgnoreType(ts: seq<Transaction>, tys: seq<TxType>, s: Summary)
    requires |tys| == |ts|
    ensures var m := CalculateMetrics(ts, s);
            var m' := CalculateMetrics(Retyped(ts, tys), s);
            && m'.defensePowerSum == m.defensePowerSum
            && m'.teamInfluenceSum == m.teamInfluenceSum
            && m'.socialPowerSum == m.socialPowerSum
  {
    var u := Retyped(ts, tys);
    FilterSumAligned(ts, u, IsSelfDonation, IsSelfDonation, AmountOf, AmountOf);
    FilterSumAligned(ts, u, IsTeamDonation, IsTeamDonation, AmountOf, AmountOf);
    FilterSumAligned(ts, u, IsSocialExpense, IsSocialExpense, AmountOf, AmountOf);
  }

  /**
   * The social-income total counts income transactions only: with non-negative amounts it
   * lies between zero and the ledger's income total, and it is zero when no transaction is income.
   */
  lemma SocialIncomeWithinIncome(ts: seq<Transaction>, s: Summary)
    requires forall i :: 0 <= i < |ts| ==> ts[i].amount >= 0.0
    ensures 0.0 <= CalculateMetrics(ts, s).socialInfluenceSum <= TypeTotal(ts, Income)
    ensures (forall i :: 0 <= i < |ts| ==> ts[i].txType == Expense) ==> CalculateMetrics(ts, s).socialInfluenceSum == 0.0
  {
    FilterSumMonotone(ts, IsSocialIncome, (t: Transaction) => t.txType == Income, AmountOf);
    if forall i :: 0 <= i < |ts| ==> ts[i].txType == Expense {
      FilterNone(ts, (t: Transaction) => t.txType == Income);
    }
  }
}
