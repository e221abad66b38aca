/**
 * The politician scores (`lib/calculations/scores.ts`): five metrics, each as a raw value,
 * an unrounded score and a 0-100 normalisation; the overall score; and the four-letter
 * political type with its name, description and five dimensions.
 *
 * The metrics are named after what they measure: fundraising (集金力), dining (美食力),
 * faction (派閥力), elections (当選力) and lineage (世襲力).
 */
module Scores {
  import opened Wrappers
  import opened Seqs
  import opened Text
  import opened JsMath
  import opened Ledger

  // ---------------------------------------------------------------- metrics

  /** The dining categories `['高級レストラン', '懇親会']`. */
  predicate IsDining(t: Transaction) { t.category == "高級レストラン" || t.category == "懇親会" }

  predicate IsFaction(t: Transaction) { t.category == "仲間への寄付" }

  /** `politician.electionCount || 1`: an absent or zero count reads as 1. */
  function ElectionValue(p: PoliticianInfo): int
  {
    if p.electionCount.None? || p.electionCount.value == 0 then 1 else p.electionCount.value
  }

  /** `hereditary?.match(/(\d+)/)` then `parseInt`: the first digit run of the label, else 1. */
  function LineageValue(p: PoliticianInfo): nat
  {
    if p.hereditary.None? then 1
    else match FirstDigitRun(p.hereditary.value)
      case None => 1
      case Some(d) => DigitsValue(d)
  }

  datatype Metrics = Metrics(
    fundraisingValue: real, fundraisingScore: real, fundraisingScoreRounded: int, fundraisingNormalized: real,
    diningValue: real, diningScore: real, diningScoreRounded: int, diningNormalized: real,
    factionValue: real, factionScore: real, factionScoreRounded: int, factionNormalized: real,
    electionValue: int, electionScore: int, electionNormalized: real,
    lineageValue: nat, lineageScore: nat, lineageNormalized: real)

  /** `calculatePoliticianMetrics`. */
  function PoliticianMetrics(ts: seq<Transaction>, summary: Summary, p: PoliticianInfo): (m: Metrics)
    ensures 0.0 <= m.fundraisingNormalized <= 100.0 && 0.0 <= m.diningNormalized <= 100.0
    ensures 0.0 <= m.factionNormalized <= 100.0 && 0.0 <= m.electionNormalized <= 100.0
    ensures 0.0 <= m.lineageNormalized <= 100.0
    ensures m.fundraisingScoreRounded as real - 0.5 <= m.fundraisingScore < m.fundraisingScoreRounded as real + 0.5
    ensures m.diningScoreRounded as real - 0.5 <= m.diningScore < m.diningScoreRounded as real + 0.5
    ensures m.factionScoreRounded as real - 0.5 <= m.factionScore < m.factionScoreRounded as real + 0.5
  {
    var fundraising := summary.incomeTotal;
    var dining := Sum(Filter(ts, IsDining), AmountOf);
    var faction := Sum(Filter(ts, IsFaction), AmountOf);
    var elections := ElectionValue(p);
    var lineage := LineageValue(p);
    Metrics(
      fundraising, fundraising / 10000000.0, Round(fundraising / 10000000.0),
      Clamp(0.0, 100.0, (fundraising - 20000000.0) / (300000000.0 - 20000000.0) * 100.0),
      dining, dining / 1000000.0, Round(dining / 1000000.0), Clamp(0.0, 100.0, dining / 6000000.0 * 100.0),
      faction, faction / 1000000.0, Round(faction / 1000000.0), Clamp(0.0, 100.0, faction / 10000000.0 * 100.0),
      elections, elections, Clamp(0.0, 100.0, (elections - 1) as real / (11 - 1) as real * 100.0),
      lineage, lineage, Clamp(0.0, 100.0, lineage as real / 4.0 * 100.0))
  }

  /** An absent or zero election count counts as one election; any other count as itself. */
  lemma ElectionDefault(p: PoliticianInfo)
    ensures p.electionCount.None? ==> ElectionValue(p) == 1
    ensures p.electionCount == Some(0) ==> ElectionValue(p) == 1
    ensures p.electionCount.Some? && p.electionCount.value != 0 ==> ElectionValue(p) == p.electionCount.value
  {
  }

  /**
   * The lineage is the value of the label's first digit run, starting at its first digit;
   * without a label or without a digit in it, it is 1.
   */
  lemma LineageDefault(p: PoliticianInfo, i: nat)
    ensures p.hereditary.None? ==> LineageValue(p) == 1
    ensures p.hereditary.Some? && (forall j :: 0 <= j < |p.hereditary.value| ==> !IsDigit(p.hereditary.value[j]))
            ==> LineageValue(p) == 1
    ensures p.hereditary.Some? && i < |p.hereditary.value| && IsDigit(p.hereditary.value[i])
            && (forall j :: 0 <= j < i ==> !IsDigit(p.hereditary.value[j]))
            ==> var h := p.hereditary.value;
                LineageValue(p) == DigitsValue(h[i..][..DigitRun(h[i..])])
  {
    if p.hereditary.Some? {
      var h := p.hereditary.value;
      if forall j :: 0 <= j < |h| ==> !IsDigit(h[j]) {
        FirstDigitRunNone(h);
      }
      if i < |h| && IsDigit(h[i]) && (forall j :: 0 <= j < i ==> !IsDigit(h[j])) {
        FirstDigitRunAt(h, i);
        assert h[i..i + DigitRun(h[i..])] == h[i..][..DigitRun(h[i..])];
      }
    }
  }

  /**
   * Adding a transaction raises the dining value by its amount exactly when its category is
   * 高級レストラン or 懇親会, and the faction value exactly when it is 仲間への寄付, whatever
   * its type.
   */
  lemma MetricsSnoc(ts: seq<Transaction>, t: Transaction, summary: Summary, p: PoliticianInfo)
    ensures PoliticianMetrics(ts + [t], summary, p).diningValue
         == PoliticianMetrics(ts, summary, p).diningValue
            + (if t.category == "高級レストラン" || t.category == "懇親会" then t.amount else 0.0)
    ensures PoliticianMetrics(ts + [t], summary, p).factionValue
         == PoliticianMetrics(ts, summary, p).factionValue + (if t.category == "仲間への寄付" then t.amount else 0.0)
  {
    assert (ts + [t])[..|ts|] == ts;
    SumAppend(Filter(ts, IsDining), if IsDining(t) then [t] else [], AmountOf);
    SumAppend(Filter(ts, IsFaction), if IsFaction(t) then [t] else [], AmountOf);
  }

  // ---------------------------------------------------------------- overall score

  /** `sum * seshuuryokuScore`: the four unrounded scores added, times the lineage. */
  function OverallProduct(ts: seq<Transaction>, summary: Summary, p: PoliticianInfo): real
  {
    var m := PoliticianMetrics(ts, summary, p);
    (m.fundraisingScore + m.diningScore + m.factionScore + m.electionScore as real) * m.lineageScore as real
  }

  /** The rounding step: to a multiple of ten above 100, to the nearest integer otherwise. */
  function RoundScore(score: real): (r: int)
    ensures score > 100.0 ==> r % 10 == 0 && r as real - 5.0 <= score < r as real + 5.0
    ensures score <= 100.0 ==> r as real - 0.5 <= score < r as real + 0.5
  {
    if score > 100.0 then Round(score / 10.0) * 10 else Round(score)
  }

  /** `calculateOverallScore`. */
  function OverallScore(ts: seq<Transaction>, summary: Summary, p: PoliticianInfo): (r: int)
    ensures var x := OverallProduct(ts, summary, p);
            && (x > 100.0 ==> r % 10 == 0 && r as real - 5.0 <= x < r as real + 5.0)
            && (x <= 100.0 ==> r as real - 0.5 <= x < r as real + 0.5)
  {
    RoundScore(OverallProduct(ts, summary, p))
  }

  /** Above 100 the score is the multiple of ten nearest the product, halves rounded up. */
  lemma RoundScoreNearestTen(score: real, k: int)
    requires score > 100.0 && k % 10 == 0
    ensures (k as real - 5.0 <= score < k as real + 5.0) <==> RoundScore(score) == k
  {
    var r := RoundScore(score);
    if k as real - 5.0 <= score < k as real + 5.0 {
      assert r - k < 10 && k - r < 10;
    }
  }

  // ---------------------------------------------------------------- political type

  datatype TypeInfo = TypeInfo(name: string, description: string)

  /** One of the five dimensions: its letter, its label (`caption`, since `label` is a Dafny keyword) and its normalised metric. */
  datatype Dimension = Dimension(value: char, caption: string, percentage: real)

  datatype TypeDetails = TypeDetails(
    typeName: string, typeCode: string, description: string,
    rp: Dimension, xm: Dimension, lf: Dimension, en: Dimension, st: Dimension)

  /** The sixteen political types. */
  const TypeInfoMap: map<string, TypeInfo> := map[
    "R-X-L-E" := TypeInfo("帝王型ボス", "巨額の資金を動かし、派閥を率いるベテラン。豪華な会食と圧倒的な支配力で政界を掌握する。"),
    "R-X-L-N" := TypeInfo("カリスマ若手ボス", "派手な資金使いと発信力で注目を集める新星。野心と勢いで組織を引っ張る。"),
    "R-X-F-E" := TypeInfo("開放的エリート", "豊富な資金と華やかさを持ちながら、組織に縛られず個人の力で動く外交型ベテラン。"),
    "R-X-F-N" := TypeInfo("ムーブメント便乗者", "時代の空気を読み、流れに乗って存在感を高めるタイプ。派閥を率いるよりも、話題性と機動力で注目を集める。"),
    "R-M-L-E" := TypeInfo("現実派エリート", "豊富な資金とリーダー力を持ちながら、支出は節度ある。堅実で信頼される長老型。"),
    "R-M-L-N" := TypeInfo("期待の実力派参謀", "若手ながら冷静で分析的。堅実な資金運用で信頼を積み重ねる次世代リーダー候補。"),
    "R-M-F-E" := TypeInfo("理想的リーダー", "経済的に安定しつつ、誠実で透明な運営を行う。改革志向と信頼性を兼ね備えた存在。"),
    "R-M-F-N" := TypeInfo("静かな実力者", "派手さはないが堅実な実務で成果を出す。裏方としての信頼感が厚いタイプ。"),
    "P-X-L-E" := TypeInfo("情熱型リーダー", "資金は少ないが、熱意と人望でチームを率いるベテラン。華やかな支出で存在感を保ち、情で動くタイプ。"),
    "P-X-L-N" := TypeInfo("期待の実力派参謀", "活動資金は少ないが、柔軟な発想と機動力で場を動かす戦略家。"),
    "P-X-F-E" := TypeInfo("庶民派ポピュリスト", "お金はなくても社交的で、イベントや交流で民意をつかむタイプ。"),
    "P-X-F-N" := TypeInfo("市民派インフルエンサー", "発信力と共感力で市民に支持される。SNSや街頭で存在感を放つタイプ。"),
    "P-M-L-E" := TypeInfo("草の根長老", "資金規模は小さいが、長年の信頼で地域や仲間を支える。穏やかで誠実な長老。"),
    "P-M-L-N" := TypeInfo("実直な参謀", "地道に誠実。派手さはないが調整力に優れ、裏方として確かな支えとなる。"),
    "P-M-F-E" := TypeInfo("清貧リーダー", "少ない資金でも清廉な政治を貫く。理念と誠実さで支持を得る。"),
    "P-M-F-N" := TypeInfo("市民派新人", "経済力や人脈よりも信念で勝負する純粋な挑戦者。")
  ]

  /** `typeInfoMap[typeCode] || { name: '不明', description: '' }`. */
  function LookupType(code: string): TypeInfo
  {
    if code in TypeInfoMap then TypeInfoMap[code] else TypeInfo("不明", "")
  }

  /** The four letters that make up a type code, each a threshold test on a raw value. */
  function RpLetter(m: Metrics): char { if m.fundraisingValue >= 200000000.0 then 'R' else 'P' }

  function XmLetter(m: Metrics): char { if m.diningValue >= 3000000.0 then 'X' else 'M' }

  function LfLetter(m: Metrics): char { if m.factionValue >= 1000000.0 then 'L' else 'F' }

  function EnLetter(m: Metrics): char { if m.electionValue >= 5 then 'E' else 'N' }

  function StLetter(m: Metrics): char { if m.lineageValue >= 2 then 'S' else 'T' }

  /** `${R_P}-${X_M}-${L_F}-${E_N}`. */
  function TypeCode(m: Metrics): string
  {
    [RpLetter(m), '-', XmLetter(m), '-', LfLetter(m), '-', EnLetter(m)]
  }

  /** `calculatePoliticianMBTIDetails`. */
  function MbtiDetails(ts: seq<Transaction>, summary: Summary, p: PoliticianInfo): (d: TypeDetails)
    ensures |d.typeCode| == 7
    ensures d.typeCode[0] == 'R' <==> summary.incomeTotal >= 200000000.0
    ensures d.typeCode[6] == 'E' <==> ElectionValue(p) >= 5
    ensures d.st.value == 'S' <==> LineageValue(p) >= 2
  {
    var m := PoliticianMetrics(ts, summary, p);
    var code := TypeCode(m);
    var info := LookupType(code);
    TypeDetails(info.name, code, info.description,
      Dimension(RpLetter(m), "集金力", m.fundraisingNormalized),
      Dimension(XmLetter(m), "美食力", m.diningNormalized),
      Dimension(LfLetter(m), "派閥力", m.factionNormalized),
      Dimension(EnLetter(m), "当選力", m.electionNormalized),
      Dimension(StLetter(m), "世襲力", m.lineageNormalized))
  }

  /** Each dimension carries its letter and the normalised metric of its axis as its percentage, in [0, 100]. */
  lemma DimensionsOfMetrics(ts: seq<Transaction>, summary: Summary, p: PoliticianInfo)
    ensures var m := PoliticianMetrics(ts, summary, p);
            var d := MbtiDetails(ts, summary, p);
            && d.rp == Dimension(RpLetter(m), "集金力", m.fundraisingNormalized)
            && d.xm == Dimension(XmLetter(m), "美食力", m.diningNormalized)
            && d.lf == Dimension(LfLetter(m), "派閥力", m.factionNormalized)
            && d.en == Dimension(EnLetter(m), "当選力", m.electionNormalized)
            && d.st == Dimension(StLetter(m), "世襲力", m.lineageNormalized)
            && 0.0 <= d.rp.percentage <= 100.0 && 0.0 <= d.xm.percentage <= 100.0 && 0.0 <= d.lf.percentage <= 100.0
            && 0.0 <= d.en.percentage <= 100.0 && 0.0 <= d.st.percentage <= 100.0
  {
  }

  /** `calculatePoliticianMBTI`: the type name. */
  function Mbti(ts: seq<Transaction>, summary: Summary, p: PoliticianInfo): (name: string)
    ensures name == TypeInfoMap[MbtiDetails(ts, summary, p).typeCode].name
  {
    TypeCodeInTable(PoliticianMetrics(ts, summary, p));
    MbtiDetails(ts, summary, p).typeName
  }

  /** Every code the letters can spell is one of the sixteen keys. */
  lemma TypeCodeInTable(m: Metrics)
    ensures TypeCode(m) in TypeInfoMap
  {
  }

  /**
   * The type, its name and description are always found in the table, so the '不明'
   * fallback never shows.
   */
  lemma TypeAlwaysKnown(ts: seq<Transaction>, summary: Summary, p: PoliticianInfo)
    ensures var d := MbtiDetails(ts, summary, p);
            d.typeCode in TypeInfoMap && d.typeName == TypeInfoMap[d.typeCode].name && d.typeName != "不明"
  {
    TypeCodeInTable(PoliticianMetrics(ts, summary, p));
    TableNamesKnown();
  }

  /** No entry of the table is named like the fallback. */
  lemma TableNamesKnown()
    ensures forall c :: c in TypeInfoMap ==> TypeInfoMap[c].name != "不明"
  {
  }

  /** The dining and faction letters follow their thresholds. */
  lemma DiningFactionLetters(ts: seq<Transaction>, summary: Summary, p: PoliticianInfo)
    ensures var m := PoliticianMetrics(ts, summary, p);
            var d := MbtiDetails(ts, summary, p);
            && (d.typeCode[2] == 'X' <==> m.diningValue >= 3000000.0)
            && (d.typeCode[4] == 'L' <==> m.factionValue >= 1000000.0)
  {
  }

  /** The lineage never enters the type code, its name or its description. */
  lemma LineageNotInCode(ts: seq<Transaction>, summary: Summary, p: PoliticianInfo, h: Option<string>)
    ensures MbtiDetails(ts, summary, p).typeCode == MbtiDetails(ts, summary, p.(hereditary := h)).typeCode
    ensures Mbti(ts, summary, p) == Mbti(ts, summary, p.(hereditary := h))
  {
  }

  /** Two different codes share a name, so the name does not determine the type. */
  lemma TypeNamesNotInjective()
    ensures "R-M-L-N" in TypeInfoMap && "P-X-L-N" in TypeInfoMap
    ensures TypeInfoMap["R-M-L-N"].name == TypeInfoMap["P-X-L-N"].name
  {
  }
}
