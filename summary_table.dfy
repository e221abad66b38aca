/**
 * The landing page's politician summary table (components/landing/PoliticianSummaryTable.tsx):
 * the badge palette chosen from a type code by its first and third letters, and the
 * fallbacks of the score and type cells.
 */
module SummaryTable {
  import opened Wrappers
  import opened Text
  import Scores

  /** A badge's background, border and text colours. */
  datatype Palette = Palette(bg: string, border: string, text: string)

  const Gold: Palette := Palette("rgba(251, 191, 36, 0.2)", "rgba(251, 191, 36, 0.4)", "rgb(180, 83, 9)")

  const Blue: Palette := Palette("rgba(59, 130, 246, 0.2)", "rgba(59, 130, 246, 0.4)", "rgb(30, 64, 175)")

  const Green: Palette := Palette("rgba(34, 197, 94, 0.2)", "rgba(34, 197, 94, 0.4)", "rgb(22, 101, 52)")

  const Purple: Palette := Palette("rgba(168, 85, 247, 0.2)", "rgba(168, 85, 247, 0.4)", "rgb(107, 33, 168)")

  /**
   * `getTypeColor`: the code is split on '-', its first piece is `r` and its third `l`
   * (undefined when there are fewer than three pieces); R with L is gold, R alone blue,
   * L alone green, and everything else purple.
   */
  function TypeColor(typeCode: string): Palette
  {
    var pieces := Split(typeCode, '-');
    var r := pieces[0];
    var l := if |pieces| > 2 then Some(pieces[2]) else None;
    if r == "R" && l == Some("L") then Gold
    else if r == "R" then Blue
    else if l == Some("L") then Green
    else Purple
  }

  /** The palette of four dash-free letters joined by '-': the first and third letters decide it. */
  lemma TypeColorOfLetters(r: string, x: string, l: string, e: string)
    requires '-' !in r && '-' !in x && '-' !in l && '-' !in e
    ensures r == "R" && l == "L" ==> TypeColor(Join([r, x, l, e], '-')) == Gold
    ensures r == "R" && l != "L" ==> TypeColor(Join([r, x, l, e], '-')) == Blue
    ensures r != "R" && l == "L" ==> TypeColor(Join([r, x, l, e], '-')) == Green
    ensures r != "R" && l != "L" ==> TypeColor(Join([r, x, l, e], '-')) == Purple
  {
    SplitJoin([r, x, l, e], '-');
  }

  /** The second and fourth letters of a four-letter code never change its palette. */
  lemma TypeColorIgnoresSecondAndFourth(r: string, x: string, l: string, e: string, x': string, e': string)
    requires '-' !in r && '-' !in x && '-' !in l && '-' !in e && '-' !in x' && '-' !in e'
    ensures TypeColor(Join([r, x, l, e], '-')) == TypeColor(Join([r, x', l, e'], '-'))
  {
    SplitJoin([r, x, l, e], '-');
    SplitJoin([r, x', l, e'], '-');
  }

  /**
   * For the code the scoring assigns: gold for a fundraising value of at least 200 million
   * yen with a faction value of at least one million, blue for the first alone, green for the
   * second alone, purple for neither.
   */
  lemma TypeColorOfMetrics(m: Scores.Metrics)
    ensures var rich := m.fundraisingValue >= 200000000.0;
            var leader := m.factionValue >= 1000000.0;
            && (TypeColor(Scores.TypeCode(m)) == Gold <==> rich && leader)
            && (TypeColor(Scores.TypeCode(m)) == Blue <==> rich && !leader)
            && (TypeColor(Scores.TypeCode(m)) == Green <==> !rich && leader)
            && (TypeColor(Scores.TypeCode(m)) == Purple <==> !rich && !leader)
  {
    var r, x, l, e := [Scores.RpLetter(m)], [Scores.XmLetter(m)], [Scores.LfLetter(m)], [Scores.EnLetter(m)];
    assert Join([r, x, l, e], '-') == Scores.TypeCode(m) by {
      assert [r, x][..1] == [r];
      assert Join([r, x], '-') == r + ['-'] + x;
      assert [r, x, l][..2] == [r, x];
      assert Join([r, x, l], '-') == r + ['-'] + x + ['-'] + l;
      assert [r, x, l, e][..3] == [r, x, l];
    }
    assert r == "R" <==> m.fundraisingValue >= 200000000.0;
    assert l == "L" <==> m.factionValue >= 1000000.0;
    TypeColorOfLetters(r, x, l, e);
  }

  /** What the score cell shows: the score, or '-'. */
  datatype ScoreText = ShowScore(score: real) | Dash

  /** `overallScore || '-'`: an absent score and a score of 0 both show '-'. */
  function ScoreCell(overallScore: Option<real>): (r: ScoreText)
    ensures r == Dash <==> overallScore == None || overallScore == Some(0.0)
    ensures r.ShowScore? ==> overallScore == Some(r.score) && r.score != 0.0
  {
    if overallScore.Some? && overallScore.value != 0.0 then ShowScore(overallScore.value) else Dash
  }

  /** What the type cell shows: a badge with the type's name in its palette, or '-'. */
  datatype TypeText = Badge(name: string, palette: Palette) | NoType

  /** `mbtiType && mbtiTypeCode ? badge : '-'`: both must be present and non-empty. */
  function TypeCell(mbtiType: Option<string>, mbtiTypeCode: Option<string>): (r: TypeText)
    ensures r.Badge? <==> Filled(mbtiType) && Filled(mbtiTypeCode)
    ensures r.Badge? ==> Some(r.name) == mbtiType && r.palette == TypeColor(mbtiTypeCode.value)
  {
    if Filled(mbtiType) && Filled(mbtiTypeCode) then Badge(mbtiType.value, TypeColor(mbtiTypeCode.value)) else NoType
  }
}
