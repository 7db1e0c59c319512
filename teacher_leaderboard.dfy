/**
 * The host add-in's `TeacherLeaderboard` component, without its markup: rank
 * icons and styles, the collapsed toggle panel, the statistics bar (students,
 * top score, average, scored) and the per-row name weight.
 */
module TeacherLeaderboard {
  import opened Wrappers
  import opened Text
  import opened Ranking

  const Gold: string := "\U{1F947}"
  const Silver: string := "\U{1F948}"
  const Bronze: string := "\U{1F949}"

  /** `getRankIcon`: a medal for ranks 1-3, `#<rank>` otherwise. */
  function GetRankIcon(rank: int): (icon: string)
    ensures 1 <= rank <= 3 ==> |icon| == 1
    ensures !(1 <= rank <= 3) ==> icon == "#" + IntToString(rank)
    ensures rank == 1 ==> icon == Gold
    ensures rank == 2 ==> icon == Silver
    ensures rank == 3 ==> icon == Bronze
  {
    if rank == 1 then Gold
    else if rank == 2 then Silver
    else if rank == 3 then Bronze
    else "#" + IntToString(rank)
  }

  /** Two different ranks of a leaderboard (ranks are positive) never share an icon. */
  lemma RankIconsDistinct(r1: int, r2: int)
    requires 1 <= r1 && 1 <= r2 && r1 != r2
    ensures GetRankIcon(r1) != GetRankIcon(r2)
  {
    assert Gold[0] != Silver[0] && Gold[0] != Bronze[0] && Silver[0] != Bronze[0];
    if r1 > 3 && r2 > 3 && GetRankIcon(r1) == GetRankIcon(r2) {
      assert GetRankIcon(r1)[1..] == NatToString(r1);
      assert GetRankIcon(r2)[1..] == NatToString(r2);
      NatToStringInjective(r1, r2);
    }
  }

  /** `getRankStyle`: background and text colour of the rank cell. */
  datatype Style = Style(backgroundColor: string, color: string)

  const White := Style("white", "#212529")

  function GetRankStyle(rank: int): (style: Style)
    ensures !(1 <= rank <= 3) <==> style == White
  {
    if rank == 1 then Style("#fff3cd", "#856404")
    else if rank == 2 then Style("#e9ecef", "#495057")
    else if rank == 3 then Style("#f8d7da", "#721c24")
    else White
  }

  /** Gold, silver and bronze are three different styles. */
  lemma PodiumStylesDistinct()
    ensures GetRankStyle(1) != GetRankStyle(2)
    ensures GetRankStyle(1) != GetRankStyle(3)
    ensures GetRankStyle(2) != GetRankStyle(3)
  {
    assert GetRankStyle(1).backgroundColor[1] != GetRankStyle(2).backgroundColor[1];
    assert GetRankStyle(1).backgroundColor[2] != GetRankStyle(3).backgroundColor[2];
    assert GetRankStyle(2).backgroundColor[1] != GetRankStyle(3).backgroundColor[1];
  }

  /** `leaderboard.filter(p => p.score > 0).length`. */
  function ScoredCount(es: seq<Entry>): (n: nat)
    ensures n <= |es|
  {
    if es == [] then 0 else (if es[0].score > 0 then 1 else 0) + ScoredCount(es[1..])
  }

  /** Every entry is counted as scored exactly when every score is positive; none exactly when none is. */
  lemma {:induction false} ScoredCountExtremes(es: seq<Entry>)
    ensures ScoredCount(es) == |es| <==> forall i :: 0 <= i < |es| ==> es[i].score > 0
    ensures ScoredCount(es) == 0 <==> forall i :: 0 <= i < |es| ==> es[i].score <= 0
  {
    if es != [] {
      ScoredCountExtremes(es[1..]);
      assert forall i :: 1 <= i < |es| ==> es[i] == es[1..][i - 1];
    }
  }

  /** One table row: icon, style, whether the name is bold, name and score. */
  datatype Row = Row(icon: string, style: Style, bold: bool, name: string, score: int)

  datatype Stats = Stats(students: nat, topScore: int, average: int, scored: nat)

  /**
   * What the component produces: only the "Show Leaderboard" toggle when not
   * visible; otherwise the student count, the statistics bar (non-empty
   * leaderboards only) and one row per entry.
   */
  datatype Panel =
    | TogglePanel
    | FullPanel(students: nat, stats: Option<Stats>, rows: seq<Row>)

  function RowFor(e: Entry): Row {
    Row(GetRankIcon(e.rank), GetRankStyle(e.rank), e.rank <= 3, e.name, e.score)
  }

  function Render(es: seq<Entry>, isVisible: bool): (p: Panel)
    ensures !isVisible <==> p == TogglePanel
    ensures p.FullPanel? ==> p.students == |es| && |p.rows| == |es|
    ensures p.FullPanel? ==> (p.stats.Some? <==> |es| > 0)
    ensures p.FullPanel? && |es| > 0 ==> p.stats == Some(Stats(|es|, TopScore(es), Average(es), ScoredCount(es)))
    ensures p.FullPanel? ==> forall i :: 0 <= i < |es| ==>
      && p.rows[i].icon == GetRankIcon(es[i].rank) && p.rows[i].style == GetRankStyle(es[i].rank)
      && p.rows[i].bold == (es[i].rank <= 3) && p.rows[i].name == es[i].name && p.rows[i].score == es[i].score
  {
    if !isVisible then TogglePanel
    else
      var stats := if |es| > 0 then Some(Stats(|es|, TopScore(es), Average(es), ScoredCount(es))) else None;
      FullPanel(|es|, stats, seq(|es|, i requires 0 <= i < |es| => RowFor(es[i])))
  }

  /**
   * On a ranked, non-empty leaderboard the statistics bar shows the number of
   * students, a top score that is the highest score and belongs to one of
   * the rows, an average between the lowest and the highest score, and at
   * most every student as scored.
   */
  lemma RenderedStatsOfRanked(rows: seq<ScoreRow>)
    requires rows != []
    ensures var es := Rank(rows); var p := Render(es, true);
      && p.stats.Some?
      && p.stats.value.students == |rows|
      && (forall i :: 0 <= i < |es| ==> es[i].score <= p.stats.value.topScore)
      && (exists i :: 0 <= i < |rows| && rows[i].score == p.stats.value.topScore)
      && es[|es| - 1].score <= p.stats.value.average <= p.stats.value.topScore
      && p.stats.value.scored <= |rows|
  {
    var es := Rank(rows);
    TopScoreIsHighest(rows);
    AverageWithinScores(es, es[|es| - 1].score, es[0].score);
  }

  /** On a ranked leaderboard exactly the first three rows have bold names. */
  lemma BoldPodium(rows: seq<ScoreRow>, i: nat)
    requires i < |rows|
    ensures var p := Render(Rank(rows), true); p.rows[i].bold <==> i < 3
  {
  }
}
