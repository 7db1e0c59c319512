/**
 * Client-side ranking of a scoreboard. The student page and the host panel run
 * the same code on every `score_update`: sort the rows with the comparator
 * `(a, b) => b.score - a.score` (a stable sort, so rows with equal scores keep
 * the order in which they arrived) and number them `rank = index + 1`. The
 * rounded mean of the scores is shared by the host statistics and both
 * leaderboard components.
 */
module Ranking {
  import opened Sorting

  /** One row of a `score_update` scoreboard. */
  datatype ScoreRow = ScoreRow(participantId: int, name: string, score: int)

  /** A `LeaderboardEntry`. */
  datatype Entry = Entry(participantId: int, name: string, score: int, rank: int)

  /** `b.score - a.score <= 0`: a may stay before b. */
  predicate ScoreFirst(a: ScoreRow, b: ScoreRow) {
    a.score >= b.score
  }

  function RowOf(e: Entry): ScoreRow {
    ScoreRow(e.participantId, e.name, e.score)
  }

  function Unrank(es: seq<Entry>): (rows: seq<ScoreRow>)
    ensures |rows| == |es|
    ensures forall i :: 0 <= i < |es| ==> rows[i] == RowOf(es[i])
  {
    if es == [] then [] else [RowOf(es[0])] + Unrank(es[1..])
  }

  /** `.map((p, index) => ({...p, rank: index + 1}))`. */
  function Numbered(s: seq<ScoreRow>): (es: seq<Entry>)
    ensures |es| == |s|
    ensures forall i :: 0 <= i < |s| ==> es[i] == Entry(s[i].participantId, s[i].name, s[i].score, i + 1)
  {
    seq(|s|, i requires 0 <= i < |s| => Entry(s[i].participantId, s[i].name, s[i].score, i + 1))
  }

  lemma UnrankNumbered(s: seq<ScoreRow>)
    ensures Unrank(Numbered(s)) == s
  {
  }

  /**
   * The ranked leaderboard built from a scoreboard: the same rows, ordered by
   * non-increasing score, each carrying its position + 1 as rank.
   */
  function Rank(rows: seq<ScoreRow>): (es: seq<Entry>)
    ensures |es| == |rows|
    ensures forall i :: 0 <= i < |es| ==> es[i].rank == i + 1
    ensures forall i, j :: 0 <= i < j < |es| ==> es[i].score >= es[j].score
    ensures multiset(Unrank(es)) == multiset(rows)
  {
    var sorted := Sort(rows, ScoreFirst);
    SortSorted(rows, ScoreFirst);
    UnrankNumbered(sorted);
    Numbered(sorted)
  }

  /** The rows of s whose score is v, in their order in s. */
  function WithScore(s: seq<ScoreRow>, v: int): (r: seq<ScoreRow>)
    ensures |r| <= |s|
    ensures forall i :: 0 <= i < |r| ==> r[i].score == v
  {
    if s == [] then [] else (if s[0].score == v then [s[0]] else []) + WithScore(s[1..], v)
  }

  lemma {:induction false} WithScoreIsEquivalents(s: seq<ScoreRow>, y: ScoreRow)
    ensures Equivalents(s, y, ScoreFirst) == WithScore(s, y.score)
  {
    if s != [] {
      WithScoreIsEquivalents(s[1..], y);
    }
  }

  /**
   * Ties keep the incoming order: for every score, the rows with that score
   * appear in the ranked leaderboard in the order the server sent them.
   */
  lemma RankKeepsTieOrder(rows: seq<ScoreRow>, v: int)
    ensures WithScore(Unrank(Rank(rows)), v) == WithScore(rows, v)
  {
    var y := ScoreRow(0, "", v);
    var sorted := Sort(rows, ScoreFirst);
    UnrankNumbered(sorted);
    SortStable(rows, y, ScoreFirst);
    WithScoreIsEquivalents(rows, y);
    WithScoreIsEquivalents(sorted, y);
  }

  /** Two equal scores are ranked in arrival order, not by participant id. */
  lemma TieKeepsArrivalOrder()
    ensures Rank([ScoreRow(2, "b", 3), ScoreRow(1, "a", 3)])
         == [Entry(2, "b", 3, 1), Entry(1, "a", 3, 2)]
  {
    var rows := [ScoreRow(2, "b", 3), ScoreRow(1, "a", 3)];
    assert rows[1..] == [ScoreRow(1, "a", 3)];
    assert Sort(rows[1..], ScoreFirst) == [ScoreRow(1, "a", 3)];
    assert Sort(rows, ScoreFirst) == rows;
  }

  /** A scoreboard already in non-increasing order keeps its order. */
  lemma RankOfOrdered(rows: seq<ScoreRow>)
    requires forall i, j :: 0 <= i < j < |rows| ==> rows[i].score >= rows[j].score
    ensures Unrank(Rank(rows)) == rows
  {
    SortOfSorted(rows, ScoreFirst);
    UnrankNumbered(rows);
  }

  /** `entries.reduce((sum, e) => sum + e.score, 0)`. */
  function SumScores(es: seq<Entry>): int {
    if es == [] then 0 else es[0].score + SumScores(es[1..])
  }

  /**
   * `Math.round(total / n)` for n > 0, which rounds halves upwards: the r with
   * r - 1/2 <= total / n < r + 1/2.
   */
  function RoundedMean(total: int, n: nat): (r: int)
    requires n > 0
    ensures n * (2 * r - 1) <= 2 * total < n * (2 * r + 1)
  {
    var r := (2 * total + n) / (2 * n);
    assert 2 * n * r <= 2 * total + n < 2 * n * r + 2 * n;
    r
  }

  /** The rounded mean of the scores, 0 for an empty leaderboard. */
  function Average(es: seq<Entry>): int {
    if |es| > 0 then RoundedMean(SumScores(es), |es|) else 0
  }

  lemma {:induction false} SumScoresBounds(es: seq<Entry>, lo: int, hi: int)
    requires forall i :: 0 <= i < |es| ==> lo <= es[i].score <= hi
    ensures |es| * lo <= SumScores(es) <= |es| * hi
  {
    if es != [] {
      SumScoresBounds(es[1..], lo, hi);
    }
  }

  /** The average lies between the lowest and the highest score. */
  lemma AverageWithinScores(es: seq<Entry>, lo: int, hi: int)
    requires |es| > 0
    requires forall i :: 0 <= i < |es| ==> lo <= es[i].score <= hi
    ensures lo <= Average(es) <= hi
  {
    SumScoresBounds(es, lo, hi);
    var n, r := |es|, Average(es);
    assert n * (2 * r - 1) <= 2 * SumScores(es) < n * (2 * r + 1);
    CancelFactor(n, 2 * lo - 1, 2 * r + 1);
    CancelFactor(n, 2 * r - 1, 2 * hi + 1);
  }

  lemma CancelFactor(n: int, a: int, b: int)
    requires n > 0 && n * a < n * b
    ensures a < b
  {
    assert n * b - n * a == n * (b - a);
  }

  /** `leaderboard[0]?.score || 0`. */
  function TopScore(es: seq<Entry>): int {
    if es == [] then 0 else es[0].score
  }

  /** On a ranked leaderboard the top score is the highest score (0 when empty). */
  lemma TopScoreIsHighest(rows: seq<ScoreRow>)
    ensures var es := Rank(rows);
      (es == [] ==> TopScore(es) == 0)
      && (es != [] ==> (forall i :: 0 <= i < |es| ==> es[i].score <= TopScore(es))
                       && (exists i :: 0 <= i < |rows| && rows[i].score == TopScore(es)))
  {
    var es := Rank(rows);
    if es != [] {
      assert RowOf(es[0]) == Unrank(es)[0];
      assert RowOf(es[0]) in multiset(rows);
    }
  }

  /** Every entry scoring v gives average v. */
  lemma AverageOfEqualScores(es: seq<Entry>, v: int)
    requires |es| > 0
    requires forall i :: 0 <= i < |es| ==> es[i].score == v
    ensures Average(es) == v
  {
    AverageWithinScores(es, v, v);
  }
}
