/**
 * The student client's `Leaderboard` component, without its markup: the rank
 * icon, which row is the current participant's, the compact top-five view
 * with its "+N more participants" line, and the quick statistics.
 */
module StudentLeaderboard {
  import opened Wrappers
  import opened Text
  import opened Ranking

  /** `getRankIcon` returns a medal string or the rank number itself. */
  datatype RankIcon = Medal(glyph: string) | Number(rank: int)

  const Gold: string := "\U{1F947}"
  const Silver: string := "\U{1F948}"
  const Bronze: string := "\U{1F949}"

  function GetRankIcon(rank: int): (icon: RankIcon)
    ensures icon.Medal? <==> 1 <= rank <= 3
    ensures icon.Number? ==> icon.rank == rank
    ensures rank == 1 ==> icon == Medal(Gold)
    ensures rank == 2 ==> icon == Medal(Silver)
    ensures rank == 3 ==> icon == Medal(Bronze)
  {
    if rank == 1 then Medal(Gold)
    else if rank == 2 then Medal(Silver)
    else if rank == 3 then Medal(Bronze)
    else Number(rank)
  }

  /** Different ranks never share an icon. */
  lemma RankIconsDistinct(r1: int, r2: int)
    requires r1 != r2
    ensures GetRankIcon(r1) != GetRankIcon(r2)
  {
    assert Gold[0] != Silver[0] && Gold[0] != Bronze[0] && Silver[0] != Bronze[0];
  }

  /**
   * `currentParticipantId && entry.participant_id === parseInt(currentParticipantId)`:
   * the id from storage must be present and non-empty, and parse to the entry's id.
   */
  predicate IsCurrentUser(currentParticipantId: Option<string>, e: Entry) {
    match currentParticipantId
    case None => false
    case Some(s) => s != "" && JsParseInt(s) == Some(e.participantId)
  }

  /**
   * With the id stored as the decimal string of the participant's id, exactly
   * the entries carrying that id are highlighted.
   */
  lemma HighlightsOwnRow(pid: nat, e: Entry)
    ensures IsCurrentUser(Some(NatToString(pid)), e) <==> e.participantId == pid
  {
    ParsersReadDecimal(pid);
  }

  /** Nothing is highlighted without a stored id. */
  lemma NoHighlightWithoutId(e: Entry)
    ensures !IsCurrentUser(None, e) && !IsCurrentUser(Some(""), e)
  {
  }

  /** The rows shown: `leaderboard.slice(0, 5)` in compact mode, all otherwise. */
  function ShownRows(es: seq<Entry>, compact: bool): (shown: seq<Entry>)
    ensures compact ==> |shown| == (if |es| < 5 then |es| else 5)
    ensures !compact ==> shown == es
    ensures shown == es[..|shown|]
  {
    if compact && |es| > 5 then es[..5] else es
  }

  /** The "+N more participants" line of compact mode: present iff more than 5 entries. */
  function MoreLine(es: seq<Entry>): (more: Option<nat>)
    ensures more.Some? <==> |es| > 5
    ensures more.Some? ==> more.value == |es| - 5
  {
    if |es| > 5 then Some(|es| - 5) else None
  }

  /** Compact mode accounts for every entry: shown rows plus N more. */
  lemma CompactAccountsForAll(es: seq<Entry>)
    ensures |ShownRows(es, true)| + MoreLine(es).GetOr(0) == |es|
  {
  }

  /** The quick statistics under the full table: participants, top score, average. */
  datatype Stats = Stats(participants: nat, topScore: int, average: int)

  /** Shown only when the leaderboard is non-empty. */
  function QuickStats(es: seq<Entry>): (stats: Option<Stats>)
    ensures stats.Some? <==> |es| > 0
    ensures stats.Some? ==> stats.value.participants == |es|
  {
    if |es| > 0 then Some(Stats(|es|, TopScore(es), Average(es))) else None
  }

  /**
   * For a leaderboard ranked from a scoreboard the top score is the highest
   * score and the average lies between the lowest and the highest.
   */
  lemma QuickStatsOfRanked(rows: seq<ScoreRow>, lo: int, hi: int)
    requires |rows| > 0
    requires forall i :: 0 <= i < |rows| ==> lo <= rows[i].score <= hi
    ensures var es := Rank(rows);
      QuickStats(es).Some?
      && (forall i :: 0 <= i < |es| ==> es[i].score <= QuickStats(es).value.topScore)
      && lo <= QuickStats(es).value.average <= hi
  {
    var es := Rank(rows);
    TopScoreIsHighest(rows);
    forall i | 0 <= i < |es| ensures lo <= es[i].score <= hi {
      assert RowOf(es[i]) == Unrank(es)[i];
      assert RowOf(es[i]) in multiset(rows);
    }
    AverageWithinScores(es, lo, hi);
  }
}
