/**
 The character sheet and the difficulty recommendation: a four-branch table
 over the character's level and the average session length in hours, and the
 averaging the menu action performs before consulting it.
 */
module Recommendation {
  import opened Sessions
  import opened Statistics

  /** The character sheet, created once at start-up. */
  datatype Character = Character(name: string, level: int, gold: real, difficulty: Difficulty)

  /** A character as character creation accepts it. */
  predicate ValidCharacter(c: Character) {
    |c.name| > 0 && MinLevel <= c.level <= MaxLevel && c.gold >= 0.0
  }

  datatype Option<T> = None | Some(value: T)

  /** The recommendation table, tried top to bottom:
      below level 5 with sessions over four hours, Explorer;
      levels 5 to 8 with sessions of three hours or more, Balanced;
      above level 8 with sessions of five hours or more, Tactician;
      anything else, Balanced.
      Because the level ranges of the first three rows are disjoint, the order
      never matters, and the Balanced row only repeats the fallback. */
  function RecommendByStats(level: int, avgHours: real): (d: Difficulty)
    ensures d == Explorer <==> level < 5 && avgHours > 4.0
    ensures d == Tactician <==> level > 8 && avgHours >= 5.0
    ensures d == Balanced <==> !(level < 5 && avgHours > 4.0) && !(level > 8 && avgHours >= 5.0)
  {
    if level < 5 && avgHours > 4.0 then Explorer
    else if 5 <= level <= 8 && avgHours >= 3.0 then Balanced
    else if level > 8 && avgHours >= 5.0 then Tactician
    else Balanced
  }

  /** Longer sessions never take a player out of Explorer or Tactician. */
  lemma RecommendationStableInHours(level: int, a: real, b: real)
    requires a <= b
    requires RecommendByStats(level, a) != Balanced
    ensures RecommendByStats(level, b) == RecommendByStats(level, a)
  {
  }

  /** The program's own table tests, plus a fallback case. */
  lemma RecommendByStatsTestCases()
    ensures RecommendByStats(3, 5.0) == Explorer
    ensures RecommendByStats(6, 3.5) == Balanced
    ensures RecommendByStats(10, 6.0) == Tactician
    ensures RecommendByStats(10, 1.0) == Balanced
    ensures RecommendByStats(3, 4.0) == Balanced
  {
  }

  /** Average hours per session; there is none for an empty ledger. */
  function AverageHoursPerSession(s: seq<Session>): (avg: Option<real>)
    ensures avg.None? <==> |s| == 0
    ensures avg.Some? ==> avg.value * |s| as real == TotalHours(s)
  {
    if |s| == 0 then None else Some(TotalHours(s) / |s| as real)
  }

  /** The recommendation the menu action shows for a player; none when there
      are no sessions to average over. In the whole minutes the program sums,
      Explorer means a level below 5 with more than 240 minutes per session on
      average, and Tactician a level above 8 with at least 300. */
  function RecommendFor(player: Character, s: seq<Session>): (d: Option<Difficulty>)
    ensures d.None? <==> |s| == 0
    ensures |s| > 0 ==> (d == Some(Explorer) <==> player.level < 5 && TotalDuration(s) > 240 * |s|)
    ensures |s| > 0 ==> (d == Some(Tactician) <==> player.level > 8 && TotalDuration(s) >= 300 * |s|)
    ensures |s| > 0 ==> (d == Some(Balanced) <==>
      !(player.level < 5 && TotalDuration(s) > 240 * |s|) && !(player.level > 8 && TotalDuration(s) >= 300 * |s|))
  {
    match AverageHoursPerSession(s)
    case None => None
    case Some(avgHours) =>
      var n := |s| as real;
      var minutes := TotalDuration(s) as real;
      ScaledComparison(avgHours, n, TotalHours(s), 4.0);
      ScaledComparison(avgHours, n, TotalHours(s), 5.0);
      assert (240 * |s|) as real == 240.0 * n;
      assert (300 * |s|) as real == 300.0 * n;
      assert TotalHours(s) > 4.0 * n <==> minutes > 240.0 * n;
      assert TotalHours(s) >= 5.0 * n <==> minutes >= 300.0 * n;
      Some(RecommendByStats(player.level, avgHours))
  }

  /** With console-entered sessions every session lasts between a minute and
      ten hours, so the average handed to the table lies in that range too. */
  lemma AverageHoursBounds(s: seq<Session>)
    requires AllValid(s) && |s| > 0
    ensures 1.0 / 60.0 <= AverageHoursPerSession(s).value <= 10.0
  {
    TotalDurationBounds(s);
    var n := |s| as real;
    var hours := TotalHours(s);
    assert hours <= 10.0 * n by {
      assert TotalDuration(s) as real <= (MaxDuration * |s|) as real == 600.0 * n;
    }
    assert hours >= (1.0 / 60.0) * n by {
      assert TotalDuration(s) as real >= (MinDuration * |s|) as real == n;
    }
    QuotientBounds(hours, n, 1.0 / 60.0, 10.0);
  }
}
