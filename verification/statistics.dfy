/**
 The aggregate statistics the program defines over its sessions: total
 duration, total enemies (combat sessions only), average enemies per combat
 session, kill rate, longest session and gold per hour.

 Each C++ loop is a method here whose postcondition ties it to a recursive
 reference definition. The reference definitions read the ledger from the
 front, so the definition of a prefix one longer is the old value plus the
 contribution of the next session, just as the loops accumulate. Results the
 C++ code computes in `double` are exact `real`s here.
 */
module Statistics {
  import opened Sessions

  // ---------------------------------------------------------------------------
  // Reference definitions

  /** Sum of the durations, in minutes, of all sessions. */
  function TotalDuration(s: seq<Session>): int
  {
    if |s| == 0 then 0 else TotalDuration(s[..|s| - 1]) + s[|s| - 1].durationMinutes
  }

  /** What one session adds to the enemy total: its count if it is a combat
      session, nothing otherwise. */
  function EnemiesOf(x: Session): int
  {
    if x.Combat? then x.enemiesDefeated else 0
  }

  /** Sum of the enemies defeated over the combat sessions. */
  function TotalEnemies(s: seq<Session>): int
  {
    if |s| == 0 then 0 else TotalEnemies(s[..|s| - 1]) + EnemiesOf(s[|s| - 1])
  }

  /** Number of combat sessions. */
  function CombatCount(s: seq<Session>): nat
  {
    if |s| == 0 then 0 else CombatCount(s[..|s| - 1]) + (if s[|s| - 1].Combat? then 1 else 0)
  }

  /** Total duration converted to hours. */
  function TotalHours(s: seq<Session>): real
  {
    TotalDuration(s) as real / 60.0
  }

  /** Duration of the first longest session, scanning from the front and
      replacing the current maximum only on a strictly longer session. */
  function LongestMinutes(s: seq<Session>): (m: int)
    requires |s| > 0
    ensures exists i :: 0 <= i < |s| && s[i].durationMinutes == m
    ensures forall i :: 0 <= i < |s| ==> s[i].durationMinutes <= m
  {
    if |s| == 1 then s[0].durationMinutes
    else
      var prev := LongestMinutes(s[..|s| - 1]);
      assert forall i :: 0 <= i < |s| - 1 ==> s[..|s| - 1][i] == s[i];
      if s[|s| - 1].durationMinutes > prev then s[|s| - 1].durationMinutes else prev
  }

  // ---------------------------------------------------------------------------
  // Derived statistics

  /** Average enemies per combat session; zero for an empty ledger or one
      without combat sessions. Exploration and plain sessions do not enter the
      denominator. */
  function AverageEnemies(s: seq<Session>): (avg: real)
    ensures CombatCount(s) == 0 ==> avg == 0.0
    ensures CombatCount(s) > 0 ==> avg * CombatCount(s) as real == TotalEnemies(s) as real
  {
    if |s| == 0 then 0.0
    else if CombatCount(s) == 0 then 0.0
    else TotalEnemies(s) as real / CombatCount(s) as real
  }

  /** Enemies defeated per hour played; zero when no time was played. */
  function KillRate(s: seq<Session>): (rate: real)
    ensures TotalDuration(s) == 0 ==> rate == 0.0
    ensures TotalDuration(s) != 0 ==> rate * TotalDuration(s) as real == 60.0 * TotalEnemies(s) as real
  {
    var totalMinutes := TotalDuration(s);
    if totalMinutes == 0 then 0.0
    else TotalEnemies(s) as real / (totalMinutes as real / 60.0)
  }

  /** Longest session in hours; zero for an empty ledger. */
  function LongestSessionHours(s: seq<Session>): (hours: real)
    ensures |s| == 0 ==> hours == 0.0
    ensures |s| > 0 ==> exists i :: 0 <= i < |s| && hours == s[i].durationMinutes as real / 60.0
    ensures forall i :: 0 <= i < |s| ==> s[i].durationMinutes as real / 60.0 <= hours
  {
    if |s| == 0 then 0.0 else LongestMinutes(s) as real / 60.0
  }

  /** Gold earned per hour; zero when no time was played or the gold is
      negative, otherwise never negative and exactly gold spread over the
      hours. */
  function GoldPerHour(gold: real, totalHours: real): (rate: real)
    ensures rate >= 0.0
    ensures totalHours <= 0.0 || gold < 0.0 ==> rate == 0.0
    ensures totalHours > 0.0 && gold >= 0.0 ==> rate * totalHours == gold
  {
    if totalHours <= 0.0 then 0.0
    else if gold < 0.0 then 0.0
    else gold / totalHours
  }

  // ---------------------------------------------------------------------------
  // The C++ loops

  /** `calculateTotalDuration`: adds up the durations front to back. */
  method CalculateTotalDuration(s: seq<Session>) returns (total: int)
    ensures total == TotalDuration(s)
  {
    total := 0;
    var i := 0;
    while i < |s|
      invariant 0 <= i <= |s|
      invariant total == TotalDuration(s[..i])
    {
      assert s[..i + 1][..i] == s[..i];
      total := total + s[i].durationMinutes;
      i := i + 1;
    }
    assert s[..|s|] == s;
  }

  /** `calculateTotalEnemies`: adds up the enemies of the combat sessions. */
  method CalculateTotalEnemies(s: seq<Session>) returns (total: int)
    ensures total == TotalEnemies(s)
  {
    total := 0;
    var i := 0;
    while i < |s|
      invariant 0 <= i <= |s|
      invariant total == TotalEnemies(s[..i])
    {
      assert s[..i + 1][..i] == s[..i];
      match s[i] {
        case Combat(_, _, _, enemies, _) =>
          total := total + enemies;
        case _ =>
      }
      i := i + 1;
    }
    assert s[..|s|] == s;
  }

  /** `calculateAverageEnemies`: one pass that counts combat sessions and sums
      their enemies, then divides by the combat count. */
  method CalculateAverageEnemies(s: seq<Session>) returns (avg: real)
    ensures avg == AverageEnemies(s)
  {
    if |s| == 0 {
      return 0.0;
    }
    var totalEnemies := 0;
    var combatCount := 0;
    var i := 0;
    while i < |s|
      invariant 0 <= i <= |s|
      invariant totalEnemies == TotalEnemies(s[..i])
      invariant combatCount == CombatCount(s[..i])
    {
      assert s[..i + 1][..i] == s[..i];
      if s[i].Combat? {
        totalEnemies := totalEnemies + s[i].enemiesDefeated;
        combatCount := combatCount + 1;
      }
      i := i + 1;
    }
    assert s[..|s|] == s;
    if combatCount == 0 {
      return 0.0;
    }
    avg := totalEnemies as real / combatCount as real;
  }

  /** `findLongestSession`: keeps the first maximum and converts it to hours. */
  method FindLongestSession(s: seq<Session>) returns (hours: real)
    ensures hours == LongestSessionHours(s)
  {
    if |s| == 0 {
      return 0.0;
    }
    var longest := s[0].durationMinutes;
    var i := 1;
    while i < |s|
      invariant 1 <= i <= |s|
      invariant longest == LongestMinutes(s[..i])
    {
      assert s[..i + 1][..i] == s[..i];
      if s[i].durationMinutes > longest {
        longest := s[i].durationMinutes;
      }
      i := i + 1;
    }
    assert s[..|s|] == s;
    hours := longest as real / 60.0;
  }

  // ---------------------------------------------------------------------------
  // Properties

  /** The duration total of two ledgers laid end to end is the sum of their
      totals; the empty ledger totals zero. */
  lemma {:induction false} TotalDurationConcat(a: seq<Session>, b: seq<Session>)
    ensures TotalDuration(a + b) == TotalDuration(a) + TotalDuration(b)
    decreases |b|
  {
    if |b| > 0 {
      var b' := b[..|b| - 1];
      assert (a + b)[..|a + b| - 1] == a + b';
      TotalDurationConcat(a, b');
    } else {
      assert a + b == a;
    }
  }

  /** The enemy total and the combat count are additive over concatenation. */
  lemma {:induction false} CombatTotalsConcat(a: seq<Session>, b: seq<Session>)
    ensures TotalEnemies(a + b) == TotalEnemies(a) + TotalEnemies(b)
    ensures CombatCount(a + b) == CombatCount(a) + CombatCount(b)
    decreases |b|
  {
    if |b| > 0 {
      var b' := b[..|b| - 1];
      assert (a + b)[..|a + b| - 1] == a + b';
      CombatTotalsConcat(a, b');
    } else {
      assert a + b == a;
    }
  }

  /** Inserting a session that is not a combat session anywhere in a ledger
      changes neither the enemy total nor the number of combat sessions. */
  lemma NonCombatContributesNothing(a: seq<Session>, x: Session, b: seq<Session>)
    requires !x.Combat?
    ensures TotalEnemies(a + [x] + b) == TotalEnemies(a + b)
    ensures CombatCount(a + [x] + b) == CombatCount(a + b)
  {
    CombatTotalsConcat(a + [x], b);
    CombatTotalsConcat(a, [x]);
    CombatTotalsConcat(a, b);
    assert [x][..0] == [];
  }

  /** The average divides by the combat sessions only: inserting an
      exploration or plain session anywhere leaves it unchanged. */
  lemma AverageIgnoresNonCombat(a: seq<Session>, x: Session, b: seq<Session>)
    requires !x.Combat?
    ensures AverageEnemies(a + [x] + b) == AverageEnemies(a + b)
  {
    NonCombatContributesNothing(a, x, b);
  }

  /** With sessions as the console enters them, every session lasts at least
      a minute and at most ten hours, so the total lies between the two. */
  lemma {:induction false} TotalDurationBounds(s: seq<Session>)
    requires AllValid(s)
    ensures MinDuration * |s| <= TotalDuration(s) <= MaxDuration * |s|
  {
    if |s| > 0 {
      var s' := s[..|s| - 1];
      assert AllValid(s') by {
        forall i | 0 <= i < |s'| ensures ValidEntry(s'[i]) {
          assert s'[i] == s[i];
        }
      }
      TotalDurationBounds(s');
      assert ValidEntry(s[|s| - 1]);
    }
  }

  /** With sessions as the console enters them, no more combat sessions than
      sessions are counted, and each contributes between zero and the enemy
      cap. */
  lemma {:induction false} TotalEnemiesBounds(s: seq<Session>)
    requires AllValid(s)
    ensures CombatCount(s) <= |s|
    ensures 0 <= TotalEnemies(s) <= MaxEnemies * CombatCount(s)
  {
    if |s| > 0 {
      var s' := s[..|s| - 1];
      assert AllValid(s') by {
        forall i | 0 <= i < |s'| ensures ValidEntry(s'[i]) {
          assert s'[i] == s[i];
        }
      }
      TotalEnemiesBounds(s');
      assert ValidEntry(s[|s| - 1]);
    }
  }

  /** The C++ totals are 32-bit `int`s. For a full array of console-entered
      sessions they stay far below 2^31 - 1, so the accumulations never wrap
      and the unbounded sums here are exactly what the program computes. */
  lemma SumsFitInInt32(s: seq<Session>)
    requires AllValid(s) && |s| <= MaxSessions
    ensures 0 <= TotalDuration(s) <= MaxDuration * MaxSessions < 0x7fff_ffff
    ensures 0 <= TotalEnemies(s) <= MaxEnemies * MaxSessions < 0x7fff_ffff
  {
    TotalDurationBounds(s);
    TotalEnemiesBounds(s);
  }

  /** Dividing by a positive count keeps a value between per-item bounds. */
  lemma QuotientBounds(x: real, n: real, lo: real, hi: real)
    requires n > 0.0 && lo * n <= x <= hi * n
    ensures lo <= x / n <= hi
  {
    var q := x / n;
    assert hi - q == (hi * n - x) / n;
    assert q - lo == (x - lo * n) / n;
  }

  /** Comparing a quotient with a threshold is comparing the total with the
      threshold scaled by the count. */
  lemma ScaledComparison(q: real, n: real, total: real, k: real)
    requires n > 0.0 && q * n == total
    ensures q > k <==> total > k * n
    ensures q >= k <==> total >= k * n
  {
    assert total - k * n == (q - k) * n;
  }

  /** With console-entered sessions the average enemy count is at most the
      per-session cap. */
  lemma AverageEnemiesBounds(s: seq<Session>)
    requires AllValid(s)
    ensures 0.0 <= AverageEnemies(s) <= MaxEnemies as real
  {
    TotalEnemiesBounds(s);
    if CombatCount(s) > 0 {
      var n := CombatCount(s) as real;
      assert TotalEnemies(s) as real <= (MaxEnemies * CombatCount(s)) as real == MaxEnemies as real * n;
      QuotientBounds(TotalEnemies(s) as real, n, 0.0, MaxEnemies as real);
    }
  }

  /** With console-entered sessions the kill rate falls back to zero exactly
      for the empty ledger; otherwise it is the enemy total per hour played. */
  lemma KillRateIsEnemiesPerHour(s: seq<Session>)
    requires AllValid(s)
    ensures TotalDuration(s) == 0 <==> |s| == 0
    ensures |s| > 0 ==> TotalHours(s) > 0.0 && KillRate(s) == TotalEnemies(s) as real / TotalHours(s)
  {
    TotalDurationBounds(s);
  }

  /** For any positive play time, a loot record is profitable exactly when its
      gold yields a positive rate per hour. */
  lemma ProfitableIffPositiveGoldRate(l: Loot, totalHours: real)
    requires totalHours > 0.0
    ensures l.IsProfitable() <==> GoldPerHour(l.goldEarned as real, totalHours) > 0.0
  {
    var rate := GoldPerHour(l.goldEarned as real, totalHours);
    if l.goldEarned > 0 {
      assert rate * totalHours == l.goldEarned as real;
    }
  }

  // ---------------------------------------------------------------------------
  // The program's own test cases

  /** Loot with no gold is not profitable; loot with 25 gold is. */
  lemma ProfitableTestCase()
    ensures !Loot(0, false).IsProfitable()
    ensures Loot(25, false).IsProfitable()
  {
  }

  /** Combat with 5 enemies, an exploration, and combat with 7 enemies make
      12; the exploration session's areas are not counted. */
  lemma TotalEnemiesTestCase()
    ensures TotalEnemies([
      Combat("Camp", 30, Balanced, 5, Loot(10, false)),
      Exploration("Cave", 40, Balanced, 2, Loot(10, false)),
      Combat("Tower", 50, Tactician, 7, Loot(10, false))]) == 12
  {
    var s := [
      Combat("Camp", 30, Balanced, 5, Loot(10, false)),
      Exploration("Cave", 40, Balanced, 2, Loot(10, false)),
      Combat("Tower", 50, Tactician, 7, Loot(10, false))];
    assert s[..2][..1] == s[..1] == [s[0]];
    assert TotalEnemies(s[..1]) == 5;
    assert TotalEnemies(s[..2]) == 5;
  }

  /** Sessions of 20 and 90 minutes: the code returns the longest in hours,
      1.5, not the 90 the program's own test expects. */
  lemma LongestSessionTestCase()
    ensures var s := [
      Combat("Camp", 20, Explorer, 3, Loot(0, false)),
      Exploration("Forest", 90, Balanced, 5, Loot(0, false))];
      LongestSessionHours(s) == 1.5 && LongestSessionHours(s) != 90.0
  {
    var s := [
      Combat("Camp", 20, Explorer, 3, Loot(0, false)),
      Exploration("Forest", 90, Balanced, 5, Loot(0, false))];
    assert s[..1] == [s[0]];
    assert LongestMinutes(s[..1]) == 20;
  }
}
