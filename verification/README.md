# Adventure tracker session ledger, in Dafny

This project models the bookkeeping core of a console tracker for Baldur's Gate 3
play sessions (`main.cpp`). A player records up to ten play sessions. Each
session has a location, a duration in minutes and a difficulty. A combat session
also records enemies defeated and loot. An exploration session also records
areas discovered and loot.

The code defines these statistics over the stored sessions:

- the total duration (`calculateTotalDuration`);
- the enemies defeated in combat sessions (`calculateTotalEnemies`);
- the average enemies per combat session (`calculateAverageEnemies`);
- the kill rate per hour (`calculateKillRate`);
- the longest session in hours (`findLongestSession`).

It also defines `calculateGoldPerHour`, which takes a gold amount and an hour
count rather than the sessions.

Only the duration total reaches the menu. The "recommend difficulty" action
averages it per session (main.cpp:487-488). The tracker class exposes it as
`getTotalHours` and the enemy total as `getTotalEnemies`. No menu action calls
`calculateAverageEnemies`, `calculateKillRate` or `calculateGoldPerHour`.
`findLongestSession` is called only by its unit test. The model covers them
all as the code defines them.

The program recommends a difficulty (Explorer, Balanced or Tactician) from the
character's level and the average session length.

Modules, one per concern of the program:

- `Sessions` (`sessions.dfy`) holds the constants, the `Difficulty` enumeration
  with its C++ enum codes, `Loot` and `Session`. The class hierarchy
  `PlaySession` / `CombatSession` / `ExplorationSession` becomes one datatype
  with variants `Plain`, `Combat` and `Exploration`. The base class is kept as
  `Plain` because it is concrete in C++, and the tracker can store an instance
  of it. Each `dynamic_cast<const CombatSession*>` filter becomes the
  discriminator `Combat?`. `ValidEntry` states the ranges the console input
  loops enforce.
- `Statistics` (`statistics.dfy`) holds recursive reference definitions of the
  sums, counts and maximum. Each C++ loop is a method proved equal to its
  reference definition. The derived rates are functions. The properties that
  relate them are lemmas. Every `double` result is an exact `real`.
- `Recommendation` (`recommendation.dfy`) holds the character sheet, the
  recommendation table and the averaging done by the "recommend difficulty"
  menu action.
- `Tracker` (`tracker.dfy`) holds `AdventureTracker`. It is a sequence whose
  length is bounded by the capacity in its type. It also holds the bounded
  append and the capacity guard of the interactive "add session" action.

Two of the statistics are narrower than their names suggest:

- Only combat sessions count toward the enemy total (main.cpp:563-570).
- The average enemy count divides by the number of combat sessions
  (main.cpp:519-520), not by the number of all sessions.

Durations are whole minutes. They are converted to hours only in
`getTotalHours`, `calculateKillRate`, `findLongestSession` and the
recommendation average.

`findLongestSession` returns the longest duration divided by 60, so the result
is in hours (`main.cpp:589`). The program's own test (`main.cpp:688-699`)
expects `90` for sessions of 20 and 90 minutes. The code returns `1.5` for that
input, as `Statistics.LongestSessionTestCase` shows. The source comment says
"hours", so the model keeps the code's hours. The test's expectation is the
outlier.

## Model

| member | source | states |
|---|---|---|
| Sessions.DifficultyCode | main.cpp:25-29 | Each difficulty has an enum code from 1 to 3. |
| Sessions.DifficultyFromChoice | main.cpp:331-332 | Casting a menu choice from 1 to 3 gives the difficulty whose enum code is that choice. |
| Sessions.DifficultyCodeRoundTrip | main.cpp:375-377 | Casting a difficulty's code back gives the same difficulty. |
| Statistics.ProfitableIffPositiveGoldRate | main.cpp:95-97 | For positive play time, loot is profitable exactly when its gold gives a positive gold-per-hour rate, which means exactly when it earned more than zero gold. |
| Statistics.LongestMinutes | main.cpp:581-587 | The first-maximum scan returns a duration that some session has and that no session exceeds. |
| Statistics.AverageEnemies | main.cpp:503-521 | The result is 0 when there are no combat sessions. Otherwise the result times the number of combat sessions equals the combat enemy total. |
| Statistics.KillRate | main.cpp:525-531 | The result is 0 when the total minutes are 0. Otherwise the result times the total minutes equals 60 times the enemy total. |
| Statistics.LongestSessionHours | main.cpp:578-590 | The result is 0 for no sessions. Otherwise it is some session's duration in hours, and no session's duration in hours is larger. |
| Statistics.GoldPerHour | main.cpp:536-541 | The result is never negative. It is 0 when the hours are not positive or the gold is negative. Otherwise the result times the hours equals the gold. |
| Statistics.CalculateTotalDuration | main.cpp:470-476 | The loop computes the sum of all session durations. |
| Statistics.CalculateTotalEnemies | main.cpp:560-573 | The loop computes the sum of enemies over combat sessions only. |
| Statistics.CalculateAverageEnemies | main.cpp:503-521 | The single pass that sums enemies and counts combat sessions computes the average defined above. |
| Statistics.FindLongestSession | main.cpp:578-590 | The loop computes the longest duration in hours as characterised above. |
| Statistics.TotalDurationConcat | main.cpp:471-473 | The duration total is additive over concatenated ledgers. The empty ledger totals 0. |
| Statistics.CombatTotalsConcat | main.cpp:563-570 | The enemy total and the combat count are additive over concatenated ledgers. |
| Statistics.NonCombatContributesNothing | main.cpp:564-569 | Inserting an exploration or plain session anywhere changes neither the enemy total nor the combat count. |
| Statistics.AverageIgnoresNonCombat | main.cpp:513-520 | Inserting a non-combat session anywhere leaves the average unchanged, so the divisor is the combat count. |
| Statistics.TotalDurationBounds | main.cpp:372 | When every duration is from 1 to 600 minutes, the total is from the session count to 600 times that count. |
| Statistics.TotalEnemiesBounds | main.cpp:384 | When the sessions were entered at the console, the combat count is at most the session count. The enemy total is from 0 to 1000 times the combat count. |
| Statistics.SumsFitInInt32 | main.cpp:17-20 | With at most 10 console-entered sessions, the duration total is at most 6000 and the enemy total at most 10000. Neither `int` accumulation can wrap. |
| Statistics.AverageEnemiesBounds | main.cpp:503-521 | When the sessions were entered at the console, the average enemy count is from 0 to 1000. |
| Statistics.KillRateIsEnemiesPerHour | main.cpp:526-530 | When the sessions were entered at the console, the total minutes are 0 exactly when the ledger is empty. Otherwise the kill rate is the enemy total divided by the total hours. |
| Statistics.ProfitableTestCase | main.cpp:639-645 | Loot with 0 gold is not profitable. Loot with 25 gold is profitable. |
| Statistics.TotalEnemiesTestCase | main.cpp:673-686 | Combat 5, exploration, combat 7 gives 12. |
| Statistics.LongestSessionTestCase | main.cpp:688-699 | Sessions of 20 and 90 minutes give 1.5 hours, not the 90 the test expects. |
| Recommendation.RecommendByStats | main.cpp:544-557 | Explorer exactly when level < 5 and average > 4. Tactician exactly when level > 8 and average >= 5. Balanced in every other case, so the 5..8 row only repeats the fallback. |
| Recommendation.RecommendationStableInHours | main.cpp:545-553 | For a fixed level, a longer average never moves a recommendation away from Explorer or Tactician. |
| Recommendation.RecommendByStatsTestCases | main.cpp:704-708 | The inputs (3, 5.0), (6, 3.5) and (10, 6.0) give Explorer, Balanced and Tactician. The fallback cases (10, 1.0) and (3, 4.0) give Balanced. |
| Recommendation.AverageHoursPerSession | main.cpp:487-488 | There is no average for no sessions. Otherwise the average times the session count equals the total hours. |
| Recommendation.RecommendFor | main.cpp:481-490 | There is no recommendation exactly when there are no sessions. Otherwise, in the whole minutes the program sums, Explorer means level < 5 and more than 240 minutes per session on average. Tactician means level > 8 and at least 300 minutes per session. Balanced means everything else. |
| Recommendation.AverageHoursBounds | main.cpp:372 | When the sessions were entered at the console, the average handed to the table is from 1/60 to 10 hours. |
| Tracker.NewTracker | main.cpp:183-185 | A new tracker holds no sessions. |
| Tracker.SessionCount | main.cpp:196-198 | The count never exceeds the capacity of 10. |
| Tracker.AddSession | main.cpp:188-192 | The append succeeds exactly when the count is below capacity. On success the count grows by one and the session sits at the old count's index. On failure the tracker is unchanged. Earlier entries never change. |
| Tracker.RecordSession | main.cpp:360-392 | When the array is full, the interactive add stores nothing. Otherwise it stores the entry in the next slot. The result stays within capacity and keeps earlier entries. It stores only console-valid sessions. |
| Tracker.RecordSessionIsAddSession | main.cpp:361-363 | The interactive add and the tracker's append use the same guard and store into the same slot. |
| Tracker.GetTotalHours | main.cpp:201-203 | The hours times 60 give the minute total of the stored sessions. For console-entered sessions the hours are from 1/60 to 10 per stored session. |
| Tracker.GetTotalEnemies | main.cpp:207-209 | For console-entered sessions the enemy total is from 0 to 1000 times the number of combat sessions, and at most 10000. |
| Tracker.TotalsAfterAdd | main.cpp:201-209 | A stored session adds its hours to `getTotalHours` and its enemies, if it is a combat session, to `getTotalEnemies`. A rejected session changes neither. |
| Tracker.AddAll | main.cpp:188-192 | Offering sessions one by one gives one success flag per session. This is only the vehicle for `AddAllStoresPrefix`, which states what gets stored. |
| Tracker.AddAllStoresPrefix | main.cpp:189-190 | Offering a run of sessions stores exactly the leading ones that fit, in order. Each call reports success exactly when a slot was free. |
| Tracker.FillThenOverflow | main.cpp:189 | Ten sessions offered to a new tracker are all accepted, and the count is 10. An eleventh is rejected, and the tracker is unchanged. |
| Tracker.AddSessionTestCase | main.cpp:713-724 | A new tracker accepts a combat session and then counts one session. |

## Left out

- Console input: `getValidString`, `getValidInt` and `getValidDouble` read from
  standard input in retry loops. Only their output ranges are kept, as
  `ValidEntry`, `ValidLoot` and `ValidCharacter`.
- Interactive flows: `createCharacter`, the prompts of the free function
  `addSession` and the `main` menu loop are console-driven.
  `Tracker.RecordSession` keeps the capacity guard and the slot the
  interactive add fills.
- Printing: `displayBanner`, `displayMenu`, `displayCharacterSummary`,
  `displaySessions`, the `print` methods and the messages printed by
  `recommendDifficulty` produce output text only.
- File output: `saveReport` writes `report.txt`.
- Memory handling: raw pointers, `new`/`delete` and `dynamic_cast` are replaced
  by immutable values and pattern matching. Null pointers and deleted sessions
  have no counterpart.
- Floating point: `double` rounding is not modelled. Every division and
  threshold comparison is over exact `real`s.
- Plain getters, setters and constructors are the datatype's fields and
  constructors. The default `PlaySession()` is the constant
  `Sessions.DefaultSession`.
- The unit-test harness itself is not modelled. Its cases are restated as the
  `...TestCase` lemmas.
- Statistics.CalculateTotalDuration: does not model 32-bit `int` wrap-around.
  The sum is an unbounded integer. `AdventureTracker::addSession` accepts any
  session, so for arbitrary durations the C++ sum can overflow. For at most
  ten console-entered sessions, `Statistics.SumsFitInInt32` shows that it
  cannot.
- Statistics.CalculateTotalEnemies: does not model 32-bit `int` wrap-around,
  for the same reason. `Statistics.SumsFitInInt32` covers console-entered
  sessions.
- Statistics.CalculateAverageEnemies: does not model 32-bit `int` wrap-around
  of the enemy sum or of the combat count. `Statistics.SumsFitInInt32` covers
  console-entered sessions.
- Statistics.KillRate: does not model 32-bit `int` wrap-around of
  `totalMinutes` or `totalEnemies`. `Statistics.SumsFitInInt32` covers
  console-entered sessions.
- Recommendation.AverageHoursPerSession: does not model 32-bit `int`
  wrap-around of `totalMinutes`. `Statistics.SumsFitInInt32` covers
  console-entered sessions.
