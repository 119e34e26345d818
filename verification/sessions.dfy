/**
 The records of the adventure tracker: the difficulty enumeration, the loot
 attached to a session, and the play sessions themselves.

 The C++ program has a base class `PlaySession` with two derived classes,
 `CombatSession` and `ExplorationSession`, told apart at run time with
 `dynamic_cast`. Here the hierarchy is one tagged datatype: `Plain` is an
 instance of the base class itself, the other two are the derived classes, and
 "is this a combat session?" is the discriminator `Combat?`.
 */
module Sessions {

  /** Capacity of the session array. */
  const MaxSessions: nat := 10
  /** Character level bounds accepted at character creation. */
  const MinLevel: int := 1
  const MaxLevel: int := 12
  /** Largest enemy count the console accepts for one combat session. */
  const MaxEnemies: int := 1000
  /** Duration bounds, in minutes, the console accepts for one session. */
  const MinDuration: int := 1
  const MaxDuration: int := 600
  /** Largest gold amount the console accepts for one session's loot. */
  const MaxLootGold: int := 100000
  /** Largest number of areas the console accepts for one exploration session. */
  const MaxAreas: int := 100

  /** The recommended play style; the C++ enum numbers them from 1. */
  datatype Difficulty = Explorer | Balanced | Tactician

  /** The integer the C++ enum assigns to each difficulty. */
  function DifficultyCode(d: Difficulty): (code: int)
    ensures 1 <= code <= 3
  {
    match d
    case Explorer => 1
    case Balanced => 2
    case Tactician => 3
  }

  /** `static_cast<Difficulty>(choice)` for a menu choice the console has
      already restricted to 1..3. */
  function DifficultyFromChoice(choice: int): (d: Difficulty)
    requires 1 <= choice <= 3
    ensures DifficultyCode(d) == choice
  {
    if choice == 1 then Explorer else if choice == 2 then Balanced else Tactician
  }

  /** Every difficulty survives the trip through its enum code. */
  lemma DifficultyCodeRoundTrip(d: Difficulty)
    ensures DifficultyFromChoice(DifficultyCode(d)) == d
  {
  }

  /** Loot recorded with a combat or exploration session. */
  datatype Loot = Loot(goldEarned: int, rareItemFound: bool) {
    /** A session pays off when it earned any gold at all. */
    predicate IsProfitable() {
      goldEarned > 0
    }
  }

  /** A play session. The three variants share location, duration in minutes
      and difficulty; combat adds an enemy count, exploration an area count,
      and both carry loot. */
  datatype Session =
    | Plain(location: string, durationMinutes: int, difficulty: Difficulty)
    | Combat(location: string, durationMinutes: int, difficulty: Difficulty,
             enemiesDefeated: int, loot: Loot)
    | Exploration(location: string, durationMinutes: int, difficulty: Difficulty,
                  areasDiscovered: int, loot: Loot)

  /** The session a default-constructed `PlaySession` holds. */
  const DefaultSession: Session := Plain("Unknown", 0, Explorer)

  /** What the console lets the user enter for a loot record. */
  predicate ValidLoot(l: Loot) {
    0 <= l.goldEarned <= MaxLootGold
  }

  /** A session the interactive entry can produce: a combat or exploration
      session with a non-empty location and every number inside the range the
      console enforces. */
  predicate ValidEntry(s: Session) {
    && |s.location| > 0
    && MinDuration <= s.durationMinutes <= MaxDuration
    && match s
       case Plain(_, _, _) => false
       case Combat(_, _, _, enemies, loot) => 0 <= enemies <= MaxEnemies && ValidLoot(loot)
       case Exploration(_, _, _, areas, loot) => 0 <= areas <= MaxAreas && ValidLoot(loot)
  }

  /** Every session of a ledger came from the interactive entry. */
  predicate AllValid(s: seq<Session>) {
    forall i :: 0 <= i < |s| ==> ValidEntry(s[i])
  }
}
