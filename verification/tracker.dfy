/**
 The adventure tracker: a fixed-capacity array of sessions with a counter,
 filled by a bounded append that reports whether the session was stored.

 The array and its counter are one sequence here; the counter is its length,
 and the capacity is part of the type, so no tracker can hold more than
 `MaxSessions` sessions.
 */
module Tracker {
  import opened Sessions
  import opened Statistics

  datatype TrackerState = TrackerState(sessions: seq<Session>)

  /** A tracker never holds more sessions than the array has slots. */
  type AdventureTracker = t: TrackerState | |t.sessions| <= MaxSessions
    witness TrackerState([])

  /** A freshly constructed tracker holds no sessions. */
  function NewTracker(): (t: AdventureTracker)
    ensures |t.sessions| == 0
  {
    TrackerState([])
  }

  /** Number of sessions stored so far. */
  function SessionCount(t: AdventureTracker): (n: nat)
    ensures n <= MaxSessions
  {
    |t.sessions|
  }

  /** Stores `s` in the next free slot when there is one and reports whether
      it did. A full tracker is returned unchanged. Sessions already stored
      keep their slots either way. */
  function AddSession(t: AdventureTracker, s: Session): (r: (AdventureTracker, bool))
    ensures r.1 <==> SessionCount(t) < MaxSessions
    ensures r.1 ==> SessionCount(r.0) == SessionCount(t) + 1 && r.0.sessions[SessionCount(t)] == s
    ensures !r.1 ==> r.0 == t
    ensures SessionCount(t) <= SessionCount(r.0)
    ensures forall i :: 0 <= i < SessionCount(t) ==> r.0.sessions[i] == t.sessions[i]
  {
    if |t.sessions| >= MaxSessions then (t, false)
    else (TrackerState(t.sessions + [s]), true)
  }

  /** The menu's "add session" action on the program's own array: with the
      array full nothing is stored; otherwise the console-entered session goes
      into the next slot. Both outcomes keep every stored session one the
      console could have produced, and the array within its capacity. */
  function RecordSession(sessions: seq<Session>, entry: Session): (r: seq<Session>)
    requires |sessions| <= MaxSessions
    requires ValidEntry(entry)
    ensures |r| <= MaxSessions
    ensures |sessions| == MaxSessions ==> r == sessions
    ensures |sessions| < MaxSessions ==> |r| == |sessions| + 1 && r[|sessions|] == entry
    ensures r[..|sessions|] == sessions
    ensures AllValid(sessions) ==> AllValid(r)
  {
    if |sessions| >= MaxSessions then sessions else sessions + [entry]
  }

  /** The menu action and the tracker's append agree: the same guard, the
      same slot. */
  lemma RecordSessionIsAddSession(t: AdventureTracker, entry: Session)
    requires ValidEntry(entry)
    ensures RecordSession(t.sessions, entry) == AddSession(t, entry).0.sessions
  {
  }

  /** Total play time in hours over the stored sessions: sixty of them make
      up each minute of the duration total. With console-entered sessions it
      lies between one minute and ten hours per stored session. */
  function GetTotalHours(t: AdventureTracker): (hours: real)
    ensures hours * 60.0 == TotalDuration(t.sessions) as real
    ensures AllValid(t.sessions) ==>
      SessionCount(t) as real / 60.0 <= hours <= 10.0 * SessionCount(t) as real
  {
    assert AllValid(t.sessions) ==>
      SessionCount(t) <= TotalDuration(t.sessions) <= MaxDuration * SessionCount(t) by {
      if AllValid(t.sessions) {
        TotalDurationBounds(t.sessions);
      }
    }
    TotalHours(t.sessions)
  }

  /** Enemies defeated over the stored combat sessions. With console-entered
      sessions it is never negative and at most the enemy cap per combat
      session, so never more than 10000. */
  function GetTotalEnemies(t: AdventureTracker): (enemies: int)
    ensures AllValid(t.sessions) ==>
      0 <= enemies <= MaxEnemies * CombatCount(t.sessions) <= MaxEnemies * MaxSessions
  {
    assert AllValid(t.sessions) ==>
      0 <= TotalEnemies(t.sessions) <= MaxEnemies * CombatCount(t.sessions) <= MaxEnemies * MaxSessions by {
      if AllValid(t.sessions) {
        TotalEnemiesBounds(t.sessions);
      }
    }
    TotalEnemies(t.sessions)
  }

  /** A stored session adds its duration in hours to the tracker's total and
      its enemies, if it is a combat session, to the enemy total; a rejected
      one changes neither. */
  lemma TotalsAfterAdd(t: AdventureTracker, s: Session)
    ensures var (t', added) := AddSession(t, s);
      && (added ==> GetTotalHours(t') == GetTotalHours(t) + s.durationMinutes as real / 60.0)
      && (added ==> GetTotalEnemies(t') == GetTotalEnemies(t) + EnemiesOf(s))
      && (!added ==> GetTotalHours(t') == GetTotalHours(t) && GetTotalEnemies(t') == GetTotalEnemies(t))
  {
    var (t', added) := AddSession(t, s);
    if added {
      assert t'.sessions[..|t'.sessions| - 1] == t.sessions;
    }
  }

  /** Offers each session of `xs` in turn, returning the final tracker and
      what each call reported. */
  function AddAll(t: AdventureTracker, xs: seq<Session>): (r: (AdventureTracker, seq<bool>))
    ensures |r.1| == |xs|
    decreases |xs|
  {
    if |xs| == 0 then (t, [])
    else
      var (t1, added) := AddSession(t, xs[0]);
      var (t2, rest) := AddAll(t1, xs[1..]);
      (t2, [added] + rest)
  }

  function Min(a: int, b: int): int {
    if a <= b then a else b
  }

  /** Offering a run of sessions stores exactly those that still find a free
      slot, in order, and a call reports success exactly when a slot was
      free for it. */
  lemma {:induction false} AddAllStoresPrefix(t: AdventureTracker, xs: seq<Session>)
    ensures var (t', added) := AddAll(t, xs);
      && t'.sessions == (t.sessions + xs)[..Min(|t.sessions| + |xs|, MaxSessions)]
      && forall i :: 0 <= i < |xs| ==> (added[i] <==> SessionCount(t) + i < MaxSessions)
    decreases |xs|
  {
    if |xs| > 0 {
      var (t1, ok) := AddSession(t, xs[0]);
      AddAllStoresPrefix(t1, xs[1..]);
      var (t2, rest) := AddAll(t1, xs[1..]);
      if ok {
        assert t1.sessions + xs[1..] == t.sessions + xs;
      } else {
        assert |t.sessions| == MaxSessions;
        assert t2.sessions == t.sessions;
        assert (t.sessions + xs)[..MaxSessions] == t.sessions;
      }
      var added := [ok] + rest;
      forall i | 0 <= i < |xs|
        ensures added[i] <==> SessionCount(t) + i < MaxSessions
      {
        if i > 0 {
          assert added[i] == rest[i - 1];
        }
      }
    } else {
      assert t.sessions + xs == t.sessions;
    }
  }

  /** Filling a new tracker: up to the capacity every session is accepted and
      the count is the number offered; once full, a further session is
      rejected and the tracker keeps what it had. */
  lemma FillThenOverflow(xs: seq<Session>, extra: Session)
    requires |xs| == MaxSessions
    ensures var (t, added) := AddAll(NewTracker(), xs);
      && t.sessions == xs
      && SessionCount(t) == MaxSessions
      && (forall i :: 0 <= i < |xs| ==> added[i])
      && AddSession(t, extra) == (t, false)
  {
    AddAllStoresPrefix(NewTracker(), xs);
    assert [] + xs == xs;
  }

  /** The program's own tracker test: one combat session is accepted by a new
      tracker, which then counts one session. */
  lemma AddSessionTestCase()
    ensures var (t, added) := AddSession(NewTracker(), Combat("Camp", 30, Balanced, 4, Loot(10, false)));
      added && SessionCount(t) == 1
  {
  }
}
