/**
 * The conservative intent-memory guard: the first-seen time t0 of an intent
 * is written once and a later attempt to move it is refused, up to a
 * tolerance of 1e-12 seconds.
 */
module IntentRegistry {
  import opened Stats

  /** The tolerance within which a repeated t0 counts as the same. */
  const Tolerance: real := 0.000000000001

  /** Whether `set_first_seen(id, t0)` succeeds against the stored first-seen times. */
  predicate Accepts(stored: map<string, real>, id: string, t0: real) {
    id !in stored || Abs(stored[id] - t0) <= Tolerance
  }

  /** The stored times after `set_first_seen(id, t0)`: an accepted call stores t0 (overwriting). */
  function Recorded(stored: map<string, real>, id: string, t0: real): (s: map<string, real>)
    ensures Accepts(stored, id, t0) ==> s == stored[id := t0]
    ensures !Accepts(stored, id, t0) ==> s == stored
  {
    if Accepts(stored, id, t0) then stored[id := t0] else stored
  }

  /** The stored times after a run of calls, first call first. */
  function Replay(stored: map<string, real>, calls: seq<(string, real)>): map<string, real>
    decreases |calls|
  {
    if calls == [] then stored
    else Replay(Recorded(stored, calls[0].0, calls[0].1), calls[1..])
  }

  /**
   * The evidently intended guard: an accepted repeated call leaves the first
   * value in place, so t0 can never move.
   */
  function RecordedOnce(stored: map<string, real>, id: string, t0: real): (s: map<string, real>)
    ensures id in stored ==> s == stored
    ensures id !in stored ==> s == stored[id := t0]
  {
    if id in stored then stored else stored[id := t0]
  }

  function ReplayOnce(stored: map<string, real>, calls: seq<(string, real)>): map<string, real>
    decreases |calls|
  {
    if calls == [] then stored
    else ReplayOnce(RecordedOnce(stored, calls[0].0, calls[0].1), calls[1..])
  }

  class IntentMemoryGuard {
    var firstSeen: map<string, real>

    constructor()
      ensures firstSeen == map[]
    {
      firstSeen := map[];
    }

    /** `set_first_seen` as the guard writes it. */
    method SetFirstSeen(id: string, t0: real) returns (ok: bool)
      modifies this
      ensures ok == Accepts(old(firstSeen), id, t0)
      ensures firstSeen == Recorded(old(firstSeen), id, t0)
    {
      if id in firstSeen {
        if Abs(firstSeen[id] - t0) > Tolerance {
          return false;
        }
      }
      firstSeen := firstSeen[id := t0];
      return true;
    }

    /** `set_first_seen` keeping the first value once written. */
    method SetFirstSeenOnce(id: string, t0: real) returns (ok: bool)
      modifies this
      ensures ok == Accepts(old(firstSeen), id, t0)
      ensures firstSeen == RecordedOnce(old(firstSeen), id, t0)
    {
      ok := Accepts(firstSeen, id, t0);
      if id !in firstSeen {
        firstSeen := firstSeen[id := t0];
      }
    }
  }

  /** The first call for an intent always succeeds and records its t0. */
  lemma FirstCallRecords(stored: map<string, real>, id: string, t0: real)
    requires id !in stored
    ensures Accepts(stored, id, t0)
    ensures Recorded(stored, id, t0)[id] == t0 && RecordedOnce(stored, id, t0)[id] == t0
  {
  }

  /** Repeating the same t0 succeeds and changes nothing. */
  lemma RepeatIsIdempotent(stored: map<string, real>, id: string, t0: real)
    requires Accepts(stored, id, t0)
    ensures var s := Recorded(stored, id, t0); Accepts(s, id, t0) && Recorded(s, id, t0) == s
  {
  }

  /** Moving t0 backward or forward by more than the tolerance is refused and stores nothing. */
  lemma MoveIsRefused(stored: map<string, real>, id: string, delta: real)
    requires id in stored && Abs(delta) > Tolerance
    ensures !Accepts(stored, id, stored[id] + delta)
    ensures Recorded(stored, id, stored[id] + delta) == stored
  {
  }

  /** A call never touches the entries of the other intents. */
  lemma OtherIntentsUntouched(stored: map<string, real>, id: string, t0: real, other: string)
    requires other != id
    ensures other in Recorded(stored, id, t0) <==> other in stored
    ensures other in stored ==> Recorded(stored, id, t0)[other] == stored[other]
  {
  }

  /**
   * As written, accepted calls within the tolerance overwrite the stored
   * value, so three calls 0, 1e-12, 2e-12 all succeed and leave t0 at 2e-12,
   * a move the guard would have refused in one step.
   */
  lemma {:induction false} AsWrittenT0Drifts()
    ensures var calls := [("abc", 0.0), ("abc", Tolerance), ("abc", 2.0 * Tolerance)];
            var s := Replay(map[], calls);
            "abc" in s && s["abc"] == 2.0 * Tolerance
            && !Accepts(map["abc" := 0.0], "abc", 2.0 * Tolerance)
  {
    var calls := [("abc", 0.0), ("abc", Tolerance), ("abc", 2.0 * Tolerance)];
    var s1 := Recorded(map[], "abc", 0.0);
    assert s1 == map["abc" := 0.0];
    var s2 := Recorded(s1, "abc", Tolerance);
    assert s2 == map["abc" := Tolerance];
    var s3 := Recorded(s2, "abc", 2.0 * Tolerance);
    assert s3 == map["abc" := 2.0 * Tolerance];
    assert calls[1..][1..][1..] == [];
    assert Replay(map[], calls) == Replay(s1, calls[1..]) == Replay(s2, calls[1..][1..]) == s3;
  }

  /** With the corrected guard, no run of calls ever moves a recorded t0. */
  lemma {:induction false} RecordedOnceNeverMoves(stored: map<string, real>, calls: seq<(string, real)>, id: string)
    requires id in stored
    ensures id in ReplayOnce(stored, calls) && ReplayOnce(stored, calls)[id] == stored[id]
    decreases |calls|
  {
    if calls != [] {
      var next := RecordedOnce(stored, calls[0].0, calls[0].1);
      assert id in next && next[id] == stored[id];
      RecordedOnceNeverMoves(next, calls[1..], id);
    }
  }
}
