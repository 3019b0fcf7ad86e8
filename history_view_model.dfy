/**
 * The history view-model: the list of past parking sessions, newest first,
 * and the deletions it asks the repository for.
 *
 * The repository's session stream is not modelled; each emission (or its
 * failure) is delivered to a method. The repository's delete calls are
 * recorded, in order, in `deleteCalls`; whether one of them throws is a
 * parameter of the method that makes it.
 */
module History {
  import opened Wrappers

  /** A stored parking session; only the fields the view-model reads. */
  datatype ParkingSession = ParkingSession(id: string, startTime: int)

  datatype HistoryState = HistoryState(sessions: seq<ParkingSession>, isLoading: bool, error: Option<string>)

  const InitialHistoryState: HistoryState := HistoryState([], true, None)

  const LOAD_FAILED_PREFIX: string := "Failed to load history: "
  const DELETE_FAILED_PREFIX: string := "Failed to delete session: "
  const CLEAR_FAILED_PREFIX: string := "Failed to clear history: "

  /** The delete call at position `index` of a clear-all throws with `message`. */
  datatype DeleteFailure = DeleteFailure(index: nat, message: string)

  // ---------------------------------------------------------------------
  // `sortedByDescending { it.startTime }`: a stable sort, newest first.

  /**
   * Puts `x` in front of the first session that did not start later than
   * it; the result holds the sessions of `s` and `x`, nothing else.
   */
  function InsertByStartTime(x: ParkingSession, s: seq<ParkingSession>): (r: seq<ParkingSession>)
    ensures multiset(r) == multiset(s) + multiset{x}
  {
    if s == [] || s[0].startTime <= x.startTime then [x] + s
    else
      assert s == [s[0]] + s[1..];
      [s[0]] + InsertByStartTime(x, s[1..])
  }

  /** The emitted list sorted newest first; it is a permutation of the list. */
  function SortedByStartTimeDescending(s: seq<ParkingSession>): (r: seq<ParkingSession>)
    ensures multiset(r) == multiset(s)
  {
    if s == [] then []
    else
      assert s == [s[0]] + s[1..];
      InsertByStartTime(s[0], SortedByStartTimeDescending(s[1..]))
  }

  ghost predicate NewestFirst(s: seq<ParkingSession>)
  {
    forall i, j :: 0 <= i < j < |s| ==> s[i].startTime >= s[j].startTime
  }

  /** The sessions of `s` that started at time `t`, in their order in `s`. */
  function StartedAt(s: seq<ParkingSession>, t: int): (r: seq<ParkingSession>)
    ensures |r| <= |s|
    ensures forall i :: 0 <= i < |r| ==> r[i].startTime == t
  {
    if s == [] then []
    else if s[0].startTime == t then [s[0]] + StartedAt(s[1..], t)
    else StartedAt(s[1..], t)
  }

  lemma {:induction false} InsertKeepsNewestFirst(x: ParkingSession, s: seq<ParkingSession>)
    requires NewestFirst(s)
    ensures NewestFirst(InsertByStartTime(x, s))
  {
    if s != [] && s[0].startTime > x.startTime {
      InsertKeepsNewestFirst(x, s[1..]);
      var r := InsertByStartTime(x, s[1..]);
      forall j | 0 <= j < |r| ensures s[0].startTime >= r[j].startTime {
        assert r[j] in multiset(r);
        assert r[j] == x || r[j] in multiset(s[1..]);
        if r[j] != x {
          var k :| 0 <= k < |s[1..]| && s[1..][k] == r[j];
        }
      }
    }
  }

  /** Inserting `x` adds it in front of the sessions that started at the same time. */
  lemma {:induction false} InsertIsStable(x: ParkingSession, s: seq<ParkingSession>, t: int)
    ensures StartedAt(InsertByStartTime(x, s), t)
      == if x.startTime == t then [x] + StartedAt(s, t) else StartedAt(s, t)
  {
    if s == [] || s[0].startTime <= x.startTime {
      assert InsertByStartTime(x, s) == [x] + s;
      assert ([x] + s)[1..] == s;
    } else {
      InsertIsStable(x, s[1..], t);
      var r := InsertByStartTime(x, s[1..]);
      assert ([s[0]] + r)[1..] == r;
    }
  }

  /** The sorted list is newest first. */
  lemma {:induction false} SortIsNewestFirst(s: seq<ParkingSession>)
    ensures NewestFirst(SortedByStartTimeDescending(s))
  {
    if s != [] {
      SortIsNewestFirst(s[1..]);
      InsertKeepsNewestFirst(s[0], SortedByStartTimeDescending(s[1..]));
    }
  }

  /** Sessions with equal start times keep the order they were emitted in. */
  lemma {:induction false} SortIsStable(s: seq<ParkingSession>, t: int)
    ensures StartedAt(SortedByStartTimeDescending(s), t) == StartedAt(s, t)
  {
    if s != [] {
      SortIsStable(s[1..], t);
      InsertIsStable(s[0], SortedByStartTimeDescending(s[1..]), t);
    }
  }

  /** The ids of the sessions, in list order. */
  function SessionIds(s: seq<ParkingSession>): (ids: seq<string>)
    ensures |ids| == |s|
    ensures forall i :: 0 <= i < |s| ==> ids[i] == s[i].id
  {
    if s == [] then [] else [s[0].id] + SessionIds(s[1..])
  }

  /** How many delete calls a clear-all of `count` sessions issues when `failure` may stop it. */
  function DeleteCallsIssued(count: nat, failure: Option<DeleteFailure>): (calls: nat)
  {
    if failure.Some? && failure.value.index < count then failure.value.index + 1 else count
  }

  class HistoryViewModel {
    var state: HistoryState
    var deleteCalls: seq<string>

    /** The list on screen is always newest first. */
    ghost predicate Valid()
      reads this
    {
      NewestFirst(state.sessions)
    }

    /** The view-model starts empty and loading, with no error and nothing deleted. */
    constructor ()
      ensures Valid()
      ensures state == InitialHistoryState && deleteCalls == []
    {
      state := InitialHistoryState;
      deleteCalls := [];
    }

    /**
     * The repository emitted a list: it is shown newest first, loading ends
     * and any error is cleared.
     */
    method OnSessionsEmitted(sessions: seq<ParkingSession>)
      requires Valid()
      modifies this
      ensures Valid()
      ensures multiset(state.sessions) == multiset(sessions)
      ensures forall t :: StartedAt(state.sessions, t) == StartedAt(sessions, t)
      ensures state == HistoryState(SortedByStartTimeDescending(sessions), false, None)
      ensures deleteCalls == old(deleteCalls)
    {
      var sorted := SortedByStartTimeDescending(sessions);
      SortIsNewestFirst(sessions);
      forall t ensures StartedAt(sorted, t) == StartedAt(sessions, t) {
        SortIsStable(sessions, t);
      }
      state := state.(sessions := sorted, isLoading := false, error := None);
    }

    /** Loading the history failed: loading ends with an error, the list is kept. */
    method OnLoadFailed(message: string)
      requires Valid()
      modifies this
      ensures Valid()
      ensures state == old(state).(isLoading := false, error := Some(LOAD_FAILED_PREFIX + message))
      ensures deleteCalls == old(deleteCalls)
    {
      state := state.(isLoading := false, error := Some(LOAD_FAILED_PREFIX + message));
    }

    /**
     * `deleteSession`: one delete call; if it throws, only the error changes.
     * The list itself changes only when the repository emits again.
     */
    method DeleteSession(sessionId: string, failure: Option<string>)
      requires Valid()
      modifies this
      ensures Valid()
      ensures deleteCalls == old(deleteCalls) + [sessionId]
      ensures failure.None? ==> state == old(state)
      ensures failure.Some? ==> state == old(state).(error := Some(DELETE_FAILED_PREFIX + failure.value))
    {
      deleteCalls := deleteCalls + [sessionId];
      if failure.Some? {
        state := state.(error := Some(DELETE_FAILED_PREFIX + failure.value));
      }
    }

    /**
     * `clearAllHistory`: one delete call per session of the list as it is
     * now, in list order, stopping after a call that throws; a failure only
     * sets the error. The list itself is not touched.
     */
    method ClearAllHistory(failure: Option<DeleteFailure>)
      requires Valid()
      modifies this
      ensures Valid()
      ensures var snapshot := old(state.sessions);
        deleteCalls == old(deleteCalls) + SessionIds(snapshot)[..DeleteCallsIssued(|snapshot|, failure)]
      ensures failure.Some? && failure.value.index < |old(state.sessions)| ==>
        state == old(state).(error := Some(CLEAR_FAILED_PREFIX + failure.value.message))
      ensures !(failure.Some? && failure.value.index < |old(state.sessions)|) ==> state == old(state)
    {
      var snapshot := state.sessions;
      var i := 0;
      while i < |snapshot|
        invariant 0 <= i <= |snapshot|
        invariant deleteCalls == old(deleteCalls) + SessionIds(snapshot)[..i]
        invariant state == old(state)
        invariant failure.Some? ==> failure.value.index >= i
      {
        deleteCalls := deleteCalls + [snapshot[i].id];
        assert SessionIds(snapshot)[..i + 1] == SessionIds(snapshot)[..i] + [snapshot[i].id];
        if failure.Some? && failure.value.index == i {
          state := state.(error := Some(CLEAR_FAILED_PREFIX + failure.value.message));
          return;
        }
        i := i + 1;
      }
    }

    /** Dismissing the error clears it and nothing else. */
    method ClearError()
      requires Valid()
      modifies this
      ensures Valid()
      ensures state == old(state).(error := None)
      ensures deleteCalls == old(deleteCalls)
    {
      state := state.(error := None);
    }
  }
}
