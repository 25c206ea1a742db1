/**
  The call occupancy tracker: an in-memory map from user id to the call that
  user is committed to (session id, partner, start time). Entries older than
  MAX_CALL_DURATION are reclaimed lazily when a user is queried and by a
  periodic sweep. Time is the explicit argument `now`, in milliseconds.
 */
module ActiveCalls {
  import opened Common

  /** Interval of the background sweep; the sweep itself is the method
      `Sweep`, and when it fires is decided outside the model. */
  const CLEANUP_INTERVAL: int := 5 * 60 * 1000
  /** One hour: older entries count as orphaned. */
  const MAX_CALL_DURATION: int := 60 * 60 * 1000

  datatype CallEntry = CallEntry(callSessionId: string, partnerId: UserId, startTime: int)

  /** Strictly older than the maximum call duration. */
  predicate Stale(e: CallEntry, now: int)
  {
    now - e.startTime > MAX_CALL_DURATION
  }

  /** What `isUserInCall` answers. */
  predicate InCall(calls: map<UserId, CallEntry>, userId: UserId, now: int)
  {
    userId in calls && !Stale(calls[userId], now)
  }

  /** The map after `isUserInCall`: a stale entry for the queried user is
      dropped, nothing else changes. */
  function AfterQuery(calls: map<UserId, CallEntry>, userId: UserId, now: int): map<UserId, CallEntry>
  {
    if userId in calls && Stale(calls[userId], now) then calls - {userId} else calls
  }

  /** The users whose entry belongs to session `s`. */
  function SessionUsers(calls: map<UserId, CallEntry>, s: string): set<UserId>
  {
    set u | u in calls && calls[u].callSessionId == s
  }

  /** The map with every entry of session `s` removed. */
  function WithoutSession(calls: map<UserId, CallEntry>, s: string): map<UserId, CallEntry>
  {
    map u | u in calls && calls[u].callSessionId != s :: calls[u]
  }

  /** The users whose entry is stale at `now`. */
  function StaleUsers(calls: map<UserId, CallEntry>, now: int): set<UserId>
  {
    set u | u in calls && Stale(calls[u], now)
  }

  /** The map with every stale entry removed. */
  function WithoutStale(calls: map<UserId, CallEntry>, now: int): map<UserId, CallEntry>
  {
    map u | u in calls && !Stale(calls[u], now) :: calls[u]
  }

  class ActiveCallTracker {
    /** userId -> the call that user is in */
    var calls: map<UserId, CallEntry>

    constructor ()
      ensures calls == map[]
    {
      calls := map[];
    }

    /** `addActiveCall`: overwrites the user's entry, starting now. */
    method AddActiveCall(userId: UserId, callSessionId: string, partnerId: UserId, now: int) returns (ok: bool)
      modifies this
      ensures ok
      ensures calls == old(calls)[userId := CallEntry(callSessionId, partnerId, now)]
    {
      calls := calls[userId := CallEntry(callSessionId, partnerId, now)];
      ok := true;
    }

    /** `removeActiveCall`: deletes the user's entry if there is one. */
    method RemoveActiveCall(userId: UserId) returns (removed: bool)
      modifies this
      ensures removed <==> userId in old(calls)
      ensures calls == old(calls) - {userId}
    {
      if userId in calls {
        calls := calls - {userId};
        removed := true;
      } else {
        removed := false;
      }
    }

    /** `isUserInCall`: reclaims the user's entry when it is stale. */
    method IsUserInCall(userId: UserId, now: int) returns (inCall: bool)
      modifies this
      ensures inCall == InCall(old(calls), userId, now)
      ensures calls == AfterQuery(old(calls), userId, now)
    {
      if userId in calls {
        var call := calls[userId];
        var callDuration := now - call.startTime;
        if callDuration > MAX_CALL_DURATION {
          calls := calls - {userId};
          return false;
        }
        return true;
      }
      return false;
    }

    /** `getActiveCallDetails`: a plain lookup that never reclaims, however
        old the entry is. */
    method GetActiveCallDetails(userId: UserId) returns (details: Option<CallEntry>)
      ensures details.Some? <==> userId in calls
      ensures details.Some? ==> details.value == calls[userId]
    {
      details := if userId in calls then Some(calls[userId]) else None;
    }

    /** `getAllActiveCalls`: a copy of the whole map, stale entries included. */
    method GetAllActiveCalls() returns (snapshot: map<UserId, CallEntry>)
      ensures snapshot.Keys == calls.Keys
      ensures forall u :: u in snapshot ==> snapshot[u] == calls[u]
    {
      snapshot := calls;
    }

    /** `removeCallSession`: walks a snapshot of the keys and deletes every
        entry of the session, counting the deletions. */
    method RemoveCallSession(callSessionId: string) returns (removed: nat)
      modifies this
      ensures calls == WithoutSession(old(calls), callSessionId)
      ensures removed == |SessionUsers(old(calls), callSessionId)|
    {
      ghost var before := calls;
      ghost var doomed := SessionUsers(before, callSessionId);
      var keys := calls.Keys;
      removed := 0;
      while keys != {}
        invariant keys <= before.Keys
        invariant calls.Keys <= before.Keys
        invariant forall u :: u in calls ==> calls[u] == before[u]
        invariant forall u :: u in before ==> (u in calls <==> u in keys || u !in doomed)
        invariant removed == |doomed - keys|
        decreases keys
      {
        var userId :| userId in keys;
        if calls[userId].callSessionId == callSessionId {
          calls := calls - {userId};
          removed := removed + 1;
        }
        CountStep(doomed, keys, userId);
        keys := keys - {userId};
      }
      assert doomed - keys == doomed;
      assert calls.Keys == WithoutSession(before, callSessionId).Keys;
    }

    /** The body of the periodic cleanup: deletes every entry whose age is
        strictly greater than MAX_CALL_DURATION and counts them. */
    method Sweep(now: int) returns (cleaned: nat)
      modifies this
      ensures calls == WithoutStale(old(calls), now)
      ensures cleaned == |StaleUsers(old(calls), now)|
    {
      ghost var before := calls;
      ghost var doomed := StaleUsers(before, now);
      var keys := calls.Keys;
      cleaned := 0;
      while keys != {}
        invariant keys <= before.Keys
        invariant calls.Keys <= before.Keys
        invariant forall u :: u in calls ==> calls[u] == before[u]
        invariant forall u :: u in before ==> (u in calls <==> u in keys || u !in doomed)
        invariant cleaned == |doomed - keys|
        decreases keys
      {
        var userId :| userId in keys;
        var call := calls[userId];
        var callDuration := now - call.startTime;
        if callDuration > MAX_CALL_DURATION {
          calls := calls - {userId};
          cleaned := cleaned + 1;
        }
        CountStep(doomed, keys, userId);
        keys := keys - {userId};
      }
      assert doomed - keys == doomed;
      assert calls.Keys == WithoutStale(before, now).Keys;
    }
  }

  /** Taking one more key out of the unvisited set adds it to the visited
      part of `doomed` exactly when it is doomed. */
  lemma CountStep<T>(doomed: set<T>, keys: set<T>, u: T)
    requires u in keys
    ensures |doomed - (keys - {u})| == |doomed - keys| + (if u in doomed then 1 else 0)
  {
    if u in doomed {
      assert doomed - (keys - {u}) == (doomed - keys) + {u};
    } else {
      assert doomed - (keys - {u}) == doomed - keys;
    }
  }

  /** An entry written now is reported in a call now, under the given
      session and partner. */
  lemma AddedEntryInCall(calls: map<UserId, CallEntry>, userId: UserId, s: string, partner: UserId, now: int)
    ensures InCall(calls[userId := CallEntry(s, partner, now)], userId, now)
    ensures calls[userId := CallEntry(s, partner, now)][userId].callSessionId == s
  {
  }

  /** removeCallSession removes exactly the session's entries: an entry
      survives iff it belongs to another session, and survivors are unchanged. */
  lemma WithoutSessionExact(calls: map<UserId, CallEntry>, s: string)
    ensures forall u :: u in WithoutSession(calls, s) <==> u in calls && u !in SessionUsers(calls, s)
    ensures forall u :: u in WithoutSession(calls, s) ==> WithoutSession(calls, s)[u] == calls[u]
    ensures SessionUsers(WithoutSession(calls, s), s) == {}
  {
  }

  /** The count returned by removeCallSession plus the survivors is the
      size of the map before. */
  lemma {:induction false} SessionCount(calls: map<UserId, CallEntry>, s: string)
    ensures |WithoutSession(calls, s)| + |SessionUsers(calls, s)| == |calls|
  {
    var rest := WithoutSession(calls, s);
    assert rest.Keys == calls.Keys - SessionUsers(calls, s);
    assert SessionUsers(calls, s) <= calls.Keys;
    SubsetSplit(calls.Keys, SessionUsers(calls, s));
  }

  lemma SubsetSplit<T>(all: set<T>, part: set<T>)
    requires part <= all
    ensures |all - part| + |part| == |all|
  {
    assert all == (all - part) + part;
    assert (all - part) !! part;
  }

  /** removeCallSession is idempotent: a second call finds nothing to remove
      and leaves the map as the first call left it. */
  lemma RemoveCallSessionIdempotent(calls: map<UserId, CallEntry>, s: string)
    ensures WithoutSession(WithoutSession(calls, s), s) == WithoutSession(calls, s)
    ensures |SessionUsers(WithoutSession(calls, s), s)| == 0
  {
    WithoutSessionExact(calls, s);
  }

  /** The lazy check and the sweep agree: a user is reported in a call at
      `now` exactly when its entry survives a sweep at `now`, and the query
      leaves the user's entry present exactly when the sweep would. */
  lemma LazyReclaimAgreesWithSweep(calls: map<UserId, CallEntry>, userId: UserId, now: int)
    ensures InCall(calls, userId, now) <==> userId in WithoutStale(calls, now)
    ensures userId in AfterQuery(calls, userId, now) <==> userId in WithoutStale(calls, now)
    ensures forall v :: v != userId ==> (v in AfterQuery(calls, userId, now) <==> v in calls)
  {
  }

  /** After a sweep no entry is stale at the sweep's time. */
  lemma SweepLeavesNoStale(calls: map<UserId, CallEntry>, now: int)
    ensures StaleUsers(WithoutStale(calls, now), now) == {}
    ensures forall u :: u in WithoutStale(calls, now) ==> !Stale(WithoutStale(calls, now)[u], now)
  {
  }

  /** A later sweep subsumes an earlier one: entries only grow older. */
  lemma SweepMonotone(calls: map<UserId, CallEntry>, t1: int, t2: int)
    requires t1 <= t2
    ensures WithoutStale(WithoutStale(calls, t1), t2) == WithoutStale(calls, t2)
  {
    assert forall u :: u in calls && Stale(calls[u], t1) ==> Stale(calls[u], t2);
  }

  /** The reclamation boundary is strict: an entry exactly MAX_CALL_DURATION
      old still counts as in a call; one millisecond more reclaims it. */
  lemma StaleBoundary(e: CallEntry)
    ensures !Stale(e, e.startTime + MAX_CALL_DURATION)
    ensures Stale(e, e.startTime + MAX_CALL_DURATION + 1)
  {
  }
}
