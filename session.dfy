/**
 * Multi-step interactive sessions: one session per (platform, user), kept
 * alive by activity and dropped once idle for longer than its timeout.
 * The clock is the parameter `now` (seconds); the background task that runs
 * the sweep every ten seconds is not modelled, only one pass of the sweep.
 */
module Session {
  import opened Wrappers
  import opened Numbers

  datatype SessionState =
    | WaitingCharacterSelection
    | WaitingTextInput
    | Completed
    | Timeout
    | Cancelled

  /** Sessions are keyed by (platform, user id). */
  type Key = (string, string)

  /** The session id `f"{platform}_{user_id}_{int(time.time())}"`. */
  function SessionId(platform: string, userId: string, now: real): string {
    platform + "_" + userId + "_" + IntToString(Trunc(now))
  }

  /** An id taken at a non-negative time ends in the whole seconds of that time. */
  lemma SessionIdSeconds(platform: string, userId: string, now: real)
    requires 0.0 <= now
    ensures SessionId(platform, userId, now) == platform + "_" + userId + "_" + NatToString(now.Floor)
    ensures DigitsValue(NatToString(now.Floor)) as real <= now < DigitsValue(NatToString(now.Floor)) as real + 1.0
  {
    DigitsValueOfNatToString(now.Floor);
  }

  class InteractiveSession {
    const sessionId: string
    const platform: string
    const userId: string
    const createdAt: real
    var state: SessionState
    var lastActivity: real
    var selectedCharacter: Option<string>
    var timeoutSeconds: int

    /** A session created at `now`, with no character selected yet. */
    constructor(sessionId: string, platform: string, userId: string, state: SessionState, now: real, timeoutSeconds: int)
      ensures this.sessionId == sessionId && this.platform == platform && this.userId == userId
      ensures this.state == state && this.createdAt == now && this.lastActivity == now
      ensures this.selectedCharacter == None && this.timeoutSeconds == timeoutSeconds
    {
      this.sessionId := sessionId;
      this.platform := platform;
      this.userId := userId;
      this.state := state;
      this.createdAt := now;
      this.lastActivity := now;
      this.selectedCharacter := None;
      this.timeoutSeconds := timeoutSeconds;
    }

    /** `is_expired`: idle for strictly longer than the timeout. */
    predicate IsExpired(now: real)
      reads this
    {
      now - lastActivity > timeoutSeconds as real
    }

    /** `update_activity`: the session was active at `now`. */
    method UpdateActivity(now: real)
      modifies this
      ensures lastActivity == now
      ensures state == old(state) && selectedCharacter == old(selectedCharacter) && timeoutSeconds == old(timeoutSeconds)
      ensures IsExpired(now) <==> timeoutSeconds < 0
    {
      lastActivity := now;
    }
  }

  /** Once expired, a session stays expired as the clock moves on. */
  lemma ExpiryPersists(s: InteractiveSession, t: real, later: real)
    requires t <= later && s.IsExpired(t)
    ensures s.IsExpired(later)
  {
  }

  class SessionManager {
    var sessions: map<Key, InteractiveSession>

    /** No session object is shared by two keys. */
    predicate Valid()
      reads this
    {
      forall k1, k2 | k1 in sessions && k2 in sessions && k1 != k2 :: sessions[k1] != sessions[k2]
    }

    /** The session stored under `key`, as the set of objects an operation on that key may change. */
    function At(key: Key): set<InteractiveSession>
      reads this
    {
      if key in sessions then {sessions[key]} else {}
    }

    /** The session under `key` exists and has expired at `now`. */
    predicate Lapsed(key: Key, now: real)
      reads this, At(key)
    {
      key in sessions && sessions[key].IsExpired(now)
    }

    constructor()
      ensures sessions == map[] && Valid()
    {
      sessions := map[];
    }

    /** `get_all_sessions`: the sessions that have not expired at `now`; nothing is removed. */
    function ActiveSessions(now: real): (r: map<Key, InteractiveSession>)
      reads this, sessions.Values
      ensures forall k :: k in r <==> k in sessions && !sessions[k].IsExpired(now)
      ensures forall k | k in r :: r[k] == sessions[k]
    {
      map k | k in sessions && !sessions[k].IsExpired(now) :: sessions[k]
    }

    /**
     * `create_session`: marks any session already under the key CANCELLED and
     * replaces it with a fresh one in the initial state. `now` stands for the
     * clock; the state and the timeout default to waiting for a character and 30 seconds.
     */
    method CreateSession(platform: string, userId: string, now: real,
                         initialState: SessionState := WaitingCharacterSelection, timeoutSeconds: int := 30)
      returns (session: InteractiveSession)
      requires Valid()
      modifies this, At((platform, userId))`state
      ensures Valid()
      ensures fresh(session)
      ensures sessions == old(sessions)[(platform, userId) := session]
      ensures (platform, userId) in old(sessions) ==> old(sessions)[(platform, userId)].state == Cancelled
      ensures session.sessionId == SessionId(platform, userId, now)
      ensures session.platform == platform && session.userId == userId
      ensures session.state == initialState && session.timeoutSeconds == timeoutSeconds
      ensures session.createdAt == now && session.lastActivity == now && session.selectedCharacter == None
    {
      var key := (platform, userId);
      if key in sessions {
        sessions[key].state := Cancelled;
      }
      session := new InteractiveSession(SessionId(platform, userId, now), platform, userId, initialState, now, timeoutSeconds);
      sessions := sessions[key := session];
    }

    /**
     * `get_session`: a live session is returned untouched; an expired one is
     * marked TIMEOUT and removed, and nothing is returned.
     */
    method GetSession(platform: string, userId: string, now: real) returns (r: Option<InteractiveSession>)
      requires Valid()
      modifies this, At((platform, userId))`state
      ensures Valid()
      ensures r.Some? <==> (platform, userId) in old(ActiveSessions(now))
      ensures r.Some? ==> r.value == old(sessions)[(platform, userId)] && unchanged(r.value)
      ensures old(Lapsed((platform, userId), now)) ==>
                sessions == old(sessions) - {(platform, userId)} && old(sessions)[(platform, userId)].state == Timeout
      ensures !old(Lapsed((platform, userId), now)) ==> sessions == old(sessions)
    {
      var key := (platform, userId);
      if key in sessions {
        var session := sessions[key];
        if session.IsExpired(now) {
          session.state := Timeout;
          sessions := sessions - {key};
          return None;
        }
        return Some(session);
      }
      return None;
    }

    /**
     * `update_session`: for a live session, sets the fields whose new value is
     * given and truthy, then refreshes its activity; an absent or expired
     * session is left alone (and not removed).
     */
    method UpdateSession(platform: string, userId: string, state: Option<SessionState>,
                         selectedCharacter: Option<string>, timeoutSeconds: Option<int>, now: real)
      returns (r: Option<InteractiveSession>)
      requires Valid()
      modifies At((platform, userId))
      ensures r.Some? <==> (platform, userId) in old(ActiveSessions(now))
      ensures r.None? ==> unchanged(old(At((platform, userId))))
      ensures r.Some? ==> r.value == sessions[(platform, userId)]
      ensures r.Some? ==> r.value.state == (if state.Some? then state.value else old(r.value.state))
      ensures r.Some? ==> (r.value.selectedCharacter ==
                if selectedCharacter.Some? && selectedCharacter.value != "" then selectedCharacter else old(r.value.selectedCharacter))
      ensures r.Some? ==> (r.value.timeoutSeconds ==
                if timeoutSeconds.Some? && timeoutSeconds.value != 0 then timeoutSeconds.value else old(r.value.timeoutSeconds))
      ensures r.Some? ==> r.value.lastActivity == now
    {
      var key := (platform, userId);
      if key !in sessions || sessions[key].IsExpired(now) {
        return None;
      }
      var session := sessions[key];
      if state.Some? {
        session.state := state.value;
      }
      if selectedCharacter.Some? && selectedCharacter.value != "" {
        session.selectedCharacter := selectedCharacter;
      }
      if timeoutSeconds.Some? && timeoutSeconds.value != 0 {
        session.timeoutSeconds := timeoutSeconds.value;
      }
      session.UpdateActivity(now);
      return Some(session);
    }

    /** `cancel_session`: true iff a session was present; it is marked CANCELLED and removed. */
    method CancelSession(platform: string, userId: string) returns (cancelled: bool)
      requires Valid()
      modifies this, At((platform, userId))`state
      ensures Valid()
      ensures cancelled <==> (platform, userId) in old(sessions)
      ensures sessions == old(sessions) - {(platform, userId)}
      ensures cancelled ==> old(sessions)[(platform, userId)].state == Cancelled
    {
      var key := (platform, userId);
      if key in sessions {
        sessions[key].state := Cancelled;
        sessions := sessions - {key};
        return true;
      }
      return false;
    }

    /** The keys whose sessions have expired at `now`. */
    function ExpiredKeys(now: real): (r: set<Key>)
      reads this, sessions.Values
      ensures forall k :: k in r <==> k in sessions && sessions[k].IsExpired(now)
    {
      set k | k in sessions && sessions[k].IsExpired(now)
    }

    /**
     * One pass of `_cleanup_expired_sessions`: the expired keys are collected
     * first, then each of their sessions is marked TIMEOUT and removed.  What
     * is left is exactly what `get_all_sessions` returned before the pass.
     */
    method SweepExpired(now: real)
      requires Valid()
      modifies this, sessions.Values`state
      ensures Valid()
      ensures sessions == old(ActiveSessions(now))
      ensures forall k | k in old(sessions) :: old(sessions)[k].state == (if k in sessions then old(sessions[k].state) else Timeout)
    {
      var expiredKeys := CollectExpired(now);
      ExpireAll(expiredKeys);
    }

    /** The first loop of the sweep: a key per expired session. */
    method CollectExpired(now: real) returns (expiredKeys: set<Key>)
      ensures expiredKeys == ExpiredKeys(now)
    {
      expiredKeys := {};
      var pending := sessions.Keys;
      while pending != {}
        invariant pending <= sessions.Keys
        invariant forall k :: k in expiredKeys <==> k in sessions && k !in pending && sessions[k].IsExpired(now)
        decreases |pending|
      {
        var key :| key in pending;
        if sessions[key].IsExpired(now) {
          expiredKeys := expiredKeys + {key};
        }
        pending := pending - {key};
      }
    }

    /** The sessions stored under `keys`. */
    function SessionsOf(keys: set<Key>): set<InteractiveSession>
      reads this
    {
      set k | k in keys && k in sessions :: sessions[k]
    }

    /** The second loop of the sweep: each collected session is marked TIMEOUT and deleted. */
    method ExpireAll(keys: set<Key>)
      requires keys <= sessions.Keys
      modifies this, SessionsOf(keys)`state
      ensures sessions == old(sessions) - keys
      ensures forall k | k in keys :: old(sessions)[k].state == Timeout
    {
      var remaining := keys;
      ghost var done: set<Key> := {};
      while remaining != {}
        invariant remaining <= keys && done == keys - remaining
        invariant sessions == old(sessions) - done
        invariant forall k | k in done :: old(sessions)[k].state == Timeout
        decreases |remaining|
      {
        var key :| key in remaining;
        ExpireOne(key);
        remaining := remaining - {key};
        done := done + {key};
      }
    }

    /** Marks the session under `key` TIMEOUT and deletes the key. */
    method ExpireOne(key: Key)
      requires key in sessions
      modifies this, At(key)`state
      ensures sessions == old(sessions) - {key}
      ensures old(sessions)[key].state == Timeout
    {
      sessions[key].state := Timeout;
      sessions := sessions - {key};
    }
  }
}
