/**
 * The durable store of render states.  The storage file holds one JSON
 * document whose `states` object maps "platform:session" to an entry with
 * the serialised state and the time it was written.  Every operation
 * loads that object, changes it and writes the whole document back.
 *
 * The file is an abstract document (what `json.load` would see) and the
 * clock is the parameter `now`, in seconds.
 */
module Persistence {
  import opened Wrappers
  import opened Text
  import Card

  /** The `state` member of an entry: the fields of a render state, or a value `RenderState(**d)` rejects. */
  datatype StoredState = Fields(config: Card.Config) | Malformed

  /** One value of the `states` object; either member may be absent. */
  datatype Entry = Entry(state: Option<StoredState>, timestamp: Option<real>)

  /** What the storage path holds: nothing, text that is not JSON, or a document. */
  datatype Document = Missing | Corrupt | Parsed(states: map<string, Entry>, lastUpdated: real)

  /** `_make_key`: platform, a colon, then the session. */
  function MakeKey(platform: string, sessionId: string): (k: string)
    ensures |k| == |platform| + 1 + |sessionId|
    ensures k[..|platform|] == platform && k[|platform|] == ':' && k[|platform| + 1..] == sessionId
  {
    platform + ":" + sessionId
  }

  /** `_load_states`: the `states` object, or empty when the file is missing or not JSON. */
  function Load(file: Document): map<string, Entry> {
    if file.Parsed? then file.states else map[]
  }

  /** `RenderState(**state_data['state'])`, with None where that raises `KeyError` or `TypeError`. */
  function Restore(e: Entry): Option<Card.Config> {
    if e.state.Some? && e.state.value.Fields? then Some(e.state.value.config) else None
  }

  /** The entry `set_state` writes: the state's fields and the time of writing. */
  function Serialize(c: Card.Config, now: real): Entry {
    Entry(Some(Fields(c)), Some(now))
  }

  /** The age test of `get_state`: strictly older than the TTL; an entry without a timestamp never expires. */
  predicate Expired(e: Entry, ttlHours: int, now: real) {
    e.timestamp.Some? && now - e.timestamp.value > (ttlHours * 3600) as real
  }

  /** `time.time() - ttl_hours * 3600`, the cutoff of `cleanup_expired`. */
  function Cutoff(ttlHours: int, now: real): real {
    now - (ttlHours * 3600) as real
  }

  /** The test of `cleanup_expired`: written before the cutoff. */
  predicate Stale(e: Entry, cutoff: real) {
    e.timestamp.Some? && e.timestamp.value < cutoff
  }

  /** What `get_state` returns for `key` from the loaded states. */
  function Lookup(states: map<string, Entry>, key: string, ttlHours: int, now: real): (r: Option<Card.Config>)
    ensures r.Some? <==> key in states && !Expired(states[key], ttlHours, now) && Restore(states[key]).Some?
    ensures r.Some? ==> r == Restore(states[key])
  {
    if key !in states then None
    else if Expired(states[key], ttlHours, now) then None
    else Restore(states[key])
  }

  /** The keys `cleanup_expired` collects. */
  function StaleKeys(states: map<string, Entry>, cutoff: real): set<string> {
    set k | k in states && Stale(states[k], cutoff)
  }

  /** The states `cleanup_expired` leaves: exactly the entries that are not stale, unchanged. */
  function Cleaned(states: map<string, Entry>, cutoff: real): (r: map<string, Entry>)
    ensures forall k :: k in r <==> k in states && !Stale(states[k], cutoff)
    ensures forall k | k in r :: r[k] == states[k]
  {
    states - StaleKeys(states, cutoff)
  }

  /** What `get_all_states` returns: every entry whose state can be rebuilt, whatever its age. */
  function Readable(states: map<string, Entry>): (r: map<string, Card.Config>)
    ensures forall k :: k in r <==> k in states && Restore(states[k]).Some?
    ensures forall k | k in r :: Some(r[k]) == Restore(states[k])
  {
    map k | k in states && Restore(states[k]).Some? :: Restore(states[k]).value
  }

  /** `StatePersistence`: the storage file is its only state. */
  class StatePersistence {
    var file: Document

    /** Opening the store reads nothing yet; the file is whatever is on disk. */
    constructor(existing: Document)
      ensures file == existing
    {
      file := existing;
    }

    /** `_save_states`: the whole document is rewritten, stamped with `now`. */
    method Save(states: map<string, Entry>, now: real)
      modifies this
      ensures file == Parsed(states, now)
    {
      file := Parsed(states, now);
    }

    /**
     * `get_state`: an absent key gives None and leaves the file alone; an
     * expired entry is deleted, the file rewritten and None returned;
     * otherwise the state is rebuilt, or None when it cannot be. `now` stands
     * for the clock; the lifetime defaults to 24 hours.
     */
    method GetState(platform: string, sessionId: string, now: real, ttlHours: int := 24) returns (r: Option<Card.Config>)
      modifies this
      ensures r == Lookup(Load(old(file)), MakeKey(platform, sessionId), ttlHours, now)
      ensures var states, key := Load(old(file)), MakeKey(platform, sessionId);
        if key in states && Expired(states[key], ttlHours, now) then file == Parsed(states - {key}, now)
        else file == old(file)
    {
      var key := MakeKey(platform, sessionId);
      var states := Load(file);
      if key !in states {
        return None;
      }
      var entry := states[key];
      if entry.timestamp.Some? {
        var age := now - entry.timestamp.value;
        if age > (ttlHours * 3600) as real {
          states := states - {key};
          Save(states, now);
          return None;
        }
      }
      r := Restore(entry);
    }

    /** `set_state`: the entry under the key is replaced by the state stamped with `now`; nothing else changes. */
    method SetState(platform: string, sessionId: string, state: Card.Config, now: real)
      modifies this
      ensures file == Parsed(Load(old(file))[MakeKey(platform, sessionId) := Serialize(state, now)], now)
    {
      var key := MakeKey(platform, sessionId);
      var states := Load(file);
      states := states[key := Serialize(state, now)];
      Save(states, now);
    }

    /** `delete_state`: true iff the key was stored; the file is rewritten only then. */
    method DeleteState(platform: string, sessionId: string, now: real) returns (removed: bool)
      modifies this
      ensures removed <==> MakeKey(platform, sessionId) in Load(old(file))
      ensures file == if removed then Parsed(Load(old(file)) - {MakeKey(platform, sessionId)}, now) else old(file)
    {
      var key := MakeKey(platform, sessionId);
      var states := Load(file);
      if key in states {
        states := states - {key};
        Save(states, now);
        return true;
      }
      return false;
    }

    /**
     * `cleanup_expired`: one pass collects the keys of the stale entries,
     * a second deletes them; the file is rewritten only when there was one.
     * The lifetime defaults to 24 hours.
     */
    method CleanupExpired(now: real, ttlHours: int := 24) returns (count: nat)
      modifies this
      ensures count == |StaleKeys(Load(old(file)), Cutoff(ttlHours, now))|
      ensures file == if count > 0 then Parsed(Cleaned(Load(old(file)), Cutoff(ttlHours, now)), now) else old(file)
    {
      var states := Load(file);
      var cutoff := now - (ttlHours * 3600) as real;
      var expiredKeys;
      expiredKeys, count := CollectStale(states, cutoff);
      states := RemoveKeys(states, expiredKeys);
      if count > 0 {
        Save(states, now);
      }
    }

    /** The first loop of `cleanup_expired`: the stale keys, and how many there are. */
    static method CollectStale(states: map<string, Entry>, cutoff: real) returns (expiredKeys: set<string>, count: nat)
      ensures expiredKeys == StaleKeys(states, cutoff)
      ensures count == |expiredKeys|
    {
      expiredKeys := {};
      count := 0;
      var pending := states.Keys;
      while pending != {}
        invariant pending <= states.Keys
        invariant expiredKeys == StaleKeys(states, cutoff) - pending
        invariant count == |expiredKeys|
        decreases |pending|
      {
        var key :| key in pending;
        if Stale(states[key], cutoff) {
          expiredKeys := expiredKeys + {key};
          count := count + 1;
        }
        pending := pending - {key};
      }
    }

    /** The second loop of `cleanup_expired`: every collected key deleted. */
    static method RemoveKeys(states: map<string, Entry>, keys: set<string>) returns (rest: map<string, Entry>)
      ensures rest == states - keys
    {
      rest := states;
      var remaining := keys;
      while remaining != {}
        invariant remaining <= keys
        invariant rest == states - (keys - remaining)
        decreases |remaining|
      {
        var key :| key in remaining;
        rest := rest - {key};
        remaining := remaining - {key};
      }
    }

    /** `get_all_states`: every rebuildable entry, with no TTL filter. */
    method GetAllStates() returns (result: map<string, Card.Config>)
      ensures result == Readable(Load(file))
    {
      var states := Load(file);
      result := map[];
      var pending := states.Keys;
      while pending != {}
        invariant pending <= states.Keys
        invariant forall k :: k in result <==> k in states && k !in pending && Restore(states[k]).Some?
        invariant forall k | k in result :: Some(result[k]) == Restore(states[k])
        decreases |pending|
      {
        var key :| key in pending;
        var restored := Restore(states[key]);
        if restored.Some? {
          result := result[key := restored.value];
        }
        pending := pending - {key};
      }
    }
  }

  // ---------------------------------------------------------------------
  // Properties
  // ---------------------------------------------------------------------

  /** Keys are unambiguous as long as platform names hold no colon. */
  lemma KeyInjective(p1: string, s1: string, p2: string, s2: string)
    requires ':' !in p1 && ':' !in p2
    requires MakeKey(p1, s1) == MakeKey(p2, s2)
    ensures p1 == p2 && s1 == s2
  {
    var k := MakeKey(p1, s1);
    IndexAfterFree(p1, ':', s1);
    IndexAfterFree(p2, ':', s2);
    assert k == p1 + [':'] + s1 && k == p2 + [':'] + s2;
    assert |p1| == |p2|;
  }

  /** With a colon in the platform name two different pairs share a key. */
  lemma KeyAmbiguousWithColon()
    ensures MakeKey("a:b", "c") == MakeKey("a", "b:c")
  {
  }

  /** A state written at `written` reads back field for field while it is within the TTL. */
  lemma SetThenGet(states: map<string, Entry>, key: string, c: Card.Config, written: real, ttlHours: int, now: real)
    requires now - written <= (ttlHours * 3600) as real
    ensures Lookup(states[key := Serialize(c, written)], key, ttlHours, now) == Some(c)
  {
  }

  /** Once the TTL has passed the same entry reads as absent. */
  lemma SetThenGetExpired(states: map<string, Entry>, key: string, c: Card.Config, written: real, ttlHours: int, now: real)
    requires now - written > (ttlHours * 3600) as real
    ensures Lookup(states[key := Serialize(c, written)], key, ttlHours, now) == None
  {
  }

  /** Writing one key changes what no other key reads. */
  lemma SetKeepsOthers(states: map<string, Entry>, key: string, e: Entry, other: string, ttlHours: int, now: real)
    requires other != key
    ensures Lookup(states[key := e], other, ttlHours, now) == Lookup(states, other, ttlHours, now)
  {
  }

  /** An entry `cleanup_expired` removes is one `get_state` would have treated as expired, and back. */
  lemma StaleIffExpired(e: Entry, ttlHours: int, now: real)
    ensures Stale(e, Cutoff(ttlHours, now)) <==> Expired(e, ttlHours, now)
  {
  }

  /** A cleanup at `now` changes nothing `get_state` with the same TTL and clock would return. */
  lemma CleanupKeepsLookups(states: map<string, Entry>, ttlHours: int, now: real, key: string)
    ensures Lookup(Cleaned(states, Cutoff(ttlHours, now)), key, ttlHours, now) == Lookup(states, key, ttlHours, now)
  {
    if key in states {
      StaleIffExpired(states[key], ttlHours, now);
    }
  }

  /** After a cleanup no entry left is stale, so a second cleanup at the same cutoff removes nothing. */
  lemma CleanupIdempotent(states: map<string, Entry>, cutoff: real)
    ensures StaleKeys(Cleaned(states, cutoff), cutoff) == {}
    ensures Cleaned(Cleaned(states, cutoff), cutoff) == Cleaned(states, cutoff)
  {
    var once := Cleaned(states, cutoff);
    assert forall k | k in once :: !Stale(once[k], cutoff);
  }

  /** `get_all_states` applies no TTL: a stored, rebuildable entry is listed even when `get_state` calls it expired. */
  lemma ReadableIgnoresExpiry(states: map<string, Entry>, key: string, ttlHours: int, now: real)
    requires key in states && Restore(states[key]).Some?
    ensures key in Readable(states)
    ensures Lookup(states, key, ttlHours, now).Some? ==> Lookup(states, key, ttlHours, now) == Some(Readable(states)[key])
  {
  }
}
