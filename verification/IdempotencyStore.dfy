/** The in-memory idempotency store: states under string keys, with an optional time to live. Times are
    milliseconds, as `Date.now()` gives them. */
module IdempotencyStore {
  import opened Wrappers

  datatype State = Processed | Processing | Failed
  datatype Record = Record(state: State, expiresAt: Option<int>)

  /** An expiry time of zero counts as none. */
  predicate Expired(r: Record, now: int)
  {
    r.expiresAt.Some? && r.expiresAt.value != 0 && r.expiresAt.value <= now
  }

  function Lookup(values: map<string, Record>, key: string, now: int): Option<State>
  {
    if key in values && !Expired(values[key], now) then Some(values[key].state) else None
  }

  /** A time to live of zero seconds counts as none. */
  function Stored(state: State, ttlSeconds: Option<int>, now: int): Record
  {
    Record(state, if ttlSeconds.Some? && ttlSeconds.value != 0 then Some(now + ttlSeconds.value * 1000) else None)
  }

  class MemoryIdempotencyStore {
    var values: map<string, Record>

    constructor ()
      ensures values == map[]
    {
      values := map[];
    }

    /** Dropping an expired record cannot be seen by any later call. */
    method Get(key: string, now: int) returns (state: Option<State>)
      modifies this
      ensures state == Lookup(old(values), key, now)
      ensures values ==
        if key in old(values) && Expired(old(values)[key], now) then old(values) - {key} else old(values)
      ensures forall k, later :: later >= now ==> Lookup(values, k, later) == Lookup(old(values), k, later)
    {
      if key !in values { return None; }
      if Expired(values[key], now) {
        values := values - {key};
        return None;
      }
      return Some(values[key].state);
    }

    method Set(key: string, state: State, ttlSeconds: Option<int>, now: int)
      modifies this
      ensures values == old(values)[key := Stored(state, ttlSeconds, now)]
    {
      values := values[key := Stored(state, ttlSeconds, now)];
    }

    method Has(key: string, now: int) returns (r: bool)
      modifies this
      ensures r <==> Lookup(old(values), key, now).Some?
      ensures forall k, later :: later >= now ==> Lookup(values, k, later) == Lookup(old(values), k, later)
    {
      var state := Get(key, now);
      r := state.Some?;
    }
  }

  /** A state stored for a positive time is found until that time is over, and not from then on. */
  lemma HeldUntilExpiry(values: map<string, Record>, key: string, state: State, ttlSeconds: int, now: int, later: int)
    requires ttlSeconds > 0 && now >= 0
    ensures Lookup(values[key := Stored(state, Some(ttlSeconds), now)], key, later) ==
      if later < now + ttlSeconds * 1000 then Some(state) else None
  {
  }
}
