/**
  The response cache: a bounded map from (enriched) requests to responses. Which entry
  is evicted when the cache is full is left open, as is expiry; both only make
  entries disappear.
*/
module Cache {
  import opened Wrappers
  import opened AuthzModel

  /**
    The effect of storing value under key: key now maps to value, every other entry is
    either kept unchanged or evicted, and nothing is evicted while there is room.
  */
  ghost predicate StoredIn(before: map<Request, Response>, after: map<Request, Response>,
                           key: Request, value: Response, capacity: nat)
  {
    && key in after && after[key] == value
    && (forall k :: k in after && k != key ==> k in before && after[k] == before[k])
    && (key in before || |before| < capacity ==> after == before[key := value])
  }

  class ResponseCache {
    const capacity: nat
    var entries: map<Request, Response>

    ghost predicate Valid()
      reads this
    {
      0 < capacity && |entries| <= capacity
    }

    constructor (capacity: nat)
      requires 0 < capacity
      ensures Valid() && this.capacity == capacity && entries == map[]
    {
      this.capacity := capacity;
      entries := map[];
    }

    /** The cached response for key, if there is one. */
    method Get(key: Request) returns (hit: Option<Response>)
      ensures hit.Some? <==> key in entries
      ensures hit.Some? ==> hit.value == entries[key]
    {
      hit := if key in entries then Some(entries[key]) else None;
    }

    /** Stores value under key, evicting some other entry when the cache is full. */
    method Put(key: Request, value: Response)
      requires Valid()
      modifies this
      ensures Valid()
      ensures StoredIn(old(entries), entries, key, value, capacity)
    {
      if key !in entries && |entries| == capacity {
        assert entries.Keys != {} by {
          assert |entries.Keys| == |entries|;
        }
        var victim :| victim in entries.Keys;
        assert |(entries - {victim}).Keys| == |entries.Keys - {victim}| == |entries| - 1;
        entries := entries - {victim};
      }
      entries := entries[key := value];
    }
  }
}
