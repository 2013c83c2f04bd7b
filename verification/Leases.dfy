/** Values that expire: the lease behind the distributed lock and the entries of
    the key-value cache. Time is real, because both clients read a real clock. */
module Leases {
  import opened Basics

  datatype Timed<+V> = Timed(value: V, until: real)

  /** What a reader at `now` still sees. */
  function Alive<V>(t: Option<Timed<V>>, now: real): Option<Timed<V>> {
    if t.Some? && now < t.value.until then t else None
  }

  type Lease = Timed<nat>

  /** Set if absent, with an expiry. */
  function AfterAcquire(lease: Option<Lease>, token: nat, now: real, ttl: real): Option<Lease> {
    if Alive(lease, now).Some? then lease else Some(Timed(token, now + ttl))
  }

  /** Delete if the value is still the caller's token. */
  function AfterRelease(lease: Option<Lease>, token: nat, now: real): Option<Lease> {
    if Alive(lease, now).Some? && lease.value.value == token then None else lease
  }

  /** From `now` on, no reader can tell the two apart. */
  ghost predicate SameFrom<V(!new)>(a: Option<Timed<V>>, b: Option<Timed<V>>, now: real) {
    forall t: real :: t >= now ==> Alive(a, t) == Alive(b, t)
  }

  function Find<V>(m: map<string, Timed<V>>, key: string): Option<Timed<V>> {
    if key in m then Some(m[key]) else None
  }

  ghost predicate OthersKept<V(!new)>(m: map<string, Timed<V>>, m': map<string, Timed<V>>, key: string) {
    forall k :: k != key ==> Find(m, k) == Find(m', k)
  }

  datatype LockAnswer = Invalid | Held | Granted(token: nat)

  /** The answer of a call, unless it raised because of its arguments. */
  datatype Answer<+T> = Raised | Ok(value: T)

  class FakeDistributedLockClient {
    const defaultTtl: int
    var leases: map<string, Lease>
    var nextToken: nat

    constructor (defaultTtl: int)
      requires defaultTtl > 0
      ensures this.defaultTtl == defaultTtl && leases == map[] && nextToken == 0
    {
      this.defaultTtl := defaultTtl;
      leases := map[];
      nextToken := 0;
    }

    method Expire(key: string, now: real)
      modifies this
      ensures nextToken == old(nextToken) && OthersKept(old(leases), leases, key)
      ensures Find(leases, key) == Alive(Find(old(leases), key), now)
      ensures key in leases <==> key in old(leases) && now < old(leases)[key].until
    {
      if key in leases && leases[key].until <= now {
        leases := leases - {key};
      }
    }

    /** Grants a token never granted before unless a lease is alive; the time to
        live is looked at only when there is something to grant. */
    method Acquire(key: string, ttlSeconds: Option<int>, now: real) returns (answer: LockAnswer)
      modifies this
      ensures OthersKept(old(leases), leases, key)
      ensures answer == Held <==> key != "" && key in old(leases) && now < old(leases)[key].until
      ensures answer == Invalid <==>
        || key == ""
        || (&& (key !in old(leases) || old(leases)[key].until <= now)
            && (if ttlSeconds.Some? then ttlSeconds.value else defaultTtl) <= 0)
      ensures answer.Granted? ==>
        var ttl := if ttlSeconds.Some? then ttlSeconds.value else defaultTtl;
        && answer.token == old(nextToken) + 1 == nextToken
        && ttl > 0
        && Find(leases, key) == AfterAcquire(Find(old(leases), key), answer.token, now, ttl as real)
                             == Some(Timed(answer.token, now + ttl as real))
      ensures !answer.Granted? ==>
        nextToken == old(nextToken) && SameFrom(Find(leases, key), Find(old(leases), key), now)
    {
      if key == "" {
        return Invalid;
      }
      Expire(key, now);
      if key in leases {
        return Held;
      }
      var ttl := if ttlSeconds.Some? then ttlSeconds.value else defaultTtl;
      if ttl <= 0 {
        return Invalid;
      }
      nextToken := nextToken + 1;
      leases := leases[key := Timed(nextToken, now + ttl as real)];
      return Granted(nextToken);
    }

    /** Only the owner of a lease that is still alive ends it. */
    method Release(key: string, token: nat, now: real) returns (released: Answer<bool>)
      modifies this
      ensures released == Raised <==> key == ""
      ensures released == Raised ==> leases == old(leases)
      ensures nextToken == old(nextToken) && OthersKept(old(leases), leases, key)
      ensures released.Ok? ==>
        && (released.value <==> key in old(leases) && now < old(leases)[key].until && old(leases)[key].value == token)
        && (released.value ==> key !in leases)
        && (!released.value ==> SameFrom(Find(leases, key), Find(old(leases), key), now))
        && SameFrom(Find(leases, key), AfterRelease(Find(old(leases), key), token, now), now)
    {
      if key == "" {
        return Raised;
      }
      Expire(key, now);
      if key !in leases || leases[key].value != token {
        return Ok(false);
      }
      leases := leases - {key};
      return Ok(true);
    }
  }

  class FakeKeyValueStoreClient<V(!new)> {
    const defaultTtl: int
    var values: map<string, Timed<V>>

    constructor (defaultTtl: int)
      requires defaultTtl > 0
      ensures this.defaultTtl == defaultTtl && values == map[]
    {
      this.defaultTtl := defaultTtl;
      values := map[];
    }

    method Get(key: string, now: real) returns (answer: Answer<Option<V>>)
      modifies this
      ensures answer == Raised <==> key == ""
      ensures OthersKept(old(values), values, key)
      ensures SameFrom(Find(values, key), Find(old(values), key), now)
      ensures answer.Ok? ==>
        answer.value == if key in old(values) && now < old(values)[key].until then Some(old(values)[key].value) else None
    {
      if key == "" {
        return Raised;
      }
      if key !in values {
        return Ok(None);
      }
      if values[key].until <= now {
        values := values - {key};
        return Ok(None);
      }
      return Ok(Some(values[key].value));
    }

    /** Stores the value until its lifetime, or the default one, ends; an empty key or
        a lifetime that is not positive raises and stores nothing. */
    method Set(key: string, value: V, ttlSeconds: Option<int>, now: real) returns (stored: bool)
      modifies this
      ensures stored <==> key != "" && (ttlSeconds.Some? ==> ttlSeconds.value > 0) && (ttlSeconds.None? ==> defaultTtl > 0)
      ensures OthersKept(old(values), values, key)
      ensures stored ==>
        Find(values, key) == Some(Timed(value, now + (if ttlSeconds.Some? then ttlSeconds.value else defaultTtl) as real))
      ensures !stored ==> values == old(values)
    {
      var ttl := if ttlSeconds.Some? then ttlSeconds.value else defaultTtl;
      if key == "" || ttl <= 0 {
        return false;
      }
      values := values[key := Timed(value, now + ttl as real)];
      return true;
    }

    /** Answers whether something was stored, be it expired or not. */
    method Delete(key: string) returns (deleted: Answer<bool>)
      modifies this
      ensures deleted == Raised <==> key == ""
      ensures deleted == Raised ==> values == old(values)
      ensures OthersKept(old(values), values, key)
      ensures deleted.Ok? ==> Find(values, key) == None && (deleted.value <==> key in old(values))
    {
      if key == "" {
        return Raised;
      }
      deleted := Ok(key in values);
      values := values - {key};
    }
  }
}
