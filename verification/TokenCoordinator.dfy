/** One undisturbed call of the token coordinator, step by step as coded; the
    Tokens module interleaves the steps of several replicas. */
module TokenCoordinator {
  import opened Basics
  import opened Leases
  import Tokens

  const CACHE_KEY := "oauth:token"
  const LOCK_KEY := "oauth:refresh"

  datatype Token = Token(value: string, tokenType: string, expiresAt: real)

  /** A cached text either decodes to the three fields of a token or does not. */
  datatype Cached = Malformed | Decoded(token: Token)

  /** A provider answer: its two texts and the lifetime it states. */
  datatype Reply = Reply(value: string, tokenType: string, expiresIn: real)

  datatype Answer = Got(token: Token) | StillRefreshing | ProviderFailed

  /** One round of waiting: when the waiter looks at its deadline, and, after the
      pause, when it reads the cache and what that then holds. */
  datatype Poll = Poll(checkedAt: real, readAt: real, values: map<string, Timed<Cached>>)

  /** Every round takes at least the pause of a tenth of a second. */
  ghost predicate Paced(polls: nat -> Poll) {
    forall i: nat :: polls(i + 1).checkedAt >= polls(i).checkedAt + 0.1
  }

  /** Waiting ends in round `n`: the rounds before it were in time and found nothing,
      and it finds `token` in time or finds the deadline passed. */
  ghost predicate WaitEnds(polls: nat -> Poll, deadline: real, n: nat, token: Option<Token>) {
    && (forall i: nat :: i < n ==> polls(i).checkedAt < deadline && Readable(Find(polls(i).values, CACHE_KEY), polls(i).readAt).None?)
    && (token.None? ==> polls(n).checkedAt >= deadline)
    && (token.Some? ==>
          polls(n).checkedAt < deadline && Readable(Find(polls(n).values, CACHE_KEY), polls(n).readAt) == token)
  }

  /** What a waiter comes back with. */
  ghost predicate Waited(polls: nat -> Poll, deadline: real, token: Option<Token>) {
    exists n: nat :: WaitEnds(polls, deadline, n, token)
  }

  predicate Usable(c: Cached, now: real) {
    c.Decoded? && c.token.value != "" && c.token.tokenType != "" && now < c.token.expiresAt
  }

  /** The token a reader at `now` may use. */
  function Readable(entry: Option<Timed<Cached>>, now: real): Option<Token> {
    if Alive(entry, now).Some? && Usable(entry.value.value, now) then Some(entry.value.value.token) else None
  }

  function Parsed(reply: Option<Reply>, now: real): Option<Token> {
    if reply.None? || reply.value.value == "" || reply.value.tokenType == "" || reply.value.expiresIn <= 0.0 then None
    else Some(Token(reply.value.value, reply.value.tokenType, now + reply.value.expiresIn))
  }

  class KisTokenCoordinator {
    const lock: FakeDistributedLockClient
    const cache: FakeKeyValueStoreClient<Cached>

    constructor (lock: FakeDistributedLockClient, cache: FakeKeyValueStoreClient<Cached>)
      ensures this.lock == lock && this.cache == cache
    {
      this.lock := lock;
      this.cache := cache;
    }

    /** After a miss the cache holds nothing that is alive. */
    method ReadCachedToken(now: real) returns (token: Option<Token>)
      modifies cache
      ensures token == Readable(Find(old(cache.values), CACHE_KEY), now)
      ensures token.Some? <==>
        && CACHE_KEY in old(cache.values)
        && now < old(cache.values)[CACHE_KEY].until
        && var cached := old(cache.values)[CACHE_KEY].value;
           cached.Decoded? && cached.token.value != "" && cached.token.tokenType != "" && now < cached.token.expiresAt
      ensures token.Some? ==> Decoded(token.value) == old(cache.values)[CACHE_KEY].value
      ensures token.Some? ==> SameFrom(Find(cache.values, CACHE_KEY), Find(old(cache.values), CACHE_KEY), now)
      ensures token.None? ==> Alive(Find(cache.values, CACHE_KEY), now).None?
    {
      var got := cache.Get(CACHE_KEY, now);
      var value := got.value;
      if value.None? {
        return None;
      }
      if !Usable(value.value, now) {
        var _ := cache.Delete(CACHE_KEY);
        return None;
      }
      return Some(value.value.token);
    }

    /** Polls until some other replica's token is readable or the deadline passes. */
    method WaitForRefresh(deadline: real, polls: nat -> Poll) returns (token: Option<Token>)
      requires Paced(polls)
      modifies cache
      ensures Waited(polls, deadline, token)
    {
      var n: nat := 0;
      while polls(n).checkedAt < deadline
        invariant forall i: nat :: i < n ==>
          polls(i).checkedAt < deadline && Readable(Find(polls(i).values, CACHE_KEY), polls(i).readAt).None?
        decreases if polls(n).checkedAt < deadline then ((deadline - polls(n).checkedAt) * 10.0).Floor + 1 else 0
      {
        cache.values := polls(n).values;
        token := ReadCachedToken(polls(n).readAt);
        if token.Some? {
          assert WaitEnds(polls, deadline, n, token);
          return;
        }
        assert polls(n + 1).checkedAt >= polls(n).checkedAt + 0.1;
        n := n + 1;
      }
      token := None;
      assert WaitEnds(polls, deadline, n, token);
    }

    /** `meanwhile` is the cache as other replicas left it when the lock is granted,
        and `polls` what a waiter meets. A usable cached token is returned without the
        lock; a held lock means waiting; a token stored meanwhile spares the request;
        otherwise the provider decides, and a token it gives is cached until a minute
        before it expires. The lock is then as free as it was. */
    method GetAccessToken(now: real, timeout: real, polls: nat -> Poll, meanwhile: map<string, Timed<Cached>>, reply: Option<Reply>)
      returns (answer: Answer, requested: bool)
      requires Paced(polls)
      modifies lock, cache
      ensures var cached, lease := Readable(Find(old(cache.values), CACHE_KEY), now), Alive(Find(old(lock.leases), LOCK_KEY), now);
        var second := Readable(Find(meanwhile, CACHE_KEY), now);
        && (requested <==> cached.None? && lease.None? && second.None?)
        && (cached.Some? ==> answer == Got(cached.value))
        && (cached.None? && lease.Some? ==>
              && !answer.ProviderFailed?
              && Waited(polls, now + timeout, if answer.Got? then Some(answer.token) else None))
        && (cached.None? && lease.None? ==>
              && (second.Some? ==> answer == Got(second.value))
              && Readable(Find(cache.values, CACHE_KEY), now) == (if answer.Got? then Some(answer.token) else None))
      ensures requested ==>
        && (answer.Got? <==> reply.Some? && reply.value.value != "" && reply.value.tokenType != "" && reply.value.expiresIn > 0.0)
        && (!answer.Got? ==> answer == ProviderFailed)
      ensures requested && answer.Got? ==>
        && answer.token.value == reply.value.value
        && answer.token.tokenType == reply.value.tokenType
        && answer.token.expiresAt == now + reply.value.expiresIn
        && CACHE_KEY in cache.values
        && cache.values[CACHE_KEY].value == Decoded(answer.token)
        && cache.values[CACHE_KEY].until == now + Max(1, reply.value.expiresIn.Floor - 60) as real
      ensures Alive(Find(lock.leases, LOCK_KEY), now) == Alive(Find(old(lock.leases), LOCK_KEY), now)
    {
      requested := false;
      var cached := ReadCachedToken(now);
      if cached.Some? {
        return Got(cached.value), false;
      }
      var granted := lock.Acquire(LOCK_KEY, Some(30), now);
      if !granted.Granted? {
        var token := WaitForRefresh(now + timeout, polls);
        return if token.Some? then Got(token.value) else StillRefreshing, false;
      }
      cache.values := meanwhile;
      cached := ReadCachedToken(now);
      if cached.Some? {
        answer := Got(cached.value);
      } else {
        requested := true;
        var token := Parsed(reply, now);
        if token.Some? {
          var _ := cache.Set(CACHE_KEY, Decoded(token.value), Some(Tokens.Ttl(token.value.expiresAt, now)), now);
          answer := Got(token.value);
        } else {
          answer := ProviderFailed;
        }
      }
      var _ := lock.Release(LOCK_KEY, granted.token, now);
    }
  }
}
