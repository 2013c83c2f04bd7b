/** The replay store and the profile update it guards, as coded, for calls that are
    not interleaved; the Replay module interleaves their commands. */
module ReplayApi {
  import opened Basics
  import opened Text
  import opened Leases
  import opened Replay

  datatype ClaimAnswer = Unusable | Claimed(claim: Claim) | Recorded(result: Result) | Conflicts | Busy

  class RedisRequestReplayStore {
    var store: Store
    var nextToken: nat

    constructor ()
      ensures store == map[] && nextToken == 0
    {
      store := map[];
      nextToken := 0;
    }

    /** Claims a free key with a token never used before; otherwise reports what the
        live record says to this fingerprint. */
    method ClaimKey(key: string, fingerprint: string, ttl: int, now: real) returns (answer: ClaimAnswer)
      modifies this
      ensures answer == Unusable <==> Strip(key) == "" || ttl <= 0
      ensures answer.Claimed? <==> Strip(key) != "" && ttl > 0 && Live(old(store), key, now).None?
      ensures answer.Claimed? ==>
        && answer.claim == Claim(key, fingerprint, old(nextToken), ttl as real)
        && nextToken == old(nextToken) + 1
        && store == SetNx(old(store), answer.claim, now)
        && Owns(store, answer.claim, now)
      ensures answer.Claimed? ==>
        && Find(store, key) == Some(Timed(Record(fingerprint, old(nextToken), None), now + ttl as real))
        && OthersKept(old(store), store, key)
      ensures !answer.Claimed? ==> store == old(store)
      ensures answer != Unusable && !answer.Claimed? ==>
        var record := Live(old(store), key, now).value;
        && (answer == Conflicts <==> record.fingerprint != fingerprint)
        && (answer.Recorded? <==> record.fingerprint == fingerprint && record.result.Some?)
        && (answer.Recorded? ==> answer.result == record.result.value)
    {
      if Strip(key) == "" || ttl <= 0 {
        return Unusable;
      }
      var claim := Claim(key, fingerprint, nextToken, ttl as real);
      nextToken := nextToken + 1;
      var created := Live(store, key, now).None?;
      store := SetNx(store, claim, now);
      if created {
        return Claimed(claim);
      }
      match Judge(Live(store, key, now), fingerprint) {
        case Conflict => return Conflicts;
        case Replayed(result) => return Recorded(result);
        case _ => return Busy;
      }
    }

    method CompleteClaim(claim: Claim, result: Result, now: real) returns (updated: bool)
      modifies this
      ensures nextToken == old(nextToken)
      ensures updated <==> Owns(old(store), claim, now)
      ensures store == Completed(old(store), claim, result, now)
      ensures updated <==> claim.key in old(store) && now < old(store)[claim.key].until && old(store)[claim.key].value.token == claim.token
      ensures updated ==>
        && Find(store, claim.key) == Some(Timed(old(store)[claim.key].value.(result := Some(result)), now + claim.ttl))
        && OthersKept(old(store), store, claim.key)
      ensures !updated ==> store == old(store)
    {
      match Live(store, claim.key, now) {
        case None => return false;
        case Some(record) =>
          if record.token != claim.token {
            return false;
          }
          store := store[claim.key := Timed(record.(result := Some(result)), now + claim.ttl)];
          return true;
      }
    }

    method AbortClaim(claim: Claim, now: real)
      modifies this
      ensures nextToken == old(nextToken)
      ensures store == Aborted(old(store), claim, now)
      ensures if claim.key in old(store) && now < old(store)[claim.key].until && old(store)[claim.key].value.token == claim.token
              then claim.key !in store && OthersKept(old(store), store, claim.key)
              else store == old(store)
    {
      match Live(store, claim.key, now) {
        case None =>
        case Some(record) =>
          if record.token == claim.token {
            store := store - {claim.key};
          }
      }
    }
  }

  /** What the client sees. */
  datatype Response = BadRequest | Conflict409 | Json(result: Result) | Error500

  const REPLAY_TTL: int := 86400

  class AccountRouter {
    const replays: RedisRequestReplayStore

    constructor (replays: RedisRequestReplayStore)
      ensures this.replays == replays
    {
      this.replays := replays;
    }

    /** `body` is what the handler returns, or `None` if it raises. The handler runs
        exactly when the key is free; a result stays to be replayed, a failure
        leaves the key free again. */
    method UpdateProfile(key: Option<string>, fingerprint: string, body: Option<string>, now: real)
      returns (response: Response, handled: bool)
      modifies replays
      ensures handled <==> key.Some? && Strip(key.value) != "" && Live(old(replays.store), key.value, now).None?
      ensures response == BadRequest <==> key.None? || key.value == ""
      ensures key.Some? && key.value != "" && Strip(key.value) == "" ==> response == Error500
      ensures handled && body.Some? ==>
        && response == Json(Result(200, body.value))
        && (forall t :: now <= t < now + 86400.0 ==>
              Live(replays.store, key.value, t) == Some(Record(fingerprint, old(replays.nextToken), Some(Result(200, body.value)))))
        && (forall t :: t >= now + 86400.0 ==> Live(replays.store, key.value, t) == None)
      ensures handled && body.None? ==> response == Error500 && Live(replays.store, key.value, now).None?
      ensures !handled ==> replays.store == old(replays.store)
      ensures !handled && key.Some? && Strip(key.value) != "" ==>
        var record := Live(old(replays.store), key.value, now).value;
        response == if record.fingerprint == fingerprint && record.result.Some? then Json(record.result.value) else Conflict409
    {
      if key.None? || key.value == "" {
        return BadRequest, false;
      }
      var answer := replays.ClaimKey(key.value, fingerprint, REPLAY_TTL, now);
      match answer {
        case Unusable => return Error500, false;
        case Conflicts => return Conflict409, false;
        case Busy => return Conflict409, false;
        case Recorded(result) => return Json(result), false;
        case Claimed(claim) =>
          handled := true;
          if body.Some? {
            var result := Result(200, body.value);
            var updated := replays.CompleteClaim(claim, result, now);
            if updated {
              return Json(result), true;
            }
          }
          replays.AbortClaim(claim, now);
          return Error500, true;
      }
    }
  }
}
