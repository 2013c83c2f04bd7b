/** The bounds of the token coordinator are exact: outside them, runs that keep every
    deadline delete a fresh token or ask the provider again too early. */
module TokenThreshold {
  import opened Basics
  import opened Leases
  import opened Tokens

  ghost predicate Reachable(s: State, b: Bounds) {
    exists states, steps :: IsTimelyRun(states, steps, b) && states[|steps|] == s
  }

  ghost predicate AlwaysSeparated(b: Bounds) {
    forall s :: Reachable(s, b) ==> Separated(s)
  }

  ghost predicate NeverStale(b: Bounds) {
    forall s :: Reachable(s, b) ==> NoStaleDelete(s)
  }

  lemma InitReachable(b: Bounds)
    ensures Reachable(INIT, b)
  {
    assert IsTimelyRun([INIT], [], b);
  }

  lemma Extend(s: State, step: Step, s': State, b: Bounds)
    requires Reachable(s, b) && Next(s, step, s') && Timely(s', b.prompt)
    requires step.DoRespond? ==> step.lifetime >= b.lifetime
    ensures Reachable(s', b)
  {
    var states, steps :| IsTimelyRun(states, steps, b) && states[|steps|] == s;
    var states', steps' := states + [s'], steps + [step];
    forall k | 0 <= k < |steps'| ensures StepAt(states', steps', k) {
      if k < |steps| {
        assert StepAt(states, steps, k);
      }
    }
    assert IsTimelyRun(states', steps', b);
  }

  // --------------------------------------------------------- a whole refresh

  /** `r` becomes the holder of a new lease and sends its request, all at once. */
  function Sent(s: State, r: Replica): State {
    s.(lease := Some(Timed(s.nextToken, s.now + LEASE)), nextToken := s.nextToken + 1,
       replicas := s.replicas[r := Requesting(s.nextToken, s.now + LEASE, s.now)],
       requests := s.requests + [Request(s.now, |s.stores|)])
  }

  lemma AcquireAndSend(s: State, r: Replica, b: Bounds)
    requires Reachable(s, b) && Timely(s, b.prompt) && r in s.replicas && s.replicas[r] == Missed(First)
    requires Alive(s.lease, s.now).None? && Alive(s.cache, s.now).None?
    ensures Reachable(Sent(s, r), b) && Timely(Sent(s, r), b.prompt)
  {
    var s1 := Acquire(s, r, 0.0);
    Extend(s, DoAcquire(r, 0.0), s1, b);
    var s2 := Read(s1, r, Locked(s.nextToken, s.now + LEASE));
    Extend(s1, DoRead(r), s2, b);
    var s3 := Send(s2, r, s.nextToken, s.now + LEASE);
    Extend(s2, DoSend(r), s3, b);
    assert s3 == Sent(s, r);
  }

  /** A refresh begun at `s.now`, whose answer is stamped at `v` and stored at `u`. */
  function Refreshed(s: State, span: real, v: real, u: real): State {
    var expiresAt := s.now + span;
    var evictAt := u + Ttl(expiresAt, v) as real;
    s.(now := u, lease := None, nextToken := s.nextToken + 1,
       cache := Some(Timed(expiresAt, evictAt)),
       stores := s.stores + [Stored(s.now, expiresAt, evictAt)],
       requests := s.requests + [Request(s.now, |s.stores|)],
       answers := s.answers + [Answered(s.now, Kept(evictAt))],
       served := s.served + [Served(u, expiresAt)])
  }

  /** `r` holds the lease it took at `s.now`, and the answer to its request of then. */
  function Waiting(s: State, r: Replica, p: Phase, at: real): State {
    s.(now := at, lease := Some(Timed(s.nextToken, s.now + LEASE)), nextToken := s.nextToken + 1,
       replicas := s.replicas[r := p], requests := s.requests + [Request(s.now, |s.stores|)],
       answers := s.answers + [Answered(s.now, InHand)])
  }

  /** Replicas that are in time at `u` were so before. */
  lemma TimelyGo(s: State, r: Replica, p: Phase, at: real, u: real, s': State, prompt: real)
    requires Timely(s.(now := u), prompt) && at <= u && TimelyPhase(p, at, prompt)
    requires s'.now == at && s'.replicas == s.replicas[r := p]
    ensures Timely(s', prompt)
  {
    forall q | q in s'.replicas ensures TimelyPhase(s'.replicas[q], at, prompt) {
      if q != r {
        assert TimelyPhase(s.(now := u).replicas[q], u, prompt);
      }
    }
  }

  lemma Refresh(s: State, r: Replica, span: real, v: real, u: real, b: Bounds)
    requires Reachable(s, b) && Timely(s, b.prompt) && Timely(s.(now := u), b.prompt) && r !in s.replicas
    requires Alive(s.lease, s.now).None? && Alive(s.cache, s.now).None?
    requires s.now <= v <= u < s.now + LEASE && span >= b.lifetime && span > 0.0
    ensures Reachable(Refreshed(s, span, v, u), b) && Timely(Refreshed(s, span, v, u), b.prompt)
  {
    var s1 := Go(s, r, Start(First));
    Extend(s, Call(r), s1, b);
    var s2 := Read(s1, r, First);
    Extend(s1, DoRead(r), s2, b);
    AcquireAndSend(s2, r, b);
    Answer(s, r, span, v, u, Sent(s2, r), b);
  }

  lemma Answer(s: State, r: Replica, span: real, v: real, u: real, c: State, b: Bounds)
    requires Timely(s.(now := u), b.prompt) && r !in s.replicas
    requires s.now <= v <= u < s.now + LEASE && span >= b.lifetime && span > 0.0
    requires Reachable(c, b) && c == Sent(Go(s, r, Missed(First)), r)
    ensures Reachable(Refreshed(s, span, v, u), b) && Timely(Refreshed(s, span, v, u), b.prompt)
  {
    var p := Responded(s.nextToken, s.now + LEASE, s.now, s.now + span, |s.answers|);
    var d := Waiting(s, r, p, s.now);
    assert d == Respond(c, r, c.replicas[r], span);
    TimelyGo(s, r, p, s.now, u, d, b.prompt);
    Extend(c, DoRespond(r, span), d, b);
    var e := Waiting(s, r, p, v);
    TimelyGo(s, r, p, v, u, e, b.prompt);
    Extend(d, Tick(v), e, b);
    Finish(s, r, span, v, u, e, b);
  }

  lemma Finish(s: State, r: Replica, span: real, v: real, u: real, e: State, b: Bounds)
    requires Timely(s.(now := u), b.prompt) && r !in s.replicas && v <= u < s.now + LEASE && Reachable(e, b)
    requires e == Waiting(s, r, Responded(s.nextToken, s.now + LEASE, s.now, s.now + span, |s.answers|), v)
    ensures Reachable(Refreshed(s, span, v, u), b) && Timely(Refreshed(s, span, v, u), b.prompt)
  {
    var p := Stamped(s.nextToken, s.now + LEASE, s.now, s.now + span, Ttl(s.now + span, v), |s.answers|);
    var f := Waiting(s, r, p, v);
    TimelyGo(s, r, p, v, u, f, b.prompt);
    assert f == Go(e, r, p);
    Extend(e, Stamp(r), f, b);
    var g := Waiting(s, r, p, u);
    TimelyGo(s, r, p, u, u, g, b.prompt);
    Extend(f, Tick(u), g, b);
    PutAndRelease(s, r, span, v, u, g, p, b);
  }

  /** `r` has stored its answer at `u` and has still to release the lock. */
  function Put(s: State, r: Replica, span: real, v: real, u: real): State {
    Refreshed(s, span, v, u).(lease := Some(Timed(s.nextToken, s.now + LEASE)), replicas := s.replicas[r := Releasing(s.nextToken)])
  }

  lemma PutAndRelease(s: State, r: Replica, span: real, v: real, u: real, f: State, p: Phase, b: Bounds)
    requires Timely(s.(now := u), b.prompt) && r !in s.replicas && u < s.now + LEASE
    requires p == Stamped(s.nextToken, s.now + LEASE, s.now, s.now + span, Ttl(s.now + span, v), |s.answers|)
    requires Reachable(f, b) && f == Waiting(s, r, p, u)
    ensures Reachable(Refreshed(s, span, v, u), b) && Timely(Refreshed(s, span, v, u), b.prompt)
  {
    var g := Put(s, r, span, v, u);
    assert g == Store(f, r, p);
    TimelyGo(s, r, Releasing(s.nextToken), u, u, g, b.prompt);
    Extend(f, DoStore(r), g, b);
    LetGo(s, r, span, v, u, g, b);
  }

  lemma LetGo(s: State, r: Replica, span: real, v: real, u: real, g: State, b: Bounds)
    requires Timely(s.(now := u), b.prompt) && r !in s.replicas && u < s.now + LEASE
    requires Reachable(g, b) && g == Put(s, r, span, v, u)
    ensures Reachable(Refreshed(s, span, v, u), b) && Timely(Refreshed(s, span, v, u), b.prompt)
  {
    var h := Refreshed(s, span, v, u);
    assert g.replicas - {r} == s.replicas;
    assert h == Release(g, r, s.nextToken);
    forall q | q in h.replicas ensures TimelyPhase(h.replicas[q], u, b.prompt) {
      assert TimelyPhase(s.(now := u).replicas[q], u, b.prompt);
    }
    Extend(g, DoRelease(r), h, b);
  }

  // ------------------------------------------- a slow reader outside the lock

  /** Long enough for a token that outlives all of this. */
  function LongSpan(b: Bounds): real {
    if b.lifetime >= 1000.0 then b.lifetime else 1000.0
  }

  lemma ReadAt(s: State, t: real, b: Bounds) returns (s': State)
    requires Reachable(s, b) && s.replicas == map[] && s.now <= t && b.prompt > 0.0 && Alive(s.cache, t).Some?
    ensures s' == s.(now := t, replicas := map[1 := Got(First, s.cache.value.value, t)])
    ensures Reachable(s', b)
  {
    var s1 := s.(now := t);
    Extend(s, Tick(t), s1, b);
    var s2 := Go(s1, 1, Start(First));
    Extend(s1, Call(1), s2, b);
    s' := Read(s2, 1, First);
    Extend(s2, DoRead(1), s', b);
  }

  lemma LookAt(s: State, expiresAt: real, readAt: real, c: real, b: Bounds) returns (s': State)
    requires Reachable(s, b) && s.replicas == map[1 := Got(First, expiresAt, readAt)] && s.now <= c
    requires expiresAt <= c < readAt + b.prompt
    ensures s' == s.(now := c, replicas := map[1 := Deleting(First)]) && Reachable(s', b)
  {
    var s1 := s.(now := c);
    Extend(s, Tick(c), s1, b);
    s' := Check(s1, 1, First, expiresAt);
    Extend(s1, DoCheck(1), s', b);
  }

  /** The delete hits what another replica has stored in the meantime, and the
      deleter asks the provider again. */
  lemma DeleteFresh(s: State, w: real, b: Bounds) returns (early: State)
    requires Reachable(s, b) && s.replicas == map[1 := Deleting(First)] && s.now <= w && |s.stores| == 1
    requires s.lease == None && Alive(s.cache, w).None?
    ensures Reachable(early, b) && !Separated(early)
  {
    var s1 := s.(now := w);
    Extend(s, Tick(w), s1, b);
    var span := LongSpan(b);
    Refresh(s1, 2, span, w, w, b);
    var s2 := Refreshed(s1, span, w, w);
    assert Ttl(w + span, w) >= 940;
    var s3 := Go(s2.(cache := None), 1, Missed(First));
    Extend(s2, DoDelete(1), s3, b);
    AcquireAndSend(s3, 1, b);
    early := Sent(s3, 1);
    var q := |early.requests| - 1;
    assert early.requests[q] == Request(w, 2) && early.stores[1].evictAt > w;
  }

  /** An entry is stamped at `v` and stored at `u`; a reader reads it `e` seconds
      before it is evicted and looks at the clock when the token has expired. */
  lemma SlowReader(b: Bounds, span: real, v: real, u: real, e: real) returns (stale: State, early: State)
    requires span >= b.lifetime && span > 0.0 && 0.0 <= v <= u < LEASE && e > 0.0
    requires var t := u + Ttl(span, v) as real - e; u <= t && span < t + b.prompt && b.prompt > 0.0
    ensures Reachable(stale, b) && !NoStaleDelete(stale)
    ensures Reachable(early, b) && !Separated(early)
  {
    var evictAt := u + Ttl(span, v) as real;
    var t := evictAt - e;
    InitReachable(b);
    Refresh(INIT, 0, span, v, u, b);
    var s1 := Refreshed(INIT, span, v, u);
    assert s1.cache == Some(Timed(span, evictAt)) && |s1.stores| == 1;
    var s2 := ReadAt(s1, t, b);
    var c := if span >= t then span else t;
    stale := LookAt(s2, span, t, c, b);
    assert stale.replicas[1].Deleting?;
    early := DeleteFresh(stale, if c >= evictAt then c else evictAt, b);
  }

  /** Readers that may take more than 30 seconds: a whole number of seconds makes the
      time to live as long as it gets. */
  lemma TooSlow(b: Bounds) returns (stale: State, early: State)
    requires b.prompt > 30.0
    ensures Reachable(stale, b) && !NoStaleDelete(stale)
    ensures Reachable(early, b) && !Separated(early)
  {
    var least := if b.lifetime >= 61.0 then b.lifetime else 61.0;
    var seconds := least.Floor + 1;
    var span := seconds as real;
    var e := if b.prompt >= 32.0 then 0.5 else (b.prompt - 30.0) / 4.0;
    assert Ttl(span, 0.0) == seconds - 60;
    stale, early := SlowReader(b, span, 0.0, 30.0 - e, e);
  }

  /** Tokens that live less than 31 seconds longer than readers may take. */
  lemma TooShort(b: Bounds) returns (stale: State, early: State)
    requires 0.0 < b.prompt <= 30.0 && 31.0 <= b.lifetime < 31.0 + b.prompt
    ensures Reachable(stale, b) && !NoStaleDelete(stale)
    ensures Reachable(early, b) && !Separated(early)
  {
    var room := 31.0 + b.prompt - b.lifetime;
    var e := if room >= 2.0 then 0.5 else room / 4.0;
    assert Ttl(b.lifetime, 30.0 - e) == 1;
    stale, early := SlowReader(b, b.lifetime, 30.0 - e, 30.0 - e, e);
  }

  // --------------------------------------------------- a slow reader under it

  /** Replica 1 has missed the cache before replica 0 refreshes it. */
  lemma MissBefore(b: Bounds, span: real, u: real) returns (s: State)
    requires span >= b.lifetime && span > 0.0 && 0.0 <= u < LEASE
    ensures s == Refreshed(INIT.(replicas := map[1 := Missed(First)]), span, u, u) && Reachable(s, b) && Timely(s, b.prompt)
  {
    InitReachable(b);
    var s1 := Go(INIT, 1, Start(First));
    Extend(INIT, Call(1), s1, b);
    var s2 := Read(s1, 1, First);
    Extend(s1, DoRead(1), s2, b);
    assert s2 == INIT.(replicas := map[1 := Missed(First)]);
    Refresh(s2, 0, span, u, u, b);
    s := Refreshed(s2, span, u, u);
  }

  /** It then gets the lock at `t`, finds the entry alive, and looks at the clock when
      the token has expired. */
  lemma LockedLook(s: State, t: real, c: real, b: Bounds) returns (s': State)
    requires Reachable(s, b) && s.replicas == map[1 := Missed(First)] && s.lease == None && s.now <= t <= c < t + LEASE
    requires Alive(s.cache, t).Some? && s.cache.value.value <= c
    ensures s' == s.(now := c, lease := Some(Timed(s.nextToken, t + LEASE)), nextToken := s.nextToken + 1,
                     replicas := map[1 := Deleting(Locked(s.nextToken, t + LEASE))])
    ensures Reachable(s', b)
  {
    var s1 := s.(now := t);
    Extend(s, Tick(t), s1, b);
    var mode := Locked(s.nextToken, t + LEASE);
    var s2 := Acquire(s1, 1, 0.0);
    Extend(s1, DoAcquire(1, 0.0), s2, b);
    var s3 := Read(s2, 1, mode);
    Extend(s2, DoRead(1), s3, b);
    var s4 := s3.(now := c);
    Extend(s3, Tick(c), s4, b);
    s' := Check(s4, 1, mode, s.cache.value.value);
    Extend(s4, DoCheck(1), s', b);
  }

  /** If that is before the eviction, its request leaves too early. */
  lemma LockedDelete(s: State, b: Bounds) returns (early: State)
    requires Reachable(s, b) && 1 in s.replicas && s.replicas.Keys == {1} && |s.stores| == 1 && s.now < s.stores[0].evictAt
    requires s.replicas[1].Deleting? && s.replicas[1].mode.Locked? && s.now < s.replicas[1].mode.until
    ensures Reachable(early, b) && !Separated(early)
  {
    var mode := s.replicas[1].mode;
    var s1 := Go(s.(cache := None), 1, Missed(mode));
    Extend(s, DoDelete(1), s1, b);
    early := Send(s1, 1, mode.token, mode.until);
    Extend(s1, DoSend(1), early, b);
    var q := |early.requests| - 1;
    assert early.requests[q] == Request(s.now, 1);
  }

  function Span(lifetime: real): real {
    if lifetime > 0.0 then lifetime else 1.0
  }

  /** Below 61 seconds a holder that reads just before the eviction may find the token
      expired, however prompt everybody else is. */
  lemma StaleHolder(b: Bounds) returns (stale: State)
    requires b.lifetime < 61.0
    ensures Reachable(stale, b) && !NoStaleDelete(stale)
    ensures stale.replicas.Keys == {1} && stale.replicas[1].Deleting? && stale.replicas[1].mode.Locked?
    ensures stale.now < stale.replicas[1].mode.until && |stale.stores| == 1
    ensures b.lifetime < 31.0 ==> stale.now < stale.stores[0].evictAt
  {
    var span := Span(b.lifetime);
    var room := (if span < 31.0 then 31.0 else 61.0) - span;
    var e := if room >= 2.0 then 0.5 else room / 4.0;
    var u, t := 30.0 - e, 31.0 - 2.0 * e;
    assert Ttl(span, u) == 1;
    var s := MissBefore(b, span, u);
    assert s.cache == Some(Timed(span, 31.0 - e));
    stale := LockedLook(s, t, if span >= t then span else t, b);
    assert stale.replicas[1].Deleting?;
  }

  // ------------------------------------------------ answers that get lost

  /** `r` asks the provider and is answered, all at `s.now`. */
  lemma AskAndAnswer(s: State, r: Replica, span: real, b: Bounds) returns (d: State)
    requires Reachable(s, b) && Timely(s, b.prompt) && s.replicas == map[] && span >= b.lifetime && span > 0.0
    requires Alive(s.lease, s.now).None? && Alive(s.cache, s.now).None?
    ensures Reachable(d, b) && Timely(d, b.prompt)
    ensures d == s.(lease := Some(Timed(s.nextToken, s.now + LEASE)), nextToken := s.nextToken + 1,
                    replicas := map[r := Responded(s.nextToken, s.now + LEASE, s.now, s.now + span, |s.answers|)],
                    requests := s.requests + [Request(s.now, |s.stores|)],
                    answers := s.answers + [Answered(s.now, InHand)])
  {
    var s1 := Go(s, r, Start(First));
    Extend(s, Call(r), s1, b);
    var s2 := Read(s1, r, First);
    Extend(s1, DoRead(r), s2, b);
    AcquireAndSend(s2, r, b);
    var s3 := Sent(s2, r);
    d := Respond(s3, r, s3.replicas[r], span);
    Extend(s3, DoRespond(r, span), d, b);
  }

  /** Whatever the bounds, an error between a provider answer and the cache frees the
      lock at once: two answered requests of timely holders at one and the same
      instant. */
  lemma FailedHolderRun(b: Bounds) returns (s: State)
    ensures Reachable(s, b) && |s.answers| == 2 && s.stores == []
    ensures s.answers[0].fate == Dropped && s.answers[1].requestedAt == s.answers[0].requestedAt
  {
    var span := LongSpan(b);
    InitReachable(b);
    var s1 := AskAndAnswer(INIT, 0, span, b);
    var s2 := GiveUp(s1, 0, s1.replicas[0]);
    Extend(s1, Fail(0), s2, b);
    var s3 := Release(s2, 0, 0);
    Extend(s2, DoRelease(0), s3, b);
    s := AskAndAnswer(s3, 1, span, b);
  }

  /** A crash there leaves the lock to expire: the next answered request may leave as
      soon as the lease ends. */
  lemma CrashedHolderRun(b: Bounds) returns (s: State)
    ensures Reachable(s, b) && |s.answers| == 2 && s.stores == []
    ensures s.answers[0].fate == Dropped && s.answers[1].requestedAt == s.answers[0].requestedAt + LEASE
  {
    var span := LongSpan(b);
    InitReachable(b);
    var s1 := AskAndAnswer(INIT, 0, span, b);
    var s2 := Die(s1, 0, s1.replicas[0]);
    Extend(s1, Crash(0), s2, b);
    var s3 := s2.(now := LEASE);
    Extend(s2, Tick(LEASE), s3, b);
    s := AskAndAnswer(s3, 1, span, b);
  }

  // --------------------------------------------------------- exact bounds

  lemma ReachableIsSafe(s: State, b: Bounds)
    requires Reachable(s, b) && Separating(b)
    ensures Separated(s) && (b.lifetime >= 61.0 ==> NoStaleDelete(s))
  {
    var states, steps :| IsTimelyRun(states, steps, b) && states[|steps|] == s;
    SingleFlight(states, steps, b, |steps|);
  }

  /** A run outside the bounds in which a request leaves too early. */
  lemma EarlyRequest(b: Bounds) returns (early: State)
    requires !Separating(b)
    ensures Reachable(early, b) && !Separated(early)
  {
    if b.prompt > 30.0 {
      var _, s := TooSlow(b);
      early := s;
    } else if b.lifetime < 31.0 {
      var s := StaleHolder(b);
      early := LockedDelete(s, b);
    } else {
      var _, s := TooShort(b);
      early := s;
    }
  }

  lemma StaleDelete(b: Bounds) returns (stale: State)
    requires b.prompt > 30.0 || b.lifetime < 61.0
    ensures Reachable(stale, b) && !NoStaleDelete(stale)
  {
    if b.lifetime < 61.0 {
      stale := StaleHolder(b);
    } else {
      var s, _ := TooSlow(b);
      stale := s;
    }
  }

  /** Runs with timely holders, tokens that live for at least `lifetime` seconds, and
      readers outside the lock that look at the clock within `prompt` seconds: all of
      them separate their refreshes if and only if `prompt` is at most 30 and
      `lifetime` at least 31 and at least 31 more than `prompt`; all of them avoid the
      stale delete if and only if `prompt` is at most 30 and `lifetime` at least 61. */
  lemma ExactThreshold(b: Bounds)
    ensures AlwaysSeparated(b) <==> b.prompt <= 30.0 && b.lifetime >= 31.0 && b.lifetime >= 31.0 + b.prompt
    ensures NeverStale(b) <==> b.prompt <= 30.0 && b.lifetime >= 61.0
  {
    if Separating(b) {
      forall s | Reachable(s, b) ensures Separated(s) && (b.lifetime >= 61.0 ==> NoStaleDelete(s)) {
        ReachableIsSafe(s, b);
      }
    } else {
      var early := EarlyRequest(b);
    }
    if b.prompt > 30.0 || b.lifetime < 61.0 {
      var stale := StaleDelete(b);
    }
  }
}
