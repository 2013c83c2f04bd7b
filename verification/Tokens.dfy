/** The double-checked token refresh of several replicas over one lease and one
    cache entry, in real time. Reading the cache and looking at the clock are
    separate steps, and so are answering, computing the time to live and storing. */
module Tokens {
  import opened Basics
  import opened Leases

  type Replica = nat

  const LEASE: real := 30.0
  const SAFETY: int := 60
  /** A cached token is identified by when it expires. */
  type Entry = Timed<real>

  datatype Mode = First | Locked(token: nat, until: real) | Polling(deadline: real)

  datatype Phase =
    | Start(mode: Mode)
    | Got(mode: Mode, expiresAt: real, readAt: real)
    | Deleting(mode: Mode)
    | Missed(mode: Mode)
    | Requesting(token: nat, until: real, at: real)
    | Responded(token: nat, until: real, at: real, expiresAt: real, answer: nat)
    | Stamped(token: nat, until: real, at: real, expiresAt: real, ttl: int, answer: nat)
    | Releasing(token: nat)

  /** A refresh that reached the cache: when its request left, and what was stored. */
  datatype Stored = Stored(requestedAt: real, expiresAt: real, evictAt: real)

  /** What became of a provider answer: its holder still has it, or stored it until
      `evictAt`, or failed or crashed before it could. */
  datatype Fate = InHand | Kept(evictAt: real) | Dropped

  /** A successful provider request: when it left, and the fate of its answer. */
  datatype Answered = Answered(requestedAt: real, fate: Fate)

  /** A request to the provider, and how many refreshes had been stored by then. */
  datatype Request = Request(at: real, after: nat)

  datatype Served = Served(at: real, expiresAt: real)

  /** `stores`, `requests`, `answers` and `served` are history. */
  datatype State = State(
    now: real,
    lease: Option<Lease>,
    nextToken: nat,
    cache: Option<Entry>,
    replicas: map<Replica, Phase>,
    stores: seq<Stored>,
    requests: seq<Request>,
    answers: seq<Answered>,
    served: seq<Served>)

  const INIT := State(0.0, None, 0, None, map[], [], [], [], [])

  function Ttl(expiresAt: real, now: real): int {
    Max(1, (expiresAt - now).Floor - SAFETY)
  }

  function Go(s: State, r: Replica, p: Phase): State {
    s.(replicas := s.replicas[r := p])
  }

  function Leave(s: State, r: Replica): State {
    s.(replicas := s.replicas - {r})
  }

  function Read(s: State, r: Replica, mode: Mode): State {
    var entry := Alive(s.cache, s.now);
    Go(s, r, if entry.Some? then Got(mode, entry.value.value, s.now) else Missed(mode))
  }

  /** An expired entry is to be deleted; any other is served. */
  function Check(s: State, r: Replica, mode: Mode, expiresAt: real): State {
    if expiresAt <= s.now then Go(s, r, Deleting(mode))
    else
      var s1 := s.(served := s.served + [Served(s.now, expiresAt)]);
      if mode.Locked? then Go(s1, r, Releasing(mode.token)) else Leave(s1, r)
  }

  function Acquire(s: State, r: Replica, timeout: real): State {
    if Alive(s.lease, s.now).Some? then Go(s, r, Missed(Polling(s.now + timeout)))
    else
      Go(s.(lease := AfterAcquire(s.lease, s.nextToken, s.now, LEASE), nextToken := s.nextToken + 1),
         r, Start(Locked(s.nextToken, s.now + LEASE)))
  }

  function Poll(s: State, r: Replica, deadline: real): State {
    if s.now < deadline then Go(s, r, Start(Polling(deadline))) else Leave(s, r)
  }

  function Send(s: State, r: Replica, token: nat, until: real): State {
    Go(s.(requests := s.requests + [Request(s.now, |s.stores|)]), r, Requesting(token, until, s.now))
  }

  /** The index of the answer a phase still has to store. */
  function Pending(p: Phase): Option<nat> {
    match p
    case Responded(_, _, _, _, answer) => Some(answer)
    case Stamped(_, _, _, _, _, answer) => Some(answer)
    case _ => None
  }

  function Settle(answers: seq<Answered>, p: Phase, fate: Fate): seq<Answered> {
    if Pending(p).None? || Pending(p).value >= |answers| then answers
    else answers[Pending(p).value := answers[Pending(p).value].(fate := fate)]
  }

  function Respond(s: State, r: Replica, p: Phase, lifetime: real): State
    requires p.Requesting?
  {
    Go(s.(answers := s.answers + [Answered(p.at, InHand)]),
       r, Responded(p.token, p.until, p.at, s.now + lifetime, |s.answers|))
  }

  /** An error under the lock: whatever the phase still had to store is lost. */
  function GiveUp(s: State, r: Replica, p: Phase): State
    requires Lock(p).Some?
  {
    Go(s.(answers := Settle(s.answers, p, Dropped)), r, Releasing(Lock(p).value.value))
  }

  function Die(s: State, r: Replica, p: Phase): State {
    Leave(s.(answers := Settle(s.answers, p, Dropped)), r)
  }

  function Store(s: State, r: Replica, p: Phase): State
    requires p.Stamped?
  {
    var evictAt := s.now + p.ttl as real;
    Go(s.(cache := Some(Timed(p.expiresAt, evictAt)),
          stores := s.stores + [Stored(p.at, p.expiresAt, evictAt)],
          answers := Settle(s.answers, p, Kept(evictAt)),
          served := s.served + [Served(s.now, p.expiresAt)]),
       r, Releasing(p.token))
  }

  function Release(s: State, r: Replica, token: nat): State {
    Leave(s.(lease := AfterRelease(s.lease, token, s.now)), r)
  }

  /** The lock a phase holds, with its deadline. */
  function Lock(p: Phase): Option<Lease> {
    match p
    case Requesting(token, until, _) => Some(Timed(token, until))
    case Responded(token, until, _, _, _) => Some(Timed(token, until))
    case Stamped(token, until, _, _, _, _) => Some(Timed(token, until))
    case Releasing(_) => None
    case _ => if p.mode.Locked? then Some(Timed(p.mode.token, p.mode.until)) else None
  }

  datatype Step =
    | Tick(now: real)
    | Call(replica: Replica)
    | DoRead(replica: Replica)
    | DoCheck(replica: Replica)
    | DoDelete(replica: Replica)
    | DoAcquire(replica: Replica, timeout: real)
    | DoPoll(replica: Replica)
    | DoSend(replica: Replica)
    | DoRespond(replica: Replica, lifetime: real)
    | Fail(replica: Replica)
    | Stamp(replica: Replica)
    | DoStore(replica: Replica)
    | DoRelease(replica: Replica)
    | Crash(replica: Replica)

  ghost predicate Act(s: State, step: Step, p: Phase, s': State)
    requires !step.Tick? && !step.Call?
  {
    var r := step.replica;
    match step
    case DoRead(_) => p.Start? && s' == Read(s, r, p.mode)
    case DoCheck(_) => p.Got? && s' == Check(s, r, p.mode, p.expiresAt)
    case DoDelete(_) => p.Deleting? && s' == Go(s.(cache := None), r, Missed(p.mode))
    case DoAcquire(_, timeout) => p == Missed(First) && timeout >= 0.0 && s' == Acquire(s, r, timeout)
    case DoPoll(_) => p.Missed? && p.mode.Polling? && s' == Poll(s, r, p.mode.deadline)
    case DoSend(_) => p.Missed? && p.mode.Locked? && s' == Send(s, r, p.mode.token, p.mode.until)
    case DoRespond(_, lifetime) => p.Requesting? && lifetime > 0.0 && s' == Respond(s, r, p, lifetime)
    case Fail(_) => Lock(p).Some? && s' == GiveUp(s, r, p)
    case Stamp(_) =>
      p.Responded? && s' == Go(s, r, Stamped(p.token, p.until, p.at, p.expiresAt, Ttl(p.expiresAt, s.now), p.answer))
    case DoStore(_) => p.Stamped? && s' == Store(s, r, p)
    case DoRelease(_) => p.Releasing? && s' == Release(s, r, p.token)
    case Crash(_) => s' == Die(s, r, p)
  }

  ghost predicate Next(s: State, step: Step, s': State) {
    match step
    case Tick(now) => s.now <= now && s' == s.(now := now)
    case Call(r) => r !in s.replicas && s' == Go(s, r, Start(First))
    case _ => step.replica in s.replicas && Act(s, step, s.replicas[step.replica], s')
  }

  /** Lock holders are done before their lease ends, and replicas outside the lock
      look at the clock less than `prompt` seconds after they read an entry. */
  ghost predicate TimelyPhase(p: Phase, now: real, prompt: real) {
    && (Lock(p).Some? ==> now < Lock(p).value.until)
    && (p.Got? ==> Lock(p).Some? || now < p.readAt + prompt)
  }

  ghost predicate Timely(s: State, prompt: real) {
    forall r :: r in s.replicas ==> TimelyPhase(s.replicas[r], s.now, prompt)
  }

  /** What runs keep to: every token lives for at least `lifetime` seconds, and
      replicas outside the lock look at the clock within `prompt` seconds. */
  datatype Bounds = Bounds(lifetime: real, prompt: real)

  ghost predicate StepAt(states: seq<State>, steps: seq<Step>, k: int)
    requires |states| == |steps| + 1 && 0 <= k < |steps|
  {
    Next(states[k], steps[k], states[k + 1])
  }

  ghost predicate IsTimelyRun(states: seq<State>, steps: seq<Step>, b: Bounds) {
    && |states| == |steps| + 1
    && states[0] == INIT
    && (forall k :: 0 <= k < |steps| ==> StepAt(states, steps, k))
    && (forall k :: 0 <= k < |states| ==> Timely(states[k], b.prompt))
    && (forall k :: 0 <= k < |steps| && steps[k].DoRespond? ==> steps[k].lifetime >= b.lifetime)
  }

  // ---------------------------------------------------------------- promises

  /** Each request left after every earlier refresh had been evicted by its time to
      live, and so did the requests of any two refreshes that were stored. */
  ghost predicate Separated(s: State) {
    && (forall i, q :: 0 <= q < |s.requests| && 0 <= i < s.requests[q].after <= |s.stores| ==>
          s.stores[i].evictAt <= s.requests[q].at)
    && (forall i, j :: 0 <= i < j < |s.stores| ==> s.stores[i].evictAt <= s.stores[j].requestedAt)
  }

  /** Any two successful provider requests are separated by the eviction of the entry
      that the earlier one led to, unless its holder failed or crashed between the
      answer and the cache. */
  ghost predicate AnswersSeparated(answers: seq<Answered>) {
    forall i, j :: 0 <= i < j < |answers| ==>
      match answers[i].fate
      case InHand => false
      case Dropped => true
      case Kept(evictAt) => evictAt <= answers[j].requestedAt
  }

  /** Nobody is about to delete what the cache holds. */
  ghost predicate NoStaleDelete(s: State) {
    forall r :: r in s.replicas ==> !s.replicas[r].Deleting?
  }

  ghost predicate ServedUnexpired(s: State) {
    forall k :: 0 <= k < |s.served| ==> s.served[k].at < s.served[k].expiresAt
  }

  /** At most one replica is between its request and storing the answer. */
  ghost predicate SingleRequest(s: State) {
    forall q, r :: q in s.replicas && r in s.replicas && Lock(s.replicas[q]).Some? && Lock(s.replicas[r]).Some? ==> q == r
  }

  // --------------------------------------------------------------- invariant

  ghost predicate AllEvicted(stores: seq<Stored>, now: real) {
    forall i :: 0 <= i < |stores| ==> stores[i].evictAt <= now
  }

  /** The bounds under which refreshes stay separated. */
  predicate Separating(b: Bounds) {
    b.prompt <= 30.0 && b.lifetime >= 31.0 && b.lifetime >= 31.0 + b.prompt
  }

  /** How long before its token expires an entry is evicted at the latest. */
  function Margin(b: Bounds): real {
    if b.lifetime >= 61.0 then 30.0 else b.lifetime - 31.0
  }

  /** What a phase knows when entries are evicted `m` seconds before they expire. */
  ghost predicate PhaseOk(p: Phase, now: real, lease: Option<Lease>, nextToken: nat, stores: seq<Stored>, m: real) {
    && (Lock(p).Some? ==>
          lease == Lock(p) && Lock(p).value.value < nextToken && Lock(p).value.until <= now + LEASE)
    && match p
       case Start(mode) => true
       case Got(mode, expiresAt, readAt) =>
         expiresAt > readAt + m && (mode.Locked? ==> mode.until <= readAt + LEASE && AllEvicted(stores, expiresAt))
       case Deleting(mode) => mode.Locked? && m < 30.0 && AllEvicted(stores, now)
       case Missed(mode) => mode.Locked? ==> AllEvicted(stores, now)
       case Requesting(token, until, at) => AllEvicted(stores, at) && at <= now
       case Responded(token, until, at, expiresAt, _) => AllEvicted(stores, at) && at <= now && expiresAt >= until + 1.0 + m
       case Stamped(token, until, at, expiresAt, ttl, _) =>
         AllEvicted(stores, at) && at <= now && ttl as real <= expiresAt - until - m && ttl >= 1
       case Releasing(token) => token < nextToken
  }

  /** Lock tokens are unique, so that a late release never hits a successor. */
  ghost predicate TokensOk(replicas: map<Replica, Phase>) {
    && (forall q, r :: q in replicas && r in replicas && Lock(replicas[q]).Some? && Lock(replicas[r]).Some? ==> q == r)
    && (forall q, r :: q in replicas && r in replicas && replicas[q].Releasing? && Lock(replicas[r]).Some? ==>
          replicas[q].token != Lock(replicas[r]).value.value)
  }

  /** The cache holds the last store, unless a holder deleted it after its eviction. */
  ghost predicate StoresOk(cache: Option<Entry>, stores: seq<Stored>, now: real, m: real) {
    && (stores == [] ==> cache == None)
    && (stores != [] ==>
          var last := stores[|stores| - 1];
          cache == Some(Timed(last.expiresAt, last.evictAt)) || (cache == None && AllEvicted(stores, now)))
    && (forall i :: 0 <= i < |stores| ==> stores[i].evictAt < stores[i].expiresAt - m && stores[i].requestedAt <= stores[i].evictAt)
    && (forall i, j :: 0 <= i < j < |stores| ==> stores[i].evictAt <= stores[j].requestedAt)
  }

  ghost predicate RequestsOk(requests: seq<Request>, stores: seq<Stored>) {
    forall q :: 0 <= q < |requests| ==>
      && requests[q].after <= |stores|
      && forall i :: 0 <= i < requests[q].after ==> stores[i].evictAt <= requests[q].at
  }

  ghost predicate HeldBySome(replicas: map<Replica, Phase>, i: int) {
    exists r :: r in replicas && Pending(replicas[r]).Some? && Pending(replicas[r]).value == i
  }

  ghost predicate WasStored(stores: seq<Stored>, evictAt: real) {
    exists j :: 0 <= j < |stores| && stores[j].evictAt == evictAt
  }

  /** Only the last answer can still be held, and then by a replica. */
  ghost predicate AnswersOk(answers: seq<Answered>, stores: seq<Stored>, replicas: map<Replica, Phase>) {
    && AnswersSeparated(answers)
    && (forall i :: 0 <= i < |answers| && answers[i].fate.Kept? ==> WasStored(stores, answers[i].fate.evictAt))
    && (forall i :: 0 <= i < |answers| && answers[i].fate.InHand? ==> HeldBySome(replicas, i))
    && (forall r :: r in replicas && Pending(replicas[r]).Some? ==>
          Pending(replicas[r]).value == |answers| - 1 && answers[|answers| - 1].fate.InHand?)
  }

  ghost predicate PhasesOk(s: State, m: real) {
    forall r :: r in s.replicas ==> PhaseOk(s.replicas[r], s.now, s.lease, s.nextToken, s.stores, m)
  }

  ghost predicate LeaseOk(lease: Option<Lease>, nextToken: nat) {
    lease.Some? ==> lease.value.value < nextToken
  }

  /** The invariant for a margin `m`. */
  ghost predicate Inv(s: State, m: real) {
    && 0.0 <= m <= 30.0
    && PhasesOk(s, m)
    && TokensOk(s.replicas)
    && StoresOk(s.cache, s.stores, s.now, m)
    && RequestsOk(s.requests, s.stores)
    && AnswersOk(s.answers, s.stores, s.replicas)
    && ServedUnexpired(s)
    && LeaseOk(s.lease, s.nextToken)
  }

  // ------------------------------------------------------------------- steps

  lemma TickKeepsInv(s: State, s': State, m: real)
    requires Inv(s, m) && s.now <= s'.now && s' == s.(now := s'.now)
    ensures Inv(s', m)
  {
    forall r | r in s'.replicas ensures PhaseOk(s'.replicas[r], s'.now, s'.lease, s'.nextToken, s'.stores, m) {
      assert PhaseOk(s.replicas[r], s.now, s.lease, s.nextToken, s.stores, m);
    }
  }

  lemma LeaveKeepsTokens(replicas: map<Replica, Phase>, r: Replica)
    requires TokensOk(replicas)
    ensures TokensOk(replicas - {r})
  {
  }

  /** Replicas that keep their pending answers keep the answers in order. */
  lemma SamePending(answers: seq<Answered>, stores: seq<Stored>, replicas: map<Replica, Phase>, replicas': map<Replica, Phase>)
    requires AnswersOk(answers, stores, replicas)
    requires forall r :: r in replicas && Pending(replicas[r]).Some? ==> r in replicas' && Pending(replicas'[r]) == Pending(replicas[r])
    requires forall r :: r in replicas' && Pending(replicas'[r]).Some? ==> r in replicas && Pending(replicas'[r]) == Pending(replicas[r])
    ensures AnswersOk(answers, stores, replicas')
  {
    forall i | 0 <= i < |answers| && answers[i].fate.InHand? ensures HeldBySome(replicas', i) {
      var r :| r in replicas && Pending(replicas[r]).Some? && Pending(replicas[r]).value == i;
      assert r in replicas' && Pending(replicas'[r]).value == i;
    }
  }

  lemma LeaveKeepsInv(s: State, r: Replica, m: real)
    requires Inv(s, m) && (r in s.replicas ==> Pending(s.replicas[r]).None?)
    ensures Inv(Leave(s, r), m)
  {
    LeaveKeepsTokens(s.replicas, r);
    SamePending(s.answers, s.stores, s.replicas, s.replicas - {r});
  }

  /** Replacing the phase of `r` by one that holds the same lock or is done with it. */
  lemma GoKeepsTokens(replicas: map<Replica, Phase>, r: Replica, p: Phase)
    requires TokensOk(replicas)
    requires Lock(p).Some? ==> r in replicas && Lock(p) == Lock(replicas[r])
    requires p.Releasing? ==> r in replicas && Lock(replicas[r]).Some?
    ensures TokensOk(replicas[r := p])
  {
  }

  lemma GoKeepsInv(s: State, r: Replica, p: Phase, m: real)
    requires Inv(s, m) && PhaseOk(p, s.now, s.lease, s.nextToken, s.stores, m)
    requires Lock(p).Some? ==> r in s.replicas && Lock(p) == Lock(s.replicas[r])
    requires p.Releasing? ==> r in s.replicas && Lock(s.replicas[r]).Some?
    requires Pending(p) == if r in s.replicas then Pending(s.replicas[r]) else None
    ensures Inv(Go(s, r, p), m)
  {
    GoKeepsTokens(s.replicas, r, p);
    SamePending(s.answers, s.stores, s.replicas, s.replicas[r := p]);
  }

  lemma ReadKeepsInv(s: State, r: Replica, mode: Mode, m: real)
    requires Inv(s, m) && r in s.replicas && s.replicas[r] == Start(mode)
    ensures Inv(Read(s, r, mode), m)
  {
    assert PhaseOk(s.replicas[r], s.now, s.lease, s.nextToken, s.stores, m);
    var entry := Alive(s.cache, s.now);
    if entry.Some? {
      GoKeepsInv(s, r, Got(mode, entry.value.value, s.now), m);
    } else {
      NothingAlive(s.cache, s.stores, s.now, m);
      GoKeepsInv(s, r, Missed(mode), m);
    }
  }

  lemma NothingAlive(cache: Option<Entry>, stores: seq<Stored>, now: real, m: real)
    requires StoresOk(cache, stores, now, m) && Alive(cache, now).None?
    ensures AllEvicted(stores, now)
  {
    if stores != [] {
      var last := stores[|stores| - 1];
      assert last.requestedAt <= last.evictAt <= now;
    }
  }

  /** Looking at the clock in time, nobody outside the lock finds the entry expired,
      nor does a holder if the margin is 30 seconds; and if a holder does, the entry
      was evicted before. */
  lemma CheckKeepsInv(s: State, r: Replica, mode: Mode, expiresAt: real, readAt: real, m: real, prompt: real)
    requires Inv(s, m) && prompt <= m && r in s.replicas && s.replicas[r] == Got(mode, expiresAt, readAt)
    requires TimelyPhase(s.replicas[r], s.now, prompt)
    ensures s.now < expiresAt || (mode.Locked? && m < 30.0 && AllEvicted(s.stores, s.now))
    ensures Inv(Check(s, r, mode, expiresAt), m)
  {
    assert PhaseOk(s.replicas[r], s.now, s.lease, s.nextToken, s.stores, m);
    var s1 := s.(served := s.served + [Served(s.now, expiresAt)]);
    if expiresAt <= s.now {
      GoKeepsInv(s, r, Deleting(mode), m);
    } else if mode.Locked? {
      GoKeepsInv(s1, r, Releasing(mode.token), m);
    } else {
      LeaveKeepsInv(s1, r, m);
    }
  }

  /** What a holder deletes was evicted before. */
  lemma DeleteKeepsInv(s: State, r: Replica, mode: Mode, m: real)
    requires Inv(s, m) && r in s.replicas && s.replicas[r] == Deleting(mode)
    ensures Inv(Go(s.(cache := None), r, Missed(mode)), m)
  {
    assert PhaseOk(s.replicas[r], s.now, s.lease, s.nextToken, s.stores, m);
    GoKeepsInv(s.(cache := None), r, Missed(mode), m);
  }

  /** When the lease is not alive, no timely replica holds a lock. */
  lemma NoHolder(s: State, m: real, prompt: real)
    requires Inv(s, m) && Timely(s, prompt) && Alive(s.lease, s.now).None?
    ensures forall r :: r in s.replicas ==> Lock(s.replicas[r]).None?
  {
    forall r | r in s.replicas ensures Lock(s.replicas[r]).None? {
      assert PhaseOk(s.replicas[r], s.now, s.lease, s.nextToken, s.stores, m);
      assert TimelyPhase(s.replicas[r], s.now, prompt);
    }
  }

  lemma GrantKeepsPhases(s: State, r: Replica, s': State, m: real)
    requires PhasesOk(s, m) && forall q :: q in s.replicas ==> Lock(s.replicas[q]).None?
    requires s'.now == s.now && s'.stores == s.stores && s'.nextToken == s.nextToken + 1
    requires s'.lease == Some(Timed(s.nextToken, s.now + LEASE))
    requires s'.replicas == s.replicas[r := Start(Locked(s.nextToken, s.now + LEASE))]
    ensures PhasesOk(s', m)
  {
    forall q | q in s'.replicas ensures PhaseOk(s'.replicas[q], s'.now, s'.lease, s'.nextToken, s'.stores, m) {
      if q != r {
        assert PhaseOk(s.replicas[q], s.now, s.lease, s.nextToken, s.stores, m);
      }
    }
  }

  lemma OldTokens(s: State, m: real)
    requires PhasesOk(s, m)
    ensures forall q :: q in s.replicas && s.replicas[q].Releasing? ==> s.replicas[q].token < s.nextToken
  {
    forall q | q in s.replicas && s.replicas[q].Releasing? ensures s.replicas[q].token < s.nextToken {
      assert PhaseOk(s.replicas[q], s.now, s.lease, s.nextToken, s.stores, m);
    }
  }

  lemma GrantKeepsReplicas(s: State, r: Replica, replicas': map<Replica, Phase>, m: real)
    requires PhasesOk(s, m) && AnswersOk(s.answers, s.stores, s.replicas)
    requires (forall q :: q in s.replicas ==> Lock(s.replicas[q]).None?)
    requires replicas' == s.replicas[r := Start(Locked(s.nextToken, s.now + LEASE))]
    ensures TokensOk(replicas') && AnswersOk(s.answers, s.stores, replicas')
  {
    OldTokens(s, m);
    FreshToken(s.replicas, r, replicas', s.nextToken);
    forall q | q in s.replicas ensures Pending(s.replicas[q]).None? {
      assert Lock(s.replicas[q]).None?;
    }
    SamePending(s.answers, s.stores, s.replicas, replicas');
  }

  lemma AcquireKeepsInv(s: State, r: Replica, timeout: real, m: real, prompt: real)
    requires Inv(s, m) && Timely(s, prompt) && r in s.replicas && s.replicas[r] == Missed(First)
    ensures Inv(Acquire(s, r, timeout), m)
  {
    if Alive(s.lease, s.now).Some? {
      GoKeepsInv(s, r, Missed(Polling(s.now + timeout)), m);
    } else {
      GrantKeepsInv(s, r, timeout, m, prompt);
    }
  }

  lemma GrantKeepsInv(s: State, r: Replica, timeout: real, m: real, prompt: real)
    requires Inv(s, m) && Timely(s, prompt) && r in s.replicas && s.replicas[r] == Missed(First) && Alive(s.lease, s.now).None?
    ensures Inv(Acquire(s, r, timeout), m)
  {
    NoHolder(s, m, prompt);
    var s' := Acquire(s, r, timeout);
    GrantKeepsPhases(s, r, s', m);
    GrantKeepsReplicas(s, r, s'.replicas, m);
  }

  lemma FreshToken(replicas: map<Replica, Phase>, r: Replica, replicas': map<Replica, Phase>, token: nat)
    requires forall q :: q in replicas ==> Lock(replicas[q]).None? && (replicas[q].Releasing? ==> replicas[q].token < token)
    requires r in replicas' && Lock(replicas'[r]).Some? && Lock(replicas'[r]).value.value == token
    requires forall q :: q in replicas' && q != r ==> q in replicas && replicas'[q] == replicas[q]
    ensures TokensOk(replicas')
  {
  }

  lemma SendKeepsInv(s: State, r: Replica, token: nat, until: real, m: real)
    requires Inv(s, m) && r in s.replicas && s.replicas[r] == Missed(Locked(token, until))
    ensures Inv(Send(s, r, token, until), m)
  {
    assert PhaseOk(s.replicas[r], s.now, s.lease, s.nextToken, s.stores, m);
    var s1 := s.(requests := s.requests + [Request(s.now, |s.stores|)]);
    assert RequestsOk(s1.requests, s1.stores);
    GoKeepsInv(s1, r, Requesting(token, until, s.now), m);
  }

  /** The provider answers the one holder, so that nobody holds an earlier answer. */
  lemma NewAnswer(answers: seq<Answered>, stores: seq<Stored>, replicas: map<Replica, Phase>, r: Replica, at: real, p: Phase)
    requires AnswersOk(answers, stores, replicas) && AllEvicted(stores, at)
    requires forall q :: q in replicas ==> Pending(replicas[q]).None?
    requires Pending(p) == Some(|answers|)
    ensures AnswersOk(answers + [Answered(at, InHand)], stores, replicas[r := p])
  {
    var answers', replicas' := answers + [Answered(at, InHand)], replicas[r := p];
    forall i | 0 <= i < |answers| ensures !answers[i].fate.InHand? && (answers[i].fate.Kept? ==> answers[i].fate.evictAt <= at) {
      if answers[i].fate.Kept? {
        assert WasStored(stores, answers[i].fate.evictAt);
      }
    }
    assert HeldBySome(replicas', |answers|) by {
      assert r in replicas' && Pending(replicas'[r]).value == |answers|;
    }
  }

  lemma OnlyHolderPends(replicas: map<Replica, Phase>, r: Replica)
    requires TokensOk(replicas) && r in replicas && Lock(replicas[r]).Some?
    ensures forall q :: q in replicas && q != r ==> Pending(replicas[q]).None?
  {
  }

  lemma AnswerKeepsInv(s: State, r: Replica, lifetime: real, p: Phase, m: real)
    requires Inv(s, m) && r in s.replicas && s.replicas[r] == p && p.Requesting? && lifetime >= 31.0 + m
    ensures Inv(Respond(s, r, p, lifetime), m)
  {
    assert PhaseOk(p, s.now, s.lease, s.nextToken, s.stores, m);
    var p' := Responded(p.token, p.until, p.at, s.now + lifetime, |s.answers|);
    OnlyHolderPends(s.replicas, r);
    NewAnswer(s.answers, s.stores, s.replicas, r, p.at, p');
    GoKeepsTokens(s.replicas, r, p');
  }

  lemma StampKeepsInv(s: State, r: Replica, p: Phase, m: real)
    requires Inv(s, m) && r in s.replicas && s.replicas[r] == p && p.Responded?
    ensures Inv(Go(s, r, Stamped(p.token, p.until, p.at, p.expiresAt, Ttl(p.expiresAt, s.now), p.answer)), m)
  {
    assert PhaseOk(p, s.now, s.lease, s.nextToken, s.stores, m);
    GoKeepsInv(s, r, Stamped(p.token, p.until, p.at, p.expiresAt, Ttl(p.expiresAt, s.now), p.answer), m);
  }

  lemma AppendKeepsStores(cache: Option<Entry>, stores: seq<Stored>, e: Stored, now: real, m: real)
    requires StoresOk(cache, stores, now, m) && AllEvicted(stores, e.requestedAt)
    requires e.requestedAt <= e.evictAt < e.expiresAt - m
    ensures StoresOk(Some(Timed(e.expiresAt, e.evictAt)), stores + [e], now, m)
  {
  }

  lemma StoreKeepsRequests(requests: seq<Request>, stores: seq<Stored>, e: Stored)
    requires RequestsOk(requests, stores)
    ensures RequestsOk(requests, stores + [e])
  {
    forall q, i | 0 <= q < |requests| && 0 <= i < requests[q].after ensures (stores + [e])[i].evictAt <= requests[q].at {
      assert requests[q].after <= |stores|;
    }
  }

  /** The answer `r` had to store gets its fate, and `r` has none to store any more. */
  lemma Settled(answers: seq<Answered>, stores: seq<Stored>, replicas: map<Replica, Phase>, r: Replica, fate: Fate,
                stores': seq<Stored>, replicas': map<Replica, Phase>)
    requires AnswersOk(answers, stores, replicas) && TokensOk(replicas) && r in replicas && stores <= stores'
    requires !fate.InHand? && (fate.Kept? ==> WasStored(stores', fate.evictAt))
    requires forall q :: q in replicas' && Pending(replicas'[q]).Some? ==> q != r && q in replicas && replicas'[q] == replicas[q]
    requires forall q :: q in replicas && q != r ==> q in replicas' && replicas'[q] == replicas[q]
    ensures AnswersOk(Settle(answers, replicas[r], fate), stores', replicas')
  {
    forall e | WasStored(stores, e) ensures WasStored(stores', e) {
      var j :| 0 <= j < |stores| && stores[j].evictAt == e;
      assert stores'[j].evictAt == e;
    }
    if Pending(replicas[r]).Some? {
      OnlyHolderPends(replicas, r);
    } else {
      SamePending(answers, stores, replicas, replicas');
    }
  }

  lemma GiveUpKeepsInv(s: State, r: Replica, p: Phase, m: real)
    requires Inv(s, m) && r in s.replicas && s.replicas[r] == p && Lock(p).Some?
    ensures Inv(GiveUp(s, r, p), m)
  {
    assert PhaseOk(p, s.now, s.lease, s.nextToken, s.stores, m);
    GoKeepsTokens(s.replicas, r, Releasing(Lock(p).value.value));
    Settled(s.answers, s.stores, s.replicas, r, Dropped, s.stores, GiveUp(s, r, p).replicas);
  }

  lemma DieKeepsInv(s: State, r: Replica, p: Phase, m: real)
    requires Inv(s, m) && r in s.replicas && s.replicas[r] == p
    ensures Inv(Die(s, r, p), m)
  {
    LeaveKeepsTokens(s.replicas, r);
    Settled(s.answers, s.stores, s.replicas, r, Dropped, s.stores, s.replicas - {r});
  }

  /** Only `r` knew the cache empty. */
  lemma StoreKeepsPhases(s: State, r: Replica, p: Phase, s': State, m: real)
    requires PhasesOk(s, m) && TokensOk(s.replicas) && r in s.replicas && s.replicas[r] == p && p.Stamped?
    requires s'.replicas == s.replicas[r := Releasing(p.token)] && s'.now == s.now && s'.lease == s.lease && s'.nextToken == s.nextToken
    ensures PhasesOk(s', m)
  {
    assert PhaseOk(p, s.now, s.lease, s.nextToken, s.stores, m);
    forall q | q in s'.replicas ensures PhaseOk(s'.replicas[q], s'.now, s'.lease, s'.nextToken, s'.stores, m) {
      if q != r {
        assert PhaseOk(s.replicas[q], s.now, s.lease, s.nextToken, s.stores, m);
        assert Lock(s.replicas[q]).None?;
      }
    }
  }

  lemma StoreKeepsAnswers(s: State, r: Replica, p: Phase, e: Stored, replicas': map<Replica, Phase>)
    requires AnswersOk(s.answers, s.stores, s.replicas) && TokensOk(s.replicas) && r in s.replicas && s.replicas[r] == p
    requires p.Stamped? && replicas' == s.replicas[r := Releasing(p.token)]
    ensures AnswersOk(Settle(s.answers, p, Kept(e.evictAt)), s.stores + [e], replicas')
  {
    assert WasStored(s.stores + [e], e.evictAt) by {
      assert (s.stores + [e])[|s.stores|] == e;
    }
    Settled(s.answers, s.stores, s.replicas, r, Kept(e.evictAt), s.stores + [e], replicas');
  }

  lemma StoreKeepsInv(s: State, r: Replica, p: Phase, m: real, prompt: real)
    requires Inv(s, m) && r in s.replicas && s.replicas[r] == p && p.Stamped? && TimelyPhase(p, s.now, prompt)
    ensures Inv(Store(s, r, p), m)
  {
    assert PhaseOk(p, s.now, s.lease, s.nextToken, s.stores, m);
    var s' := Store(s, r, p);
    var e := Stored(p.at, p.expiresAt, s.now + p.ttl as real);
    AppendKeepsStores(s.cache, s.stores, e, s.now, m);
    StoreKeepsRequests(s.requests, s.stores, e);
    GoKeepsTokens(s.replicas, r, Releasing(p.token));
    StoreKeepsAnswers(s, r, p, e, s'.replicas);
    StoreKeepsPhases(s, r, p, s', m);
  }

  lemma ReleaseKeepsInv(s: State, r: Replica, token: nat, m: real)
    requires Inv(s, m) && r in s.replicas && s.replicas[r] == Releasing(token)
    ensures Inv(Release(s, r, token), m)
  {
    LeaveKeepsInv(s, r, m);
    var s' := Release(s, r, token);
    forall q | q in s'.replicas ensures PhaseOk(s'.replicas[q], s'.now, s'.lease, s'.nextToken, s'.stores, m) {
      assert PhaseOk(s.replicas[q], s.now, s.lease, s.nextToken, s.stores, m);
    }
  }

  lemma ActKeepsInv(s: State, step: Step, s': State, m: real, prompt: real)
    requires Inv(s, m) && Timely(s, prompt) && !step.Tick? && !step.Call?
    requires step.replica in s.replicas && Act(s, step, s.replicas[step.replica], s')
    requires prompt <= m && (step.DoRespond? ==> step.lifetime >= 31.0 + m)
    ensures Inv(s', m)
  {
    var r := step.replica;
    var p := s.replicas[r];
    assert PhaseOk(p, s.now, s.lease, s.nextToken, s.stores, m);
    assert TimelyPhase(p, s.now, prompt);
    match step
    case DoRead(_) => ReadKeepsInv(s, r, p.mode, m);
    case DoCheck(_) => CheckKeepsInv(s, r, p.mode, p.expiresAt, p.readAt, m, prompt);
    case DoDelete(_) => DeleteKeepsInv(s, r, p.mode, m);
    case DoAcquire(_, timeout) => AcquireKeepsInv(s, r, timeout, m, prompt);
    case DoPoll(_) =>
      if s.now < p.mode.deadline {
        GoKeepsInv(s, r, Start(p.mode), m);
      } else {
        LeaveKeepsInv(s, r, m);
      }
    case DoSend(_) => SendKeepsInv(s, r, p.mode.token, p.mode.until, m);
    case DoRespond(_, lifetime) => AnswerKeepsInv(s, r, lifetime, p, m);
    case Fail(_) => GiveUpKeepsInv(s, r, p, m);
    case Stamp(_) => StampKeepsInv(s, r, p, m);
    case DoStore(_) => StoreKeepsInv(s, r, p, m, prompt);
    case DoRelease(_) => ReleaseKeepsInv(s, r, p.token, m);
    case Crash(_) => DieKeepsInv(s, r, p, m);
  }

  lemma StepKeepsInv(s: State, step: Step, s': State, m: real, prompt: real)
    requires Inv(s, m) && Timely(s, prompt) && Next(s, step, s')
    requires prompt <= m && (step.DoRespond? ==> step.lifetime >= 31.0 + m)
    ensures Inv(s', m)
  {
    match step
    case Tick(now) => TickKeepsInv(s, s', m);
    case Call(r) => GoKeepsInv(s, r, Start(First), m);
    case _ => ActKeepsInv(s, step, s', m, prompt);
  }

  lemma {:induction false} RunInv(states: seq<State>, steps: seq<Step>, b: Bounds, k: nat)
    requires IsTimelyRun(states, steps, b) && Separating(b) && k < |states|
    ensures Inv(states[k], Margin(b))
  {
    if k > 0 {
      RunInv(states, steps, b, k - 1);
      assert StepAt(states, steps, k - 1);
      StepKeepsInv(states[k - 1], steps[k - 1], states[k], Margin(b), b.prompt);
    }
  }

  /** When readers outside the lock look at the clock within 30 seconds, and tokens
      live 31 seconds longer than that: single flight; any two answered requests are
      separated by the eviction of the earlier one's entry, but for answers that never
      reached the cache; and no expired token is handed out. From lifetimes of 61
      seconds on nothing stale is ever about to be deleted. */
  lemma SingleFlight(states: seq<State>, steps: seq<Step>, b: Bounds, k: nat)
    requires IsTimelyRun(states, steps, b) && Separating(b) && k < |states|
    ensures Separated(states[k])
    ensures AnswersSeparated(states[k].answers)
    ensures ServedUnexpired(states[k])
    ensures SingleRequest(states[k])
    ensures b.lifetime >= 61.0 ==> NoStaleDelete(states[k])
  {
    RunInv(states, steps, b, k);
    var s := states[k];
    forall r | r in s.replicas && b.lifetime >= 61.0 ensures !s.replicas[r].Deleting? {
      assert PhaseOk(s.replicas[r], s.now, s.lease, s.nextToken, s.stores, Margin(b));
    }
  }

  // ------------------------------------------------------------- the record

  /** What the promises speak of is what replicas do. A look at the clock serves an
      unexpired entry and marks an expired one for deletion; a poll reads again before
      the deadline and gives up after it; whoever holds the lock and found nothing asks
      the provider; and what is stored is served. */
  lemma StepsAreRecorded(states: seq<State>, steps: seq<Step>, b: Bounds, k: nat, r: Replica)
    requires IsTimelyRun(states, steps, b) && k < |steps| && !steps[k].Tick? && !steps[k].Call? && steps[k].replica == r
    ensures r in states[k].replicas
    ensures var s, s', p := states[k], states[k + 1], states[k].replicas[r];
      steps[k].DoCheck? ==>
        && p.Got?
        && (s.now < p.expiresAt ==>
              && s'.served == s.served + [Served(s.now, p.expiresAt)]
              && (r in s'.replicas <==> p.mode.Locked?)
              && (r in s'.replicas ==> s'.replicas[r] == Releasing(p.mode.token)))
        && (s.now >= p.expiresAt ==> s'.served == s.served && r in s'.replicas && s'.replicas[r] == Deleting(p.mode))
    ensures var s, s', p := states[k], states[k + 1], states[k].replicas[r];
      steps[k].DoPoll? ==>
        && p.Missed? && p.mode.Polling?
        && (r in s'.replicas <==> s.now < p.mode.deadline)
        && (r in s'.replicas ==> s'.replicas[r] == Start(p.mode))
    ensures var s, s', p := states[k], states[k + 1], states[k].replicas[r];
      steps[k].DoAcquire? ==>
        && r in s'.replicas
        && s'.replicas[r] == if s.lease.Some? && s.now < s.lease.value.until
                             then Missed(Polling(s.now + steps[k].timeout))
                             else Start(Locked(s.nextToken, s.now + 30.0))
    ensures var s, s' := states[k], states[k + 1];
      steps[k].DoSend? ==> s'.requests == s.requests + [Request(s.now, |s.stores|)]
    ensures var s, s', p := states[k], states[k + 1], states[k].replicas[r];
      steps[k].DoStore? ==> p.Stamped? && s'.served == s.served + [Served(s.now, p.expiresAt)]
  {
    assert StepAt(states, steps, k);
  }
}
