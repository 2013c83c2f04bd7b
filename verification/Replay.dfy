/** Idempotent requests: the replay record of a key, and clients that claim it, run
    their handler and complete or abort, one Redis command at a time. */
module Replay {
  import opened Basics
  import opened Text
  import opened Leases

  type Client = nat
  type User = nat

  datatype Result = Result(code: int, body: string)

  /** A pending record, or a completed one with its result. */
  datatype Record = Record(fingerprint: string, token: nat, result: Option<Result>)

  type Store = map<string, Timed<Record>>

  datatype Claim = Claim(key: string, fingerprint: string, token: nat, ttl: real)

  // ------------------------------------------------------------ the commands

  function Live(store: Store, key: string, now: real): Option<Record> {
    match Alive(Find(store, key), now)
    case None => None
    case Some(t) => Some(t.value)
  }

  function SetNx(store: Store, c: Claim, now: real): Store {
    if Live(store, c.key, now).Some? then store
    else store[c.key := Timed(Record(c.fingerprint, c.token, None), now + c.ttl)]
  }

  /** Both scripts act only on a live record that carries the caller's token. */
  predicate Owns(store: Store, c: Claim, now: real) {
    Live(store, c.key, now).Some? && Live(store, c.key, now).value.token == c.token
  }

  function Completed(store: Store, c: Claim, result: Result, now: real): Store {
    if !Owns(store, c, now) then store
    else store[c.key := Timed(store[c.key].value.(result := Some(result)), now + c.ttl)]
  }

  function Aborted(store: Store, c: Claim, now: real): Store {
    if !Owns(store, c, now) then store else store - {c.key}
  }

  /** What a claimer that found the key taken makes of the record it reads. */
  datatype Outcome = InProgress | Conflict | Replayed(result: Result) | Returned(result: Result) | Failed

  function Judge(record: Option<Record>, fingerprint: string): Outcome {
    if record.None? then InProgress
    else if record.value.fingerprint != fingerprint then Conflict
    else if record.value.result.Some? then Replayed(record.value.result.value)
    else InProgress
  }

  // ------------------------------------------------------------- the machine

  datatype Phase =
    | Asking(user: User, key: string, fingerprint: string, ttl: real)
    | Reading(user: User, key: string, fingerprint: string)
    | Running(user: User, claim: Claim, until: real)
    | Completing(user: User, claim: Claim, until: real, result: Result)
    | Aborting(user: User, claim: Claim, until: real)

  /** Who created a token, for which key and request, and on whose behalf. The key and
      the fingerprint do not tell users apart. */
  datatype Creation = Creation(key: string, fingerprint: string, client: Client, user: User)

  /** A handler start: the claimed key and the token of its record. */
  datatype Start = Start(key: string, token: nat)

  /** An answer, with the token of the record it rests on, if any. */
  datatype Answer = Answer(client: Client, user: User, key: string, fingerprint: string, outcome: Outcome, token: Option<nat>)

  /** `creations`, `results` (what each handler returned), `starts` and `answers`
      are history. */
  datatype State = State(
    now: real,
    store: Store,
    nextToken: nat,
    clients: map<Client, Phase>,
    creations: map<nat, Creation>,
    results: map<nat, Result>,
    starts: seq<Start>,
    answers: seq<Answer>)

  const INIT := State(0.0, map[], 0, map[], map[], map[], [], [])

  function Go(s: State, c: Client, p: Phase): State {
    s.(clients := s.clients[c := p])
  }

  function Reply(s: State, a: Answer): State {
    s.(clients := s.clients - {a.client}, answers := s.answers + [a])
  }

  function Ask(s: State, c: Client, user: User, key: string, fingerprint: string, ttl: real): State {
    var claim := Claim(key, fingerprint, s.nextToken, ttl);
    if Live(s.store, key, s.now).Some? then Go(s, c, Reading(user, key, fingerprint))
    else
      Go(s.(store := SetNx(s.store, claim, s.now),
            nextToken := s.nextToken + 1,
            creations := s.creations[s.nextToken := Creation(key, fingerprint, c, user)],
            starts := s.starts + [Start(key, s.nextToken)]),
         c, Running(user, claim, s.now + ttl))
  }

  function Read(s: State, c: Client, user: User, key: string, fingerprint: string): State {
    var record := Live(s.store, key, s.now);
    Reply(s, Answer(c, user, key, fingerprint, Judge(record, fingerprint), if record.Some? then Some(record.value.token) else None))
  }

  /** The script ran and applied, or ran and found the claim lost. */
  function Complete(s: State, c: Client, user: User, claim: Claim, until: real, result: Result): State {
    if Owns(s.store, claim, s.now) then
      Reply(s.(store := Completed(s.store, claim, result, s.now)),
            Answer(c, user, claim.key, claim.fingerprint, Returned(result), Some(claim.token)))
    else Go(s, c, Aborting(user, claim, until))
  }

  function Abort(s: State, c: Client, user: User, claim: Claim, reached: bool): State {
    Reply(s.(store := if reached then Aborted(s.store, claim, s.now) else s.store),
          Answer(c, user, claim.key, claim.fingerprint, Failed, Some(claim.token)))
  }

  /** `CompleteLost` and an `AbortStep` that is not `reached` are Redis errors that
      changed nothing. */
  datatype Step =
    | Tick(now: real)
    | Begin(client: Client, user: User, key: string, fingerprint: string, ttl: int)
    | AskStep(client: Client)
    | ReadStep(client: Client)
    | HandlerReturns(client: Client, result: Result)
    | HandlerRaises(client: Client)
    | CompleteStep(client: Client)
    | CompleteLost(client: Client)
    | AbortStep(client: Client, reached: bool)
    | Crash(client: Client)

  ghost predicate Act(s: State, step: Step, p: Phase, s': State)
    requires !step.Tick? && !step.Begin?
  {
    var c := step.client;
    match step
    case AskStep(_) => p.Asking? && s' == Ask(s, c, p.user, p.key, p.fingerprint, p.ttl)
    case ReadStep(_) => p.Reading? && s' == Read(s, c, p.user, p.key, p.fingerprint)
    case HandlerReturns(_, result) =>
      p.Running? && s' == Go(s.(results := s.results[p.claim.token := result]), c, Completing(p.user, p.claim, p.until, result))
    case HandlerRaises(_) => p.Running? && s' == Go(s, c, Aborting(p.user, p.claim, p.until))
    case CompleteStep(_) => p.Completing? && s' == Complete(s, c, p.user, p.claim, p.until, p.result)
    case CompleteLost(_) => p.Completing? && s' == Go(s, c, Aborting(p.user, p.claim, p.until))
    case AbortStep(_, reached) => p.Aborting? && s' == Abort(s, c, p.user, p.claim, reached)
    case Crash(_) => s' == s.(clients := s.clients - {c})
  }

  ghost predicate Next(s: State, step: Step, s': State) {
    match step
    case Tick(now) => s.now <= now && s' == s.(now := now)
    case Begin(c, user, key, fingerprint, ttl) =>
      c !in s.clients && Strip(key) != "" && ttl > 0 && s' == Go(s, c, Asking(user, key, fingerprint, ttl as real))
    case _ => step.client in s.clients && Act(s, step, s.clients[step.client], s')
  }

  ghost predicate StepAt(states: seq<State>, steps: seq<Step>, k: int)
    requires |states| == |steps| + 1 && 0 <= k < |steps|
  {
    Next(states[k], steps[k], states[k + 1])
  }

  ghost predicate IsRun(states: seq<State>, steps: seq<Step>) {
    && |states| == |steps| + 1
    && states[0] == INIT
    && forall k :: 0 <= k < |steps| ==> StepAt(states, steps, k)
  }

  // --------------------------------------------------------------- invariant

  function LastToken(starts: seq<Start>, key: string): Option<nat> {
    if starts == [] then None
    else if starts[|starts| - 1].key == key then Some(starts[|starts| - 1].token)
    else LastToken(starts[..|starts| - 1], key)
  }

  predicate Holds(p: Phase) {
    p.Running? || p.Completing? || p.Aborting?
  }

  /** A stored record belongs to the last handler started for its key, and carries
      that request's fingerprint and, once completed, that handler's result. */
  ghost predicate RecordOk(key: string, record: Record, creations: map<nat, Creation>, results: map<nat, Result>, starts: seq<Start>) {
    && record.token in creations
    && creations[record.token].key == key
    && creations[record.token].fingerprint == record.fingerprint
    && (record.result.Some? ==> record.token in results && results[record.token] == record.result.value)
    && LastToken(starts, key) == Some(record.token)
  }

  ghost predicate PhaseOk(c: Client, p: Phase, creations: map<nat, Creation>, results: map<nat, Result>) {
    Holds(p) ==>
      && p.claim.token in creations
      && creations[p.claim.token] == Creation(p.claim.key, p.claim.fingerprint, c, p.user)
      && (p.Running? ==> p.claim.token !in results)
      && (p.Completing? ==> p.claim.token in results && results[p.claim.token] == p.result)
  }

  ghost predicate AnswerOk(a: Answer, creations: map<nat, Creation>, results: map<nat, Result>) {
    && (a.token.Some? ==> a.token.value in creations && creations[a.token.value].key == a.key)
    && match a.outcome
       case InProgress => true
       case Conflict => a.token.Some? && creations[a.token.value].fingerprint != a.fingerprint
       case Replayed(result) =>
         && a.token.Some?
         && creations[a.token.value].fingerprint == a.fingerprint
         && a.token.value in results
         && results[a.token.value] == result
       case Returned(result) =>
         && a.token.Some?
         && creations[a.token.value] == Creation(a.key, a.fingerprint, a.client, a.user)
         && a.token.value in results
         && results[a.token.value] == result
       case Failed => a.token.Some? && creations[a.token.value] == Creation(a.key, a.fingerprint, a.client, a.user)
  }

  ghost predicate StartsOk(starts: seq<Start>, creations: map<nat, Creation>) {
    && (forall i :: 0 <= i < |starts| ==> starts[i].token in creations && creations[starts[i].token].key == starts[i].key)
    && (forall i, j :: 0 <= i < j < |starts| ==> starts[i].token != starts[j].token)
  }

  ghost predicate Inv(s: State) {
    && (forall k :: k in s.store ==> RecordOk(k, s.store[k].value, s.creations, s.results, s.starts))
    && (forall c :: c in s.clients ==> PhaseOk(c, s.clients[c], s.creations, s.results))
    && (forall i :: 0 <= i < |s.answers| ==> AnswerOk(s.answers[i], s.creations, s.results))
    && StartsOk(s.starts, s.creations)
    && (forall t :: t in s.creations ==> t < s.nextToken)
    && (forall t :: t in s.results ==> t in s.creations)
  }

  lemma LastAfter(starts: seq<Start>, x: Start, key: string)
    ensures LastToken(starts + [x], key) == if x.key == key then Some(x.token) else LastToken(starts, key)
  {
    assert (starts + [x])[..|starts|] == starts;
  }

  lemma GoKeepsInv(s: State, c: Client, p: Phase)
    requires Inv(s) && PhaseOk(c, p, s.creations, s.results)
    ensures Inv(Go(s, c, p))
  {
  }

  lemma ReplyKeepsInv(s: State, a: Answer)
    requires Inv(s) && AnswerOk(a, s.creations, s.results)
    ensures Inv(Reply(s, a))
  {
  }

  lemma StoreKeepsInv(s: State, store: Store)
    requires Inv(s) && forall k :: k in store ==> RecordOk(k, store[k].value, s.creations, s.results, s.starts)
    ensures Inv(s.(store := store))
  {
  }

  lemma AskKeepsInv(s: State, c: Client, user: User, key: string, fingerprint: string, ttl: real)
    requires Inv(s)
    ensures Inv(Ask(s, c, user, key, fingerprint, ttl))
  {
    if Live(s.store, key, s.now).Some? {
      GoKeepsInv(s, c, Reading(user, key, fingerprint));
    } else {
      var s' := Ask(s, c, user, key, fingerprint, ttl);
      assert s.nextToken !in s.creations && s.nextToken !in s.results;
      forall k | k in s'.store ensures RecordOk(k, s'.store[k].value, s'.creations, s'.results, s'.starts) {
        LastAfter(s.starts, Start(key, s.nextToken), k);
        if k != key {
          assert RecordOk(k, s.store[k].value, s.creations, s.results, s.starts);
        }
      }
      forall i | 0 <= i < |s'.answers| ensures AnswerOk(s'.answers[i], s'.creations, s'.results) {
        assert AnswerOk(s.answers[i], s.creations, s.results);
      }
      forall d | d in s'.clients ensures PhaseOk(d, s'.clients[d], s'.creations, s'.results) {
        assert d != c ==> PhaseOk(d, s.clients[d], s.creations, s.results);
      }
    }
  }

  lemma ReadKeepsInv(s: State, c: Client, user: User, key: string, fingerprint: string)
    requires Inv(s)
    ensures Inv(Read(s, c, user, key, fingerprint))
  {
    var record := Live(s.store, key, s.now);
    if record.Some? {
      assert RecordOk(key, s.store[key].value, s.creations, s.results, s.starts);
    }
    ReplyKeepsInv(s, Answer(c, user, key, fingerprint, Judge(record, fingerprint), if record.Some? then Some(record.value.token) else None));
  }

  /** A handler returns once: nobody had a result for its token. */
  lemma ReturnKeepsInv(s: State, c: Client, p: Phase, result: Result)
    requires Inv(s) && c in s.clients && s.clients[c] == p && p.Running?
    ensures Inv(Go(s.(results := s.results[p.claim.token := result]), c, Completing(p.user, p.claim, p.until, result)))
  {
    var t := p.claim.token;
    var s' := Go(s.(results := s.results[t := result]), c, Completing(p.user, p.claim, p.until, result));
    assert PhaseOk(c, p, s.creations, s.results);
    forall k | k in s'.store ensures RecordOk(k, s'.store[k].value, s'.creations, s'.results, s'.starts) {
      assert RecordOk(k, s.store[k].value, s.creations, s.results, s.starts);
    }
    forall i | 0 <= i < |s'.answers| ensures AnswerOk(s'.answers[i], s'.creations, s'.results) {
      assert AnswerOk(s.answers[i], s.creations, s.results);
    }
    forall d | d in s'.clients ensures PhaseOk(d, s'.clients[d], s'.creations, s'.results) {
      if d != c {
        assert PhaseOk(d, s.clients[d], s.creations, s.results);
      }
    }
  }

  lemma CompleteKeepsInv(s: State, c: Client, p: Phase)
    requires Inv(s) && c in s.clients && s.clients[c] == p && p.Completing?
    ensures Inv(Complete(s, c, p.user, p.claim, p.until, p.result))
  {
    assert PhaseOk(c, p, s.creations, s.results);
    if Owns(s.store, p.claim, s.now) {
      var store := Completed(s.store, p.claim, p.result, s.now);
      forall k | k in store ensures RecordOk(k, store[k].value, s.creations, s.results, s.starts) {
        assert RecordOk(k, s.store[k].value, s.creations, s.results, s.starts);
      }
      StoreKeepsInv(s, store);
      ReplyKeepsInv(s.(store := store), Answer(c, p.user, p.claim.key, p.claim.fingerprint, Returned(p.result), Some(p.claim.token)));
    } else {
      GoKeepsInv(s, c, Aborting(p.user, p.claim, p.until));
    }
  }

  lemma AbortKeepsInv(s: State, c: Client, p: Phase, reached: bool)
    requires Inv(s) && c in s.clients && s.clients[c] == p && p.Aborting?
    ensures Inv(Abort(s, c, p.user, p.claim, reached))
  {
    assert PhaseOk(c, p, s.creations, s.results);
    var store := if reached then Aborted(s.store, p.claim, s.now) else s.store;
    StoreKeepsInv(s, store);
    ReplyKeepsInv(s.(store := store), Answer(c, p.user, p.claim.key, p.claim.fingerprint, Failed, Some(p.claim.token)));
  }

  lemma ActKeepsInv(s: State, step: Step, s': State)
    requires Inv(s) && !step.Tick? && !step.Begin?
    requires step.client in s.clients && Act(s, step, s.clients[step.client], s')
    ensures Inv(s')
  {
    var c := step.client;
    var p := s.clients[c];
    assert PhaseOk(c, p, s.creations, s.results);
    match step
    case AskStep(_) => AskKeepsInv(s, c, p.user, p.key, p.fingerprint, p.ttl);
    case ReadStep(_) => ReadKeepsInv(s, c, p.user, p.key, p.fingerprint);
    case HandlerReturns(_, result) => ReturnKeepsInv(s, c, p, result);
    case HandlerRaises(_) => GoKeepsInv(s, c, Aborting(p.user, p.claim, p.until));
    case CompleteStep(_) => CompleteKeepsInv(s, c, p);
    case CompleteLost(_) => GoKeepsInv(s, c, Aborting(p.user, p.claim, p.until));
    case AbortStep(_, reached) => AbortKeepsInv(s, c, p, reached);
    case Crash(_) =>
  }

  lemma StepKeepsInv(s: State, step: Step, s': State)
    requires Inv(s) && Next(s, step, s')
    ensures Inv(s')
  {
    match step
    case Tick(_) =>
    case Begin(c, user, key, fingerprint, ttl) => GoKeepsInv(s, c, Asking(user, key, fingerprint, ttl as real));
    case _ => ActKeepsInv(s, step, s');
  }

  lemma {:induction false} RunInv(states: seq<State>, steps: seq<Step>, k: nat)
    requires IsRun(states, steps) && k < |states|
    ensures Inv(states[k])
  {
    if k > 0 {
      RunInv(states, steps, k - 1);
      assert StepAt(states, steps, k - 1);
      StepKeepsInv(states[k - 1], steps[k - 1], states[k]);
    }
  }
}
