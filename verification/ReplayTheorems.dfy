/** What the replay protocol guarantees in every run. */
module ReplayTheorems {
  import opened Basics
  import opened Text
  import opened Leases
  import opened Replay

  // ------------------------------------------------------------ one handler

  lemma {:induction false} LastTokenFinds(starts: seq<Start>, key: string)
    ensures LastToken(starts, key).Some? ==> exists i ::
      && 0 <= i < |starts|
      && starts[i] == Start(key, LastToken(starts, key).value)
      && forall j :: i < j < |starts| ==> starts[j].key != key
  {
    if starts != [] && starts[|starts| - 1].key != key {
      var n := |starts| - 1;
      LastTokenFinds(starts[..n], key);
      if LastToken(starts, key).Some? {
        var i :| && 0 <= i < n
                 && starts[..n][i] == Start(key, LastToken(starts[..n], key).value)
                 && forall j :: i < j < n ==> starts[..n][j].key != key;
        assert starts[i] == Start(key, LastToken(starts, key).value);
        forall j | i < j < |starts| ensures starts[j].key != key {
          if j < n {
            assert starts[..n][j].key != key;
          }
        }
      }
    } else if starts != [] {
      assert starts[|starts| - 1] == Start(key, LastToken(starts, key).value);
    }
  }

  lemma {:induction false} StartsGrow(states: seq<State>, steps: seq<Step>, i: nat, k: nat)
    requires IsRun(states, steps) && i <= k < |states|
    ensures states[i].starts <= states[k].starts
    ensures forall t :: t in states[i].creations ==> t in states[k].creations && states[k].creations[t] == states[i].creations[t]
    ensures forall t :: t in states[i].results ==> t in states[k].results && states[k].results[t] == states[i].results[t]
    decreases k - i
  {
    if i < k {
      StartsGrow(states, steps, i, k - 1);
      RunInv(states, steps, k - 1);
      assert StepAt(states, steps, k - 1);
      StepGrows(states[k - 1], steps[k - 1], states[k]);
    }
  }

  lemma StepGrows(s: State, step: Step, s': State)
    requires Inv(s) && Next(s, step, s')
    ensures s.starts <= s'.starts
    ensures forall t :: t in s.creations ==> t in s'.creations && s'.creations[t] == s.creations[t]
    ensures forall t :: t in s.results ==> t in s'.results && s'.results[t] == s.results[t]
  {
    if step.HandlerReturns? {
      assert PhaseOk(step.client, s.clients[step.client], s.creations, s.results);
    }
  }

  /** While one record lives, no further handler starts for its key: two moments at
      which the key is live with the same token have the same starts for it. */
  lemma OneHandlerPerRecord(states: seq<State>, steps: seq<Step>, i: nat, k: nat, key: string)
    requires IsRun(states, steps) && i <= k < |states|
    requires var a, b := Live(states[i].store, key, states[i].now), Live(states[k].store, key, states[k].now);
      a.Some? && b.Some? && a.value.token == b.value.token
    ensures states[i].starts <= states[k].starts
    ensures forall j :: |states[i].starts| <= j < |states[k].starts| ==> states[k].starts[j].key != key
  {
    RunInv(states, steps, i);
    RunInv(states, steps, k);
    StartsGrow(states, steps, i, k);
    var s, s' := states[i].starts, states[k].starts;
    assert RecordOk(key, states[i].store[key].value, states[i].creations, states[i].results, s);
    assert RecordOk(key, states[k].store[key].value, states[k].creations, states[k].results, s');
    SameLast(s, s', key, LastToken(s, key).value);
  }

  lemma SameLast(s: seq<Start>, s': seq<Start>, key: string, t: nat)
    requires s <= s' && LastToken(s, key) == Some(t) && LastToken(s', key) == Some(t)
    requires forall i, j :: 0 <= i < j < |s'| ==> s'[i].token != s'[j].token
    ensures forall j :: |s| <= j < |s'| ==> s'[j].key != key
  {
    LastTokenFinds(s, key);
    LastTokenFinds(s', key);
    var a :| 0 <= a < |s| && s[a] == Start(key, t);
    var b :| 0 <= b < |s'| && s'[b] == Start(key, t) && forall j :: b < j < |s'| ==> s'[j].key != key;
    assert s'[a] == s[a];
  }

  /** Each record's handler is started once, by the client that created it. */
  lemma StartsAreCreations(states: seq<State>, steps: seq<Step>, k: nat)
    requires IsRun(states, steps) && k < |states|
    ensures var s := states[k];
      && (forall i, j :: 0 <= i < j < |s.starts| ==> s.starts[i].token != s.starts[j].token)
      && (forall i :: 0 <= i < |s.starts| ==> s.starts[i].token in s.creations && s.creations[s.starts[i].token].key == s.starts[i].key)
      && (forall c :: c in s.clients && s.clients[c].Running? ==>
            s.clients[c].claim.token in s.creations && s.creations[s.clients[c].claim.token].client == c)
  {
    RunInv(states, steps, k);
    var s := states[k];
    forall c | c in s.clients && s.clients[c].Running?
      ensures s.clients[c].claim.token in s.creations && s.creations[s.clients[c].claim.token].client == c
    {
      assert PhaseOk(c, s.clients[c], s.creations, s.results);
    }
  }

  // ---------------------------------------------------------------- replays

  /** A replayed answer is, status and body, what the handler of one claim for the
      same key and fingerprint returned, now and for ever. */
  lemma ReplayIsExact(states: seq<State>, steps: seq<Step>, i: nat, k: nat, n: nat)
    requires IsRun(states, steps) && i <= k < |states| && n < |states[i].answers| && states[i].answers[n].outcome.Replayed?
    ensures var a := states[i].answers[n];
      && a.token.Some?
      && a.token.value in states[k].creations
      && states[k].creations[a.token.value].key == a.key
      && states[k].creations[a.token.value].fingerprint == a.fingerprint
      && a.token.value in states[k].results
      && states[k].results[a.token.value] == a.outcome.result
  {
    RunInv(states, steps, i);
    assert AnswerOk(states[i].answers[n], states[i].creations, states[i].results);
    StartsGrow(states, steps, i, k);
  }

  /** Any two answers that rest on one record and carry a result carry the same. */
  lemma AnswersAgree(states: seq<State>, steps: seq<Step>, k: nat, m: nat, n: nat)
    requires IsRun(states, steps) && k < |states| && m < |states[k].answers| && n < |states[k].answers|
    requires var a, b := states[k].answers[m], states[k].answers[n];
      a.token == b.token && (a.outcome.Replayed? || a.outcome.Returned?) && (b.outcome.Replayed? || b.outcome.Returned?)
    ensures var a, b := states[k].answers[m], states[k].answers[n];
      a.outcome.result == b.outcome.result && a.key == b.key && a.fingerprint == b.fingerprint
  {
    RunInv(states, steps, k);
    var s := states[k];
    assert AnswerOk(s.answers[m], s.creations, s.results);
    assert AnswerOk(s.answers[n], s.creations, s.results);
  }

  /** A claimer that reads a live record gets a conflict exactly if the record was
      created for another fingerprint, and otherwise its creator's result or, while
      there is none, a refusal. */
  lemma ReadVerdict(states: seq<State>, steps: seq<Step>, k: nat, c: Client)
    requires IsRun(states, steps) && k < |steps| && steps[k] == ReadStep(c)
    requires c in states[k].clients && states[k].clients[c].Reading?
    requires Live(states[k].store, states[k].clients[c].key, states[k].now).Some?
    ensures var s, s', p := states[k], states[k + 1], states[k].clients[c];
      var record := Live(s.store, p.key, s.now).value;
      && |s'.answers| == |s.answers| + 1
      && record.token in s.creations
      && var outcome := s'.answers[|s.answers|].outcome;
         && (outcome == Conflict <==> s.creations[record.token].fingerprint != p.fingerprint)
         && (outcome.Replayed? ==> record.token in s.results && outcome.result == s.results[record.token])
         && (outcome == Conflict || outcome.Replayed? || outcome == InProgress)
         && (record.result.Some? ==> outcome != InProgress)
  {
    RunInv(states, steps, k);
    assert StepAt(states, steps, k);
    var s, p := states[k], states[k].clients[c];
    assert RecordOk(p.key, s.store[p.key].value, s.creations, s.results, s.starts);
  }

  // ---------------------------------------------------------------- fencing

  /** A live record changes only at the hands of the client that created it: that
      client completes it with its own handler's result, or deletes it. */
  lemma Fencing(states: seq<State>, steps: seq<Step>, k: nat, key: string)
    requires IsRun(states, steps) && k < |steps| && Live(states[k].store, key, states[k].now).Some?
    requires Find(states[k + 1].store, key) != Find(states[k].store, key)
    ensures var s, step := states[k], steps[k];
      var record := Live(s.store, key, s.now).value;
      && (step.CompleteStep? || step.AbortStep?)
      && record.token in s.creations
      && step.client == s.creations[record.token].client
      && (step.AbortStep? ==> key !in states[k + 1].store)
      && (step.CompleteStep? ==>
            && record.token in s.results
            && key in states[k + 1].store
            && states[k + 1].store[key].value == record.(result := Some(s.results[record.token])))
  {
    RunInv(states, steps, k);
    assert StepAt(states, steps, k);
    var s, step := states[k], steps[k];
    assert RecordOk(key, s.store[key].value, s.creations, s.results, s.starts);
    if !step.Tick? && !step.Begin? {
      assert PhaseOk(step.client, s.clients[step.client], s.creations, s.results);
    }
  }

  /** A completion is one of two things. Before the claim expires it is applied,
      extending the record's life, and answered with the handler's result; from then
      on it is not applied, and followed by an abort. */
  lemma CompletionIsAtomic(states: seq<State>, steps: seq<Step>, k: nat, c: Client)
    requires IsRun(states, steps) && k < |steps| && steps[k] == CompleteStep(c)
    ensures c in states[k].clients && states[k].clients[c].Completing?
    ensures var s, s', p := states[k], states[k + 1], states[k].clients[c];
      if s.now < p.until then
        && s'.answers == s.answers + [Answer(c, p.user, p.claim.key, p.claim.fingerprint, Returned(p.result), Some(p.claim.token))]
        && p.claim.token in s.results
        && s.results[p.claim.token] == p.result
        && Find(s'.store, p.claim.key) ==
           Some(Timed(Record(p.claim.fingerprint, p.claim.token, Some(p.result)), s.now + p.claim.ttl))
      else
        s'.store == s.store && s'.answers == s.answers && c in s'.clients && s'.clients[c] == Aborting(p.user, p.claim, p.until)
  {
    RunInv(states, steps, k);
    assert StepAt(states, steps, k);
    var s, p := states[k], states[k].clients[c];
    assert PhaseOk(c, p, s.creations, s.results);
    RunHolders(states, steps, k);
    assert HolderOk(p, s.store, s.now);
    if Owns(s.store, p.claim, s.now) {
      assert RecordOk(p.claim.key, s.store[p.claim.key].value, s.creations, s.results, s.starts);
    }
  }

  /** A step by which somebody asks for `key`. */
  ghost predicate AsksFor(s: State, step: Step, key: string) {
    step.AskStep? && step.client in s.clients && s.clients[step.client].Asking? && s.clients[step.client].key == key
  }

  lemma FreeUnlessAsked(s: State, step: Step, s': State, key: string)
    requires Next(s, step, s') && key !in s.store && !AsksFor(s, step, key)
    ensures key !in s'.store
  {
  }

  lemma {:induction false} StaysFree(states: seq<State>, steps: seq<Step>, i: nat, k: nat, key: string)
    requires IsRun(states, steps) && i <= k < |states| && key !in states[i].store
    requires forall m :: i <= m < k ==> !AsksFor(states[m], steps[m], key)
    ensures key !in states[k].store
    decreases k - i
  {
    if i < k {
      StaysFree(states, steps, i, k - 1, key);
      assert StepAt(states, steps, k - 1);
      FreeUnlessAsked(states[k - 1], steps[k - 1], states[k], key);
    }
  }

  /** A failed handler does not burn its key: after an abort of a claim that still
      owned its record reached the store, the next client to ask for the key, with
      whatever fingerprint and however much later, is granted it and starts its
      handler. */
  lemma AbortReopensKey(states: seq<State>, steps: seq<Step>, k: nat, c: Client, j: nat, d: Client)
    requires IsRun(states, steps) && k < j < |steps| && steps[k] == AbortStep(c, true) && steps[j] == AskStep(d)
    requires c in states[k].clients && states[k].clients[c].Aborting? && Owns(states[k].store, states[k].clients[c].claim, states[k].now)
    requires AsksFor(states[j], steps[j], states[k].clients[c].claim.key)
    requires forall m :: k < m < j ==> !AsksFor(states[m], steps[m], states[k].clients[c].claim.key)
    ensures var p, s, s' := states[j].clients[d], states[j], states[j + 1];
      && s'.starts == s.starts + [Start(p.key, s.nextToken)]
      && d in s'.clients
      && s'.clients[d].Running?
      && s'.clients[d].claim == Claim(p.key, p.fingerprint, s.nextToken, p.ttl)
  {
    assert StepAt(states, steps, k) && StepAt(states, steps, j);
    StaysFree(states, steps, k + 1, j, states[k].clients[c].claim.key);
  }

  // ---------------------------------------------------------- claims in time

  /** A holder's record is there until the claim expires, and with that expiry. */
  ghost predicate HolderOk(p: Phase, store: Store, now: real) {
    Holds(p) ==>
      var key := p.claim.key;
      && (now < p.until ==> key in store && store[key].value.token == p.claim.token)
      && (key in store && store[key].value.token == p.claim.token ==> store[key].until == p.until)
  }

  ghost predicate HoldersOk(s: State) {
    forall c :: c in s.clients ==> HolderOk(s.clients[c], s.store, s.now)
  }

  /** Two clients never hold one token. */
  lemma OneToken(s: State, c: Client, d: Client)
    requires Inv(s) && c in s.clients && d in s.clients && Holds(s.clients[c]) && Holds(s.clients[d])
    requires s.clients[c].claim.token == s.clients[d].claim.token
    ensures c == d
  {
    assert PhaseOk(c, s.clients[c], s.creations, s.results) && PhaseOk(d, s.clients[d], s.creations, s.results);
  }

  lemma OldClaims(s: State)
    requires Inv(s)
    ensures forall c :: c in s.clients && Holds(s.clients[c]) ==> s.clients[c].claim.token < s.nextToken
  {
    forall c | c in s.clients && Holds(s.clients[c]) ensures s.clients[c].claim.token < s.nextToken {
      assert PhaseOk(c, s.clients[c], s.creations, s.results);
    }
  }

  lemma AskKeepsHolders(s: State, c: Client, user: User, key: string, fingerprint: string, ttl: real, s': State)
    requires Inv(s) && HoldersOk(s) && s' == Ask(s, c, user, key, fingerprint, ttl)
    ensures HoldersOk(s')
  {
    OldClaims(s);
    forall d | d in s'.clients ensures HolderOk(s'.clients[d], s'.store, s'.now) {
      if d != c {
        assert HolderOk(s.clients[d], s.store, s.now);
      }
    }
  }

  /** A script of `c` touches no record that another holder could own. */
  lemma ScriptKeepsHolders(s: State, c: Client, store: Store, s': State)
    requires Inv(s) && HoldersOk(s) && c in s.clients && Holds(s.clients[c])
    requires s'.store == store && s'.now == s.now && s'.clients == s.clients - {c}
    requires forall k :: k != s.clients[c].claim.key ==> Find(store, k) == Find(s.store, k)
    requires var claim := s.clients[c].claim; store != s.store ==>
      && Owns(s.store, claim, s.now)
      && (claim.key in store ==> store[claim.key].value.token == claim.token)
    ensures HoldersOk(s')
  {
    forall d | d in s'.clients ensures HolderOk(s'.clients[d], s'.store, s'.now) {
      var p := s.clients[d];
      assert HolderOk(p, s.store, s.now);
      if Holds(p) {
        assert p.claim.key != s.clients[c].claim.key ==> Find(store, p.claim.key) == Find(s.store, p.claim.key);
        if p.claim.token == s.clients[c].claim.token {
          OneToken(s, c, d);
        }
      }
    }
  }

  lemma PhaseKeepsHolders(s: State, c: Client, p: Phase, s': State)
    requires HoldersOk(s) && HolderOk(p, s.store, s.now)
    requires s'.store == s.store && s'.now == s.now && s'.clients == s.clients[c := p]
    ensures HoldersOk(s')
  {
  }

  lemma TickKeepsHolders(s: State, s': State)
    requires HoldersOk(s) && s'.store == s.store && s'.clients == s.clients && s.now <= s'.now
    ensures HoldersOk(s')
  {
    forall d | d in s'.clients ensures HolderOk(s'.clients[d], s'.store, s'.now) {
      assert HolderOk(s.clients[d], s.store, s.now);
    }
  }

  lemma ActKeepsHolders(s: State, step: Step, s': State)
    requires Inv(s) && HoldersOk(s) && !step.Tick? && !step.Begin?
    requires step.client in s.clients && Act(s, step, s.clients[step.client], s')
    ensures HoldersOk(s')
  {
    var c := step.client;
    var p := s.clients[c];
    assert HolderOk(p, s.store, s.now);
    match step
    case AskStep(_) => AskKeepsHolders(s, c, p.user, p.key, p.fingerprint, p.ttl, s');
    case ReadStep(_) =>
    case HandlerReturns(_, result) => PhaseKeepsHolders(s, c, Completing(p.user, p.claim, p.until, result), s');
    case HandlerRaises(_) => PhaseKeepsHolders(s, c, Aborting(p.user, p.claim, p.until), s');
    case CompleteStep(_) =>
      if Owns(s.store, p.claim, s.now) {
        ScriptKeepsHolders(s, c, s'.store, s');
      } else {
        PhaseKeepsHolders(s, c, Aborting(p.user, p.claim, p.until), s');
      }
    case CompleteLost(_) => PhaseKeepsHolders(s, c, Aborting(p.user, p.claim, p.until), s');
    case AbortStep(_, reached) => ScriptKeepsHolders(s, c, s'.store, s');
    case Crash(_) =>
  }

  lemma {:induction false} RunHolders(states: seq<State>, steps: seq<Step>, k: nat)
    requires IsRun(states, steps) && k < |states|
    ensures Inv(states[k]) && HoldersOk(states[k])
  {
    RunInv(states, steps, k);
    if k > 0 {
      RunHolders(states, steps, k - 1);
      assert StepAt(states, steps, k - 1);
      var s, step, s' := states[k - 1], steps[k - 1], states[k];
      match step
      case Tick(_) => TickKeepsHolders(s, s');
      case Begin(c, user, key, fingerprint, ttl) => PhaseKeepsHolders(s, c, Asking(user, key, fingerprint, ttl as real), s');
      case _ => ActKeepsHolders(s, step, s');
    }
  }

  /** Whatever others do, a claimer that has not finished owns its record exactly until
      its own claim expires. */
  lemma OwnsUntilExpiry(states: seq<State>, steps: seq<Step>, k: nat, c: Client)
    requires IsRun(states, steps) && k < |states| && c in states[k].clients && Holds(states[k].clients[c])
    ensures Owns(states[k].store, states[k].clients[c].claim, states[k].now) <==> states[k].now < states[k].clients[c].until
  {
    RunHolders(states, steps, k);
    assert HolderOk(states[k].clients[c], states[k].store, states[k].now);
  }

  /** Two claimers of one key that are both within their own claim are one client. */
  lemma SingleRunner(states: seq<State>, steps: seq<Step>, k: nat, c: Client, d: Client)
    requires IsRun(states, steps) && k < |states|
    requires c in states[k].clients && d in states[k].clients && Holds(states[k].clients[c]) && Holds(states[k].clients[d])
    requires states[k].clients[c].claim.key == states[k].clients[d].claim.key
    requires states[k].now < states[k].clients[c].until && states[k].now < states[k].clients[d].until
    ensures c == d
  {
    RunHolders(states, steps, k);
    assert HolderOk(states[k].clients[c], states[k].store, states[k].now);
    assert HolderOk(states[k].clients[d], states[k].store, states[k].now);
    OneToken(states[k], c, d);
  }

  // ------------------------------------------------------------- runs outright

  lemma RunGrows(states: seq<State>, steps: seq<Step>, step: Step, s': State)
    requires IsRun(states, steps) && Next(states[|steps|], step, s')
    ensures IsRun(states + [s'], steps + [step])
  {
    var states', steps' := states + [s'], steps + [step];
    forall k | 0 <= k < |steps'| ensures StepAt(states', steps', k) {
      if k < |steps| {
        assert StepAt(states, steps, k);
      }
    }
  }

  ghost predicate Reachable(s: State) {
    exists states, steps :: IsRun(states, steps) && states[|steps|] == s
  }

  lemma Extend(s: State, step: Step, s': State)
    requires Reachable(s) && Next(s, step, s')
    ensures Reachable(s')
  {
    var states, steps :| IsRun(states, steps) && states[|steps|] == s;
    RunGrows(states, steps, step, s');
    assert (states + [s'])[|steps + [step]|] == s';
  }

  lemma InitReachable()
    ensures Reachable(INIT)
  {
    assert IsRun([INIT], []);
  }

  /** A client of `user` claims a key that is free, for one second. */
  lemma ClaimFree(s: State, c: Client, user: User, key: string) returns (s': State)
    requires Reachable(s) && c !in s.clients && Strip(key) != "" && Live(s.store, key, s.now).None?
    ensures Reachable(s') && s' == Ask(Go(s, c, Asking(user, key, "f", 1.0)), c, user, key, "f", 1.0)
  {
    var s1 := Go(s, c, Asking(user, key, "f", 1.0));
    Extend(s, Begin(c, user, key, "f", 1), s1);
    s' := Ask(s1, c, user, key, "f", 1.0);
    Extend(s1, AskStep(c), s');
  }

  /** A claimer that outlives its claim runs beside its successor: two clients run
      their handlers for one key, one second after the first claimed it. */
  lemma TwoRunnersRun() returns (s: State)
    ensures Reachable(s) && 0 in s.clients && 1 in s.clients && s.clients[0].Running? && s.clients[1].Running?
    ensures s.clients[0].claim.key == s.clients[1].claim.key
  {
    InitReachable();
    assert Strip("k") == "k";
    var s1 := ClaimFree(INIT, 0, 0, "k");
    var s2 := s1.(now := 1.0);
    Extend(s1, Tick(1.0), s2);
    s := ClaimFree(s2, 1, 0, "k");
  }

  // ------------------------------------------------------------- the answers

  /** A read, an applied completion and an abort each answer their own client, once, in
      the name of its user, key and fingerprint, and end the call; a crash ends it
      without an answer; the other steps answer nobody. */
  lemma ClientIsAnswered(states: seq<State>, steps: seq<Step>, k: nat, c: Client)
    requires IsRun(states, steps) && k < |steps| && !steps[k].Tick? && !steps[k].Begin? && steps[k].client == c
    ensures c in states[k].clients
    ensures var s, s', p := states[k], states[k + 1], states[k].clients[c];
      if c in s'.clients || steps[k].Crash? then s'.answers == s.answers
      else
        && |s'.answers| == |s.answers| + 1
        && s.answers <= s'.answers
        && var a := s'.answers[|s.answers|];
           && a.client == c
           && a.user == p.user
           && a.key == (if Holds(p) then p.claim.key else p.key)
           && a.fingerprint == (if Holds(p) then p.claim.fingerprint else p.fingerprint)
           && (steps[k].AbortStep? ==> a.outcome == Failed)
    ensures steps[k].ReadStep? || steps[k].AbortStep? || steps[k].Crash? ==> c !in states[k + 1].clients
  {
    assert StepAt(states, steps, k);
  }

  // -------------------------------------------------------- replays and users

  /** A claimer is answered with another user's result exactly if it reads a live,
      completed record that a claim of another user with the same fingerprint made;
      and then no handler starts for it. */
  lemma ReplayCrossesUsersIff(states: seq<State>, steps: seq<Step>, k: nat, c: Client)
    requires IsRun(states, steps) && k < |steps| && steps[k] == ReadStep(c)
    ensures c in states[k].clients && states[k].clients[c].Reading? && |states[k + 1].answers| == |states[k].answers| + 1
    ensures var s, s', p := states[k], states[k + 1], states[k].clients[c];
      var a, record := s'.answers[|s.answers|], Live(s.store, p.key, s.now);
      && s'.starts == s.starts
      && (a.outcome.Replayed? && a.token.Some? && a.token.value in s.creations && s.creations[a.token.value].user != p.user <==>
            && record.Some?
            && record.value.result.Some?
            && record.value.token in s.creations
            && s.creations[record.value.token].fingerprint == p.fingerprint
            && s.creations[record.value.token].user != p.user)
  {
    RunInv(states, steps, k);
    assert StepAt(states, steps, k);
    var s, p := states[k], states[k].clients[c];
    if Live(s.store, p.key, s.now).Some? {
      assert RecordOk(p.key, s.store[p.key].value, s.creations, s.results, s.starts);
    }
  }

  /** User 0 completes a request. */
  lemma CompletedRequest(result: Result) returns (s: State)
    ensures Reachable(s) && |s.starts| == 1 && |s.answers| == 1 && s.now == 0.0 && s.clients == map[]
    ensures s.starts[0].token in s.creations && s.creations[s.starts[0].token].user == 0
    ensures Live(s.store, "k", s.now).Some? && s.store["k"].value.fingerprint == "f" && s.store["k"].value.result == Some(result)
  {
    InitReachable();
    assert Strip("k") == "k";
    var s1 := ClaimFree(INIT, 0, 0, "k");
    var p := s1.clients[0];
    var s2 := Go(s1.(results := s1.results[0 := result]), 0, Completing(0, p.claim, p.until, result));
    Extend(s1, HandlerReturns(0, result), s2);
    s := Complete(s2, 0, 0, p.claim, p.until, result);
    Extend(s2, CompleteStep(0), s);
  }

  /** Then user 1 sends the same key and body: user 1 gets
      user 0's result, and the only handler that ever started is user 0's. */
  lemma CrossUserRun(result: Result) returns (s: State)
    ensures Reachable(s) && |s.starts| == 1 && |s.answers| == 2
    ensures s.starts[0].token in s.creations && s.creations[s.starts[0].token].user == 0
    ensures s.answers[1].user == 1 && s.answers[1].outcome == Replayed(result)
  {
    var s3 := CompletedRequest(result);
    var s4 := Go(s3, 1, Asking(1, "k", "f", 1.0));
    Extend(s3, Begin(1, 1, "k", "f", 1), s4);
    var s5 := Ask(s4, 1, 1, "k", "f", 1.0);
    Extend(s4, AskStep(1), s5);
    s := Read(s5, 1, 1, "k", "f");
    Extend(s5, ReadStep(1), s);
  }
}
