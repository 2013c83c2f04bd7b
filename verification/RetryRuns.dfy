/** A run from empty tables in which a news collection fails three times. */
module RetryRuns {
  import opened Basics
  import opened JobPayloads
  import opened Jobs
  import opened JobMachine
  import opened JobTheorems
  import opened IndexHandoff

  ghost predicate Reachable(s: State) {
    exists states, steps :: IsRun(states, steps) && states[|steps|] == s
  }

  lemma Extend(s: State, step: Step, s': State)
    requires Reachable(s) && Next(s, step, s')
    ensures Reachable(s')
  {
    var states, steps :| IsRun(states, steps) && states[|steps|] == s;
    var states', steps' := states + [s'], steps + [step];
    forall k | 0 <= k < |steps'| ensures StepAt(states', steps', k) {
      if k < |steps| {
        assert StepAt(states, steps, k);
      }
    }
    assert IsRun(states', steps') && states'[|steps'|] == s';
  }

  /** Job `e.job` waits to be claimed, and `e` triggers it. */
  ghost predicate Waits(s: State, e: JobEvent) {
    && e.Trigger?
    && e in s.db.outbox
    && Hits(s.db, e.job, Requested)
    && s.db.jobs[e.job].runKey == e.runKey
    && e.jobType == NEWS_COLLECTION
    && SymbolsFrom(e.payload).Some?
  }

  /** A worker claims the job and starts its handler. */
  lemma Starts(s: State, w: WorkerId, e: JobEvent) returns (s': State)
    requires Reachable(s) && Waits(s, e) && w !in s.workers
    ensures Reachable(s') && s'.workers == s.workers[w := Handling(Execution(e.job, e.jobType, e.runKey, e.payload))]
    ensures s'.db == Transition(s.db, e.job, Requested, Change(Running, None, None)) && s'.retryOf == s.retryOf
  {
    var s1 := Claim(s, w, e);
    Extend(s, Deliver(w, e), s1);
    s' := Begin(s1, w);
    Extend(s1, Start(w), s');
    assert s'.workers == s.workers[w := Handling(Execution(e.job, e.jobType, e.runKey, e.payload))];
  }

  /** The handler raises, and requests a retry. */
  lemma FailsAgain(s: State, w: WorkerId, x: Execution, names: seq<string>, newId: JobId, key: string) returns (s': State, e: JobEvent)
    requires Reachable(s) && w in s.workers && s.workers[w] == Handling(x) && IsNew(s, newId)
    requires x.jobType == NEWS_COLLECTION && SymbolsFrom(x.payload) == Some(names)
    requires RetryAttempt(x.payload) < 2 && key == RetryKey(RootRunKey(x.runKey, x.payload), RetryAttempt(x.payload) + 1)
    requires !Taken(s.db, NEWS_COLLECTION, key) && RootRunKey(x.runKey, x.payload) != ""
    ensures Reachable(s') && Waits(s', e) && s'.retryOf == s.retryOf[newId := x.job]
    ensures e == Trigger(newId, NEWS_COLLECTION, key, e.payload, e.availableAt)
    ensures RetryAttempt(e.payload) == RetryAttempt(x.payload) + 1 && RootRunKey(key, e.payload) == RootRunKey(x.runKey, x.payload)
    ensures s'.workers.Keys == s.workers.Keys && s'.db.jobs.Keys == s.db.jobs.Keys + {newId}
    ensures s'.db.keys.Keys == s.db.keys.Keys + {(NEWS_COLLECTION, key)}
  {
    var next, root := RetryAttempt(x.payload) + 1, RootRunKey(x.runKey, x.payload);
    e := Trigger(newId, NEWS_COLLECTION, key, RetryPayload(SYMBOLS, names, next, root), Some(Seconds(Pow2(next))));
    var s1 := RequestRetry(s, x, names, newId, 0);
    RetryRequested(s, x, names, newId, key, e, s1);
    RequestWaits(s.db, e, s1.db);
    s' := Conclude(s1, w, Change(Failed, None, Some("")));
    Extend(s, RaiseAndRetry(w, "", newId, 0), s');
    NamesRoundTrip(x.payload, SYMBOLS, true, e.payload);
  }

  lemma RetryRequested(s: State, x: Execution, names: seq<string>, newId: JobId, key: string, e: JobEvent, s1: State)
    requires x.jobType == NEWS_COLLECTION && RetryAttempt(x.payload) < 2 && s1 == RequestRetry(s, x, names, newId, 0)
    requires key == RetryKey(RootRunKey(x.runKey, x.payload), RetryAttempt(x.payload) + 1) && !Taken(s.db, NEWS_COLLECTION, key)
    requires var next, root := RetryAttempt(x.payload) + 1, RootRunKey(x.runKey, x.payload);
      e == Trigger(newId, NEWS_COLLECTION, key, RetryPayload(SYMBOLS, names, next, root), Some(Seconds(Pow2(next))))
    ensures s1.db == Request(s.db, newId, NEWS_COLLECTION, key, e.payload, e.availableAt)
    ensures s1.retryOf == s.retryOf[newId := x.job] && s1.workers == s.workers
  {
  }

  lemma RequestWaits(db: Db, e: JobEvent, db': Db)
    requires e.Trigger? && !Taken(db, e.jobType, e.runKey)
    requires db' == Request(db, e.job, e.jobType, e.runKey, e.payload, e.availableAt)
    ensures e in db'.outbox && Hits(db', e.job, Requested) && db'.jobs[e.job].runKey == e.runKey
    ensures db'.jobs.Keys == db.jobs.Keys + {e.job} && db'.keys.Keys == db.keys.Keys + {(e.jobType, e.runKey)}
  {
    assert db'.outbox == db.outbox + [e];
  }

  lemma FirstRequest() returns (s: State, e: JobEvent)
    ensures Reachable(s) && Waits(s, e) && e == Trigger("a", NEWS_COLLECTION, "k", SOME_SYMBOLS, None)
    ensures s.workers == map[] && s.retryOf == map[] && s.db.jobs.Keys == {"a"} && s.db.keys.Keys == {(NEWS_COLLECTION, "k")}
  {
    assert IsRun([INIT], []) && Reachable(INIT);
    SomeSymbolsRead();
    s := DoRequest(INIT, "a", NEWS_COLLECTION, "k", SOME_SYMBOLS, None);
    e := Trigger("a", NEWS_COLLECTION, "k", SOME_SYMBOLS, None);
    assert s.db.outbox == [e];
    Extend(INIT, TriggerStep("a", NEWS_COLLECTION, "k", SOME_SYMBOLS), s);
  }

  lemma TwoAttempts() returns (s: State, e: JobEvent)
    ensures Reachable(s) && Waits(s, e) && e == Trigger("b", NEWS_COLLECTION, "k:retry:1", e.payload, e.availableAt)
    ensures RetryAttempt(e.payload) == 1 && RootRunKey(e.runKey, e.payload) == "k"
    ensures s.workers.Keys == {0} && s.retryOf == map["b" := "a"] && s.db.jobs.Keys == {"a", "b"}
    ensures s.db.keys.Keys == {(NEWS_COLLECTION, "k"), (NEWS_COLLECTION, "k:retry:1")}
  {
    var s0, e0 := FirstRequest();
    var s1 := Starts(s0, 0, e0);
    assert RetryKey("k", 1) == "k:retry:1";
    s, e := FailsAgain(s1, 0, s1.workers[0].execution, SymbolsFrom(e0.payload).value, "b", "k:retry:1");
  }

  lemma ThreeAttempts() returns (s: State, e: JobEvent)
    ensures Reachable(s) && Waits(s, e) && e == Trigger("c", NEWS_COLLECTION, "k:retry:2", e.payload, e.availableAt)
    ensures s.retryOf == map["b" := "a", "c" := "b"] && "a" in s.db.jobs
  {
    var s0, e0 := TwoAttempts();
    var s1 := Starts(s0, 1, e0);
    assert RetryKey("k", 2) == "k:retry:2";
    assert "k:retry:2"[8] != "k:retry:1"[8] && |"k:retry:2"| != |"k"|;
    s, e := FailsAgain(s1, 1, s1.workers[1].execution, SymbolsFrom(e0.payload).value, "c", "k:retry:2");
  }

  /** Two retries and no more: a run whose retry chain has three jobs, the last of them
      waiting for its turn. */
  lemma ThreeAttemptsRun() returns (states: seq<State>, steps: seq<Step>)
    ensures IsRun(states, steps) && IsRetryChain(states[|steps|], ["a", "b", "c"])
    ensures "c" in states[|steps|].db.jobs
    ensures var job := states[|steps|].db.jobs["c"]; job.runKey == "k:retry:2" && job.state.status == Requested
  {
    var s, e := ThreeAttempts();
    states, steps :| IsRun(states, steps) && states[|steps|] == s;
  }
}
