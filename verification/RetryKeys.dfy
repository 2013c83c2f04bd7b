/** When nobody outside uses the retries' run keys and payload fields, a retry's run
    key is never taken. */
module RetryKeys {
  import opened Basics
  import opened JobPayloads
  import opened Jobs
  import opened JobMachine
  import opened JobInvariant
  import opened JobTheorems
  import opened IndexHandoff

  predicate IsNews(jobType: string) {
    jobType == NEWS_COLLECTION || jobType == NEWS_INDEX
  }

  /** The key ends like that of a retry. */
  predicate IsRetryKey(key: string) {
    |key| >= 8 && (key[|key| - 8..] == ":retry:1" || key[|key| - 8..] == ":retry:2")
  }

  /** A request that looks like no retry. */
  predicate Plain(runKey: string, payload: Payload) {
    !IsRetryKey(runKey) && RETRY_ATTEMPT !in payload && RETRY_ROOT !in payload
  }

  ghost predicate KeepsOff(step: Step) {
    step.TriggerStep? && IsNews(step.jobType) ==> Plain(step.runKey, step.payload)
  }

  ghost predicate IsPlainRun(states: seq<State>, steps: seq<Step>) {
    IsRun(states, steps) && forall k :: 0 <= k < |steps| ==> KeepsOff(steps[k])
  }

  // ------------------------------------------------------------------- keys

  lemma RetryKeyEnds(root: string, n: nat)
    ensures IsRetryKey(RetryKey(root, n))
  {
    var key := RetryKey(root, n);
    assert key[|key| - 8..] == ":retry:" + (if n == 1 then "1" else "2");
  }

  lemma RetryKeyInjective(a: string, m: nat, b: string, n: nat)
    requires RetryKey(a, m) == RetryKey(b, n) && 1 <= m <= 2 && 1 <= n <= 2
    ensures a == b && m == n
  {
    var key := RetryKey(a, m);
    assert key[..|key| - 8] == a && key[..|key| - 8] == b;
    assert key[|key| - 1] == (if m == 1 then '1' else '2') && key[|key| - 1] == (if n == 1 then '1' else '2');
  }

  lemma RetryKeyHasTwoColons(key: string)
    requires IsRetryKey(key)
    ensures key[|key| - 8] == ':' && key[|key| - 2] == ':'
  {
    var tail := key[|key| - 8..];
    assert key[|key| - 8] == tail[0] && key[|key| - 2] == tail[6];
  }

  lemma IndexKeyIsPlain(c: JobId)
    requires IsJobId(c)
    ensures !IsRetryKey(IndexKey(c))
  {
    OneColon(c);
    if IsRetryKey(IndexKey(c)) {
      RetryKeyHasTwoColons(IndexKey(c));
      assert false;
    }
  }

  // -------------------------------------------------------------- invariant

  /** Every news job is plain or a recorded retry. */
  ghost predicate PlainOk(jobs: map<JobId, Job>, retryOf: map<JobId, JobId>) {
    forall j :: j in jobs && IsNews(jobs[j].jobType) && j !in retryOf ==> Plain(jobs[j].runKey, jobs[j].payload)
  }

  lemma MovesKeepPlain(s: State, s': State)
    requires PlainOk(s.db.jobs, s.retryOf) && Moves(s.db, s'.db)
    requires forall c :: c in s.retryOf ==> c in s'.retryOf
    requires forall j :: j in s'.db.jobs && j !in s.db.jobs ==>
      IsNews(s'.db.jobs[j].jobType) && j !in s'.retryOf ==> Plain(s'.db.jobs[j].runKey, s'.db.jobs[j].payload)
    ensures PlainOk(s'.db.jobs, s'.retryOf)
  {
  }

  lemma RequestAdds(db: Db, newId: JobId, jobType: string, runKey: string, payload: Payload, at: Option<Time>, db': Db)
    requires db' == Request(db, newId, jobType, runKey, payload, at)
    ensures forall j :: j in db'.jobs && j !in db.jobs ==>
      j == newId && db'.jobs[j] == Job(jobType, runKey, payload, INITIAL) && !Taken(db, jobType, runKey)
  {
  }

  lemma TriggerKeepsPlain(s: State, step: Step, s': State)
    requires PlainOk(s.db.jobs, s.retryOf) && Next(s, step, s') && step.TriggerStep? && KeepsOff(step) && Moves(s.db, s'.db)
    ensures PlainOk(s'.db.jobs, s'.retryOf)
  {
    TriggerCases(s, step.newId, step.jobType, step.runKey, step.payload);
    if s' != s {
      RequestAdds(s.db, step.newId, step.jobType, step.runKey, step.payload, None, s'.db);
    }
    MovesKeepPlain(s, s');
  }

  lemma RequestedRetryIsPlain(s: State, x: Execution, names: seq<string>, newId: JobId, at: Option<Time>, s1: State, s': State)
    requires PlainOk(s.db.jobs, s.retryOf) && IsRetry(s, x, names, newId, at, s1, s') && Moves(s.db, s'.db)
    ensures PlainOk(s'.db.jobs, s'.retryOf)
  {
    var next, root := RetryAttempt(x.payload) + 1, RootRunKey(x.runKey, x.payload);
    RequestAdds(s.db, newId, x.jobType, RetryKey(root, next), RetryPayload(NewsField(x.jobType), names, next, root), at, s1.db);
    MovesKeepPlain(s, s');
  }

  lemma RetryKeepsPlain(s: State, step: Step, s': State)
    requires PlainOk(s.db.jobs, s.retryOf) && Next(s, step, s') && step.RaiseAndRetry? && Moves(s.db, s'.db)
    ensures PlainOk(s'.db.jobs, s'.retryOf)
  {
    var x := s.workers[step.worker].execution;
    var names := NewsNames(x.jobType, x.payload).value;
    var s2 := RequestRetry(s, x, names, step.newId, step.now);
    var s1, at := RetryUnfolds(s, x, names, step.newId, step.now, s2);
    RequestedRetryIsPlain(s, x, names, step.newId, at, s1, s2);
  }

  /** What a collection adds to the jobs is its index job. */
  lemma CollectAdds(s: State, x: Execution, articles: seq<Article>, indexing: bool, newId: JobId, s1: State)
    requires s1 == CommitArticles(s, x, articles, indexing, newId)
    ensures s1.retryOf == s.retryOf
    ensures forall j :: j in s1.db.jobs && j !in s.db.jobs ==>
      s1.db.jobs[j] == Job(NEWS_INDEX, IndexKey(x.job), map[SOURCE_KEYS := Strings(NewKeys(s.db, articles))], INITIAL)
  {
  }

  lemma CommitKeepsPlain(s: State, x: Execution, articles: seq<Article>, indexing: bool, newId: JobId, s1: State)
    requires PlainOk(s.db.jobs, s.retryOf) && s1 == CommitArticles(s, x, articles, indexing, newId)
    requires Moves(s.db, s1.db) && !IsRetryKey(IndexKey(x.job))
    ensures PlainOk(s1.db.jobs, s1.retryOf)
  {
    CollectAdds(s, x, articles, indexing, newId, s1);
    MovesKeepPlain(s, s1);
  }

  lemma CollectKeepsPlain(s: State, step: Step, s': State)
    requires WorkersOk(s.db, s.workers, s.starts) && KeysOk(s.db)
    requires PlainOk(s.db.jobs, s.retryOf) && Next(s, step, s') && step.Collect? && Moves(s.db, s'.db)
    ensures PlainOk(s'.db.jobs, s'.retryOf)
  {
    var x := s.workers[step.worker].execution;
    assert PhaseOk(s.db, s.starts, s.workers[step.worker]);
    IndexKeyIsPlain(x.job);
    CommitKeepsPlain(s, x, step.articles, step.indexing, step.newId, CommitArticles(s, x, step.articles, step.indexing, step.newId));
  }

  lemma CancelsAddNoJob(s: State, step: Step, s': State)
    requires Next(s, step, s') && (step.CancelBegin? || step.CancelTry? || step.CancelEnd?)
    ensures s'.db.jobs.Keys == s.db.jobs.Keys && s'.retryOf == s.retryOf
  {
  }

  lemma WorkersAddNoJob(s: State, step: Step, s': State)
    requires Next(s, step, s') && (step.Deliver? || step.Start? || step.Raise? || step.Return? || step.Record? || step.Crash?)
    ensures s'.db.jobs.Keys == s.db.jobs.Keys && s'.retryOf == s.retryOf
  {
  }

  lemma StepKeepsPlain(s: State, step: Step, s': State)
    requires Inv(s) && PlainOk(s.db.jobs, s.retryOf) && Next(s, step, s') && KeepsOff(step)
    ensures PlainOk(s'.db.jobs, s'.retryOf)
  {
    StepKeepsInv(s, step, s');
    if step.TriggerStep? {
      TriggerKeepsPlain(s, step, s');
    } else if step.RaiseAndRetry? {
      RetryKeepsPlain(s, step, s');
    } else if step.Collect? {
      CollectKeepsPlain(s, step, s');
    } else {
      if step.CancelBegin? || step.CancelTry? || step.CancelEnd? {
        CancelsAddNoJob(s, step, s');
      } else {
        WorkersAddNoJob(s, step, s');
      }
      MovesKeepPlain(s, s');
    }
  }

  lemma NextPlain(states: seq<State>, steps: seq<Step>, k: nat, s: State, s': State)
    requires IsPlainRun(states, steps) && k < |steps| && s == states[k] && s' == states[k + 1]
    requires PlainOk(s.db.jobs, s.retryOf)
    ensures PlainOk(s'.db.jobs, s'.retryOf)
  {
    RunInv(states, steps, k);
    assert StepAt(states, steps, k) && KeepsOff(steps[k]);
    StepKeepsPlain(s, steps[k], s');
  }

  lemma {:induction false} RunPlain(states: seq<State>, steps: seq<Step>, k: nat)
    requires IsPlainRun(states, steps) && k < |states|
    ensures PlainOk(states[k].db.jobs, states[k].retryOf)
  {
    if k > 0 {
      RunPlain(states, steps, k - 1);
      NextPlain(states, steps, k - 1, states[k - 1], states[k]);
    }
  }

  // ------------------------------------------------------------- uniqueness

  /** The run key of a news job follows from its root and attempt. */
  lemma KeyOfJob(s: State, j: JobId)
    requires RetriesOk(s.db, s.starts, s.workers, s.retryOf) && PlainOk(s.db.jobs, s.retryOf)
    requires j in s.db.jobs && IsNews(s.db.jobs[j].jobType)
    ensures var job := s.db.jobs[j]; var root, n := RootRunKey(job.runKey, job.payload), RetryAttempt(job.payload);
      && (j in s.retryOf <==> n > 0)
      && (n > 0 ==> n <= 2 && job.runKey == RetryKey(root, n))
      && (n == 0 ==> job.runKey == root && !IsRetryKey(job.runKey))
  {
    if j in s.retryOf {
      assert RetryOk(s.db, s.starts, j, s.retryOf[j]);
    }
  }

  /** Two news jobs of one type, root and attempt are one job. */
  lemma OneJobPerAttempt(s: State, i: JobId, j: JobId)
    requires KeysOk(s.db) && RetriesOk(s.db, s.starts, s.workers, s.retryOf) && PlainOk(s.db.jobs, s.retryOf)
    requires i in s.db.jobs && j in s.db.jobs && IsNews(s.db.jobs[i].jobType) && s.db.jobs[i].jobType == s.db.jobs[j].jobType
    requires var a, b := s.db.jobs[i], s.db.jobs[j];
      RootRunKey(a.runKey, a.payload) == RootRunKey(b.runKey, b.payload) && RetryAttempt(a.payload) == RetryAttempt(b.payload)
    ensures i == j
  {
    KeyOfJob(s, i);
    KeyOfJob(s, j);
  }

  /** Whoever holds the key of the next attempt of job `j` is a retry of `j`. */
  lemma HolderIsRetry(s: State, j: JobId, next: nat, root: string)
    requires KeysOk(s.db) && RetriesOk(s.db, s.starts, s.workers, s.retryOf) && PlainOk(s.db.jobs, s.retryOf)
    requires j in s.db.jobs && IsNews(s.db.jobs[j].jobType) && next == RetryAttempt(s.db.jobs[j].payload) + 1 <= 2
    requires root == RootRunKey(s.db.jobs[j].runKey, s.db.jobs[j].payload)
    requires Taken(s.db, s.db.jobs[j].jobType, RetryKey(root, next))
    ensures exists c :: c in s.retryOf && s.retryOf[c] == j
  {
    var c := s.db.keys[(s.db.jobs[j].jobType, RetryKey(root, next))];
    RetryKeyEnds(root, next);
    KeyOfJob(s, c);
    var job := s.db.jobs[c];
    RetryKeyInjective(RootRunKey(job.runKey, job.payload), RetryAttempt(job.payload), root, next);
    assert RetryOk(s.db, s.starts, c, s.retryOf[c]);
    OneJobPerAttempt(s, s.retryOf[c], j);
  }

  lemma KeyIsFree(s: State, w: WorkerId)
    requires Inv(s) && PlainOk(s.db.jobs, s.retryOf) && IsHandling(s, w) && IsNews(s.workers[w].execution.jobType)
    ensures var x := s.workers[w].execution;
      RetryAttempt(x.payload) + 1 < MAX_NEWS_ATTEMPTS ==>
        !Taken(s.db, x.jobType, RetryKey(RootRunKey(x.runKey, x.payload), RetryAttempt(x.payload) + 1))
  {
    var x := s.workers[w].execution;
    assert PhaseOk(s.db, s.starts, s.workers[w]);
    HandlingHasNoRetry(s, w);
    var next, root := RetryAttempt(x.payload) + 1, RootRunKey(x.runKey, x.payload);
    if next < MAX_NEWS_ATTEMPTS && Taken(s.db, x.jobType, RetryKey(root, next)) {
      HolderIsRetry(s, x.job, next, root);
      assert false;
    }
  }

  /** In runs whose triggers look like no retries, a transient failure of a news job in
      its first or second attempt always creates its retry, for good. */
  lemma RetryIsNeverBlocked(states: seq<State>, steps: seq<Step>, k: nat, w: WorkerId, j: nat)
    requires IsPlainRun(states, steps) && k < |steps| && k < j < |states| && steps[k].RaiseAndRetry? && steps[k].worker == w
    ensures w in states[k].workers
    ensures var x := states[k].workers[w].execution;
      && (RetryAttempt(x.payload) == 0 ==> IsRetryOf(states[j], steps[k].newId, x, steps[k].now + 2_000_000))
      && (RetryAttempt(x.payload) == 1 ==> IsRetryOf(states[j], steps[k].newId, x, steps[k].now + 4_000_000))
  {
    RunInv(states, steps, k);
    RunPlain(states, steps, k);
    assert StepAt(states, steps, k);
    KeyIsFree(states[k], w);
    var x := states[k].workers[w].execution;
    if RetryAttempt(x.payload) < 2 {
      RetryTexts(x, []);
    }
    RetryIsScheduled(states, steps, k, w, j);
  }
}
