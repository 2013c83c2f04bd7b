/** What the durable job machine guarantees in every run. */
module JobTheorems {
  import opened Basics
  import opened JobPayloads
  import opened Jobs
  import opened JobMachine
  import opened JobInvariant

  // ------------------------------------------------------- along a whole run

  /** Nothing recorded is ever taken back. */
  ghost predicate Extends(s: State, s': State) {
    && s.starts <= s'.starts
    && s.answers <= s'.answers
    && s.replies <= s'.replies
    && (forall c :: c in s.retryOf ==> c in s'.retryOf && s'.retryOf[c] == s.retryOf[c])
  }

  lemma RequestExtends(s: State, newId: JobId, jobType: string, runKey: string, payload: Payload, at: Option<Time>, s': State)
    requires s' == DoRequest(s, newId, jobType, runKey, payload, at)
    ensures Extends(s, s') && s'.retryOf == s.retryOf
  {
  }

  lemma LinkExtends(s: State, c: JobId, p: JobId, s': State)
    requires s' == Linked(s, c, p) && c !in s.retryOf
    ensures Extends(s, s')
  {
  }

  lemma RetryExtends(s: State, x: Execution, names: seq<string>, newId: JobId, now: Time, s': State)
    requires newId !in s.retryOf && s' == RequestRetry(s, x, names, newId, now)
    ensures Extends(s, s')
  {
    var s1, at := RetryUnfolds(s, x, names, newId, now, s');
    var next, root := RetryAttempt(x.payload) + 1, RootRunKey(x.runKey, x.payload);
    RequestExtends(s, newId, x.jobType, RetryKey(root, next), RetryPayload(NewsField(x.jobType), names, next, root), at, s1);
    LinkExtends(s1, newId, x.job, Linked(s1, newId, x.job));
  }

  lemma NewIsNoRetry(s: State, newId: JobId)
    requires RetriesOk(s.db, s.starts, s.workers, s.retryOf) && newId !in s.db.jobs
    ensures newId !in s.retryOf
  {
  }

  lemma ConcludeExtends(s: State, w: WorkerId, outcome: Change, s1: State, s': State)
    requires w in s1.workers && Extends(s, s1) && s' == Conclude(s1, w, outcome)
    ensures Extends(s, s')
  {
  }

  lemma CommitExtends(s: State, x: Execution, articles: seq<Article>, indexing: bool, newId: JobId, s': State)
    requires s' == CommitArticles(s, x, articles, indexing, newId)
    ensures Extends(s, s') && s'.workers == s.workers
  {
  }

  lemma NewsStepExtends(s: State, step: Step, s': State)
    requires RetriesOk(s.db, s.starts, s.workers, s.retryOf) && Next(s, step, s') && (step.RaiseAndRetry? || step.Collect?)
    ensures Extends(s, s')
  {
    var w := step.worker;
    var x := s.workers[w].execution;
    match step
    case RaiseAndRetry(_, error, newId, now) =>
      var names := NewsNames(x.jobType, x.payload).value;
      var s1 := RequestRetry(s, x, names, newId, now);
      NewIsNoRetry(s, newId);
      RetryExtends(s, x, names, newId, now, s1);
      RetryKeepsWorkers(s, x, names, newId, now);
      ConcludeExtends(s, w, Change(Failed, None, Some(error)), s1, s');
    case Collect(_, articles, indexing, newId, summary) =>
      var s1 := CommitArticles(s, x, articles, indexing, newId);
      CommitExtends(s, x, articles, indexing, newId, s1);
      ConcludeExtends(s, w, Change(Succeeded, Some(summary), None), s1, s');
  }

  lemma TriggerExtends(s: State, newId: JobId, jobType: string, runKey: string, payload: Payload, s': State)
    requires s' == TriggerJob(s, newId, jobType, runKey, payload)
    ensures Extends(s, s')
  {
  }

  lemma CancelStepExtends(s: State, step: Step, s': State)
    requires Next(s, step, s') && (step.CancelBegin? || step.CancelTry? || step.CancelEnd?)
    ensures Extends(s, s')
  {
  }

  lemma WorkerStepExtends(s: State, step: Step, s': State)
    requires Next(s, step, s')
    requires step.Deliver? || step.Start? || step.Raise? || step.Return? || step.Record? || step.Crash?
    ensures Extends(s, s')
  {
  }

  lemma StepExtends(s: State, step: Step, s': State)
    requires RetriesOk(s.db, s.starts, s.workers, s.retryOf) && Next(s, step, s')
    ensures Extends(s, s')
  {
    if step.TriggerStep? {
      TriggerExtends(s, step.newId, step.jobType, step.runKey, step.payload, s');
    } else if step.RaiseAndRetry? || step.Collect? {
      NewsStepExtends(s, step, s');
    } else if step.CancelBegin? || step.CancelTry? || step.CancelEnd? {
      CancelStepExtends(s, step, s');
    } else {
      WorkerStepExtends(s, step, s');
    }
  }

  lemma {:induction false} RunExtends(states: seq<State>, steps: seq<Step>, i: nat, k: nat)
    requires IsRun(states, steps) && i <= k < |states|
    ensures Extends(states[i], states[k])
    decreases k - i
  {
    if i < k {
      RunExtends(states, steps, i, k - 1);
      RunInv(states, steps, k - 1);
      assert StepAt(states, steps, k - 1);
      StepExtends(states[k - 1], steps[k - 1], states[k]);
    }
  }

  lemma RunMoves(states: seq<State>, steps: seq<Step>, k: nat)
    requires IsRun(states, steps) && k < |steps|
    ensures Moves(states[k].db, states[k + 1].db)
  {
    RunInv(states, steps, k);
    assert StepAt(states, steps, k);
    StepKeepsInv(states[k], steps[k], states[k + 1]);
  }

  predicate Terminal(status: Status) {
    status == Succeeded || status == Failed || status == Cancelled
  }

  /** The order in which statuses can follow one another. */
  predicate Reaches(from: Status, to: Status) {
    from == to || from == Requested || (from == Running && (to == Succeeded || to == Failed))
  }

  /** A job never disappears, its request data never change, its status only moves
      forward, and once it is terminal its whole row is frozen. */
  lemma {:induction false} JobHistory(states: seq<State>, steps: seq<Step>, i: nat, k: nat, j: JobId)
    requires IsRun(states, steps) && i <= k < |states| && j in states[i].db.jobs
    ensures j in states[k].db.jobs
    ensures states[k].db.jobs[j] == states[i].db.jobs[j].(state := states[k].db.jobs[j].state)
    ensures Reaches(states[i].db.jobs[j].state.status, states[k].db.jobs[j].state.status)
    ensures Terminal(states[i].db.jobs[j].state.status) ==> states[k].db.jobs[j] == states[i].db.jobs[j]
    decreases k - i
  {
    if i < k {
      JobHistory(states, steps, i, k - 1, j);
      RunMoves(states, steps, k - 1);
    }
  }

  // ------------------------------------------------------------ at most once

  /** However workers, redeliveries, crashes and cancels interleave, a job's handler
      starts at most once, only while its row is past `requested` and not cancelled,
      and no worker ever loses its completion. */
  lemma AtMostOnce(states: seq<State>, steps: seq<Step>, k: nat)
    requires IsRun(states, steps) && k < |states|
    ensures NoDup(states[k].starts)
    ensures forall j :: j in states[k].starts ==> j in states[k].db.jobs && Started(states[k].db.jobs[j].state.status)
    ensures !states[k].lost
  {
    RunInv(states, steps, k);
  }

  /** A worker that is about to record its outcome always hits a running row. */
  lemma CompletionHits(states: seq<State>, steps: seq<Step>, k: nat, w: WorkerId)
    requires IsRun(states, steps) && k < |states| && w in states[k].workers
    ensures Hits(states[k].db, states[k].workers[w].execution.job, Running)
  {
    RunInv(states, steps, k);
    RunningJobs(states[k]);
  }

  lemma AnswerHolds(states: seq<State>, steps: seq<Step>, k: nat, a: Answer)
    requires IsRun(states, steps) && k < |states| && a in states[k].answers
    ensures AnswerOk(states[k].db, a)
  {
    RunInv(states, steps, k);
  }

  /** A cancel answered with 200 and a handler start exclude each other, whichever
      comes first; the job then is and stays cancelled. */
  lemma CancelExcludesStart(states: seq<State>, steps: seq<Step>, i: nat, k: nat, job: JobId)
    requires IsRun(states, steps) && i < |states| && k < |states| && Answer(job, 200) in states[i].answers
    ensures job !in states[k].starts
    ensures i <= k ==> job in states[k].db.jobs && states[k].db.jobs[job].state.status == Cancelled
  {
    var m := if i <= k then k else i;
    RunExtends(states, steps, i, m);
    RunExtends(states, steps, k, m);
    AnswerHolds(states, steps, m, Answer(job, 200));
    AtMostOnce(states, steps, m);
  }

  /** A 409 is truthful: the job was claimed, and is never cancelled afterwards. */
  lemma ConflictIsTruthful(states: seq<State>, steps: seq<Step>, i: nat, k: nat, job: JobId)
    requires IsRun(states, steps) && i <= k < |states| && Answer(job, 409) in states[i].answers
    ensures job in states[k].db.jobs && Started(states[k].db.jobs[job].state.status)
    ensures Answer(job, 200) !in states[k].answers
  {
    RunExtends(states, steps, i, k);
    AnswerHolds(states, steps, k, Answer(job, 409));
    if Answer(job, 200) in states[k].answers {
      AnswerHolds(states, steps, k, Answer(job, 200));
      assert false;
    }
  }

  /** Recording ends the job's row exactly as its handler ended. */
  lemma OutcomeIsRecorded(states: seq<State>, steps: seq<Step>, k: nat, w: WorkerId)
    requires IsRun(states, steps) && k < |steps| && steps[k] == Record(w)
    ensures w in states[k].workers && states[k].workers[w].Finishing?
    ensures var p := states[k].workers[w];
      p.execution.job in states[k + 1].db.jobs && states[k + 1].db.jobs[p.execution.job].state == p.outcome
  {
    assert StepAt(states, steps, k);
    CompletionHits(states, steps, k, w);
  }

  // ------------------------------------------------------------- the job log

  /** A job row is the fold of its status events, and these form one of five logs. */
  lemma LogRefinement(states: seq<State>, steps: seq<Step>, k: nat, j: JobId)
    requires IsRun(states, steps) && k < |states| && j in states[k].db.jobs
    ensures var log := StatusLog(states[k].db.outbox, j);
      && states[k].db.jobs[j].state == Fold(log)
      && (log == []
          || (|log| == 1 && log[0].status in {Cancelled, Running})
          || (|log| == 2 && log[0].status == Running && log[1].status in {Succeeded, Failed}))
  {
    RunInv(states, steps, k);
  }

  // --------------------------------------------------------------- requests

  /** All requests for one (job_type, run_key), at any two moments, are answered
      with one job, of that type and key. */
  lemma RequestsAgree(states: seq<State>, steps: seq<Step>, i: nat, k: nat, a: Reply, b: Reply)
    requires IsRun(states, steps) && i <= k < |states| && a in states[i].replies && b in states[k].replies
    requires a.jobType == b.jobType && a.runKey == b.runKey
    ensures a.result.job == b.result.job
    ensures var j := b.result.job; var jobs := states[k].db.jobs;
      j in jobs && jobs[j].jobType == b.jobType && jobs[j].runKey == b.runKey
  {
    RunExtends(states, steps, i, k);
    RunInv(states, steps, k);
    assert ReplyOk(states[k].db, a) && ReplyOk(states[k].db, b);
  }

  /** Every job was reported as created exactly once and has exactly one trigger
      event, which carries the data it was requested with. */
  lemma CreatedOnce(states: seq<State>, steps: seq<Step>, k: nat, j: JobId)
    requires IsRun(states, steps) && k < |states|
    ensures CreatedCount(states[k].replies, j) == if j in states[k].db.jobs then 1 else 0
    ensures Triggers(states[k].db.outbox, j) == if j in states[k].db.jobs then 1 else 0
    ensures forall e :: e in states[k].db.outbox && e.Trigger? && e.job == j ==>
      j in states[k].db.jobs && e == Trigger(j, states[k].db.jobs[j].jobType, states[k].db.jobs[j].runKey,
                                             states[k].db.jobs[j].payload, e.availableAt)
  {
    RunInv(states, steps, k);
    if j !in states[k].db.jobs {
      NoEvents(states[k].db, states[k].db.outbox, j);
    }
    forall e | e in states[k].db.outbox ensures EventOk(states[k].db, e) {
    }
  }

  // ---------------------------------------------------------------- retries

  /** Each job of the chain was created as the retry of the one before it. */
  ghost predicate IsRetryChain(s: State, chain: seq<JobId>) {
    && chain != []
    && chain[0] in s.db.jobs
    && forall i :: 0 < i < |chain| ==> chain[i] in s.retryOf && s.retryOf[chain[i]] == chain[i - 1]
  }

  lemma ChainLink(s: State, chain: seq<JobId>, i: nat)
    requires RetriesOk(s.db, s.starts, s.workers, s.retryOf) && IsRetryChain(s, chain) && i + 1 < |chain|
    ensures RetryOk(s.db, s.starts, chain[i + 1], chain[i])
  {
    assert chain[i + 1] in s.retryOf;
  }

  lemma {:induction false} ChainJob(s: State, chain: seq<JobId>, i: nat)
    requires RetriesOk(s.db, s.starts, s.workers, s.retryOf) && IsRetryChain(s, chain) && i < |chain|
    ensures chain[i] in s.db.jobs && chain[0] in s.db.jobs
    ensures var first, job := s.db.jobs[chain[0]], s.db.jobs[chain[i]];
      && job.jobType == first.jobType
      && RetryAttempt(job.payload) == RetryAttempt(first.payload) + i
      && (i > 0 ==> RetryAttempt(job.payload) <= 2)
      && RootRunKey(job.runKey, job.payload) == RootRunKey(first.runKey, first.payload)
      && NewsNames(job.jobType, job.payload) == NewsNames(first.jobType, first.payload)
  {
    if i > 0 {
      ChainJob(s, chain, i - 1);
      ChainLink(s, chain, i - 1);
    }
  }

  /** A retry chain has at most two retries. Along it the attempt rises by one each
      time, while job type, root run key and normalised names stay the same, and
      only its last job can ever succeed. */
  lemma RetryChainsAreBounded(states: seq<State>, steps: seq<Step>, k: nat, chain: seq<JobId>)
    requires IsRun(states, steps) && k < |states| && IsRetryChain(states[k], chain)
    ensures |chain| <= 3
    ensures forall i :: 0 <= i < |chain| ==> chain[i] in states[k].db.jobs
    ensures forall i :: 0 <= i < |chain| ==>
      var first, job := states[k].db.jobs[chain[0]], states[k].db.jobs[chain[i]];
      && job.jobType == first.jobType
      && RetryAttempt(job.payload) == RetryAttempt(first.payload) + i
      && RootRunKey(job.runKey, job.payload) == RootRunKey(first.runKey, first.payload)
      && NewsNames(job.jobType, job.payload) == NewsNames(first.jobType, first.payload)
    ensures forall i :: 0 <= i < |chain| - 1 ==> states[k].db.jobs[chain[i]].state.status != Succeeded
  {
    RunInv(states, steps, k);
    var s := states[k];
    forall i | 0 <= i < |chain|
      ensures chain[i] in s.db.jobs
      ensures var first, job := s.db.jobs[chain[0]], s.db.jobs[chain[i]];
        && job.jobType == first.jobType
        && RetryAttempt(job.payload) == RetryAttempt(first.payload) + i
        && RootRunKey(job.runKey, job.payload) == RootRunKey(first.runKey, first.payload)
        && NewsNames(job.jobType, job.payload) == NewsNames(first.jobType, first.payload)
    {
      ChainJob(s, chain, i);
    }
    forall i | 0 <= i < |chain| - 1 ensures s.db.jobs[chain[i]].state.status != Succeeded {
      ChainLink(s, chain, i);
    }
    ChainJob(s, chain, |chain| - 1);
  }

  // ------------------------------------------------------- scheduled retries

  lemma NewsStepLogs(s: State, step: Step, s': State)
    requires Next(s, step, s') && (step.RaiseAndRetry? || step.Collect?)
    ensures s.db.outbox <= s'.db.outbox
  {
  }

  lemma ApiStepLogs(s: State, step: Step, s': State)
    requires Next(s, step, s') && (step.TriggerStep? || step.CancelBegin? || step.CancelTry? || step.CancelEnd?)
    ensures s.db.outbox <= s'.db.outbox
  {
  }

  lemma WorkerStepLogs(s: State, step: Step, s': State)
    requires Next(s, step, s')
    requires step.Deliver? || step.Start? || step.Raise? || step.Return? || step.Record? || step.Crash?
    ensures s.db.outbox <= s'.db.outbox
  {
  }

  lemma {:induction false} OutboxGrows(states: seq<State>, steps: seq<Step>, i: nat, k: nat)
    requires IsRun(states, steps) && i <= k < |states|
    ensures states[i].db.outbox <= states[k].db.outbox
    decreases k - i
  {
    if i < k {
      OutboxGrows(states, steps, i, k - 1);
      assert StepAt(states, steps, k - 1);
      StepLogs(states[k - 1], steps[k - 1], states[k]);
    }
  }

  lemma StepLogs(s: State, step: Step, s': State)
    requires Next(s, step, s')
    ensures s.db.outbox <= s'.db.outbox
  {
    if step.RaiseAndRetry? || step.Collect? {
      NewsStepLogs(s, step, s');
    } else if step.TriggerStep? || step.CancelBegin? || step.CancelTry? || step.CancelEnd? {
      ApiStepLogs(s, step, s');
    } else {
      WorkerStepLogs(s, step, s');
    }
  }

  lemma {:induction false} SomeTrigger(outbox: seq<JobEvent>, j: JobId, e: JobEvent)
    requires e in outbox && e.Trigger? && e.job == j
    ensures Triggers(outbox, j) >= 1
  {
    var n := |outbox| - 1;
    if outbox[n] != e {
      assert e in outbox[..n];
      SomeTrigger(outbox[..n], j, e);
    }
  }

  lemma {:induction false} OnlyTrigger(outbox: seq<JobEvent>, j: JobId, a: JobEvent, b: JobEvent)
    requires Triggers(outbox, j) == 1 && a in outbox && b in outbox && a.Trigger? && b.Trigger? && a.job == j && b.job == j
    ensures a == b
  {
    var n := |outbox| - 1;
    assert outbox == outbox[..n] + [outbox[n]];
    if outbox[n].Trigger? && outbox[n].job == j {
      if a in outbox[..n] {
        SomeTrigger(outbox[..n], j, a);
      }
      if b in outbox[..n] {
        SomeTrigger(outbox[..n], j, b);
      }
    } else {
      OnlyTrigger(outbox[..n], j, a, b);
    }
  }

  lemma RetryRequests(s: State, x: Execution, names: seq<string>, newId: JobId, now: Time, next: nat, root: string, key: string, s': State)
    requires s' == RequestRetry(s, x, names, newId, now)
    requires next == RetryAttempt(x.payload) + 1 && root == RootRunKey(x.runKey, x.payload) && key == RetryKey(root, next)
    ensures next >= MAX_NEWS_ATTEMPTS ==> s'.db == s.db
    ensures next < MAX_NEWS_ATTEMPTS && !Taken(s.db, x.jobType, key) ==>
      && newId in s'.db.jobs && s'.db.jobs[newId] == Job(x.jobType, key, RetryPayload(NewsField(x.jobType), names, next, root), INITIAL)
      && newId in s'.retryOf && s'.retryOf[newId] == x.job
      && Trigger(newId, x.jobType, key, RetryPayload(NewsField(x.jobType), names, next, root),
                 Some(now + Seconds(Pow2(next)))) in s'.db.outbox
  {
  }

  /** The event that triggers retry `c`. */
  ghost predicate DueAt(s: State, c: JobId, at: Time) {
    && c in s.db.jobs
    && Triggers(s.db.outbox, c) == 1
    && forall e :: e in s.db.outbox && e.Trigger? && e.job == c ==>
         e == Trigger(c, s.db.jobs[c].jobType, s.db.jobs[c].runKey, s.db.jobs[c].payload, Some(at))
  }

  /** Job `c` is the retry of the failed execution `x`, due at `at`. */
  ghost predicate IsRetryOf(s: State, c: JobId, x: Execution, at: Time) {
    && c in s.retryOf
    && s.retryOf[c] == x.job
    && DueAt(s, c, at)
    && var job, attempt, root := s.db.jobs[c], RetryAttempt(x.payload), RootRunKey(x.runKey, x.payload);
       && job.jobType == x.jobType
       && job.runKey == root + (if attempt == 0 then ":retry:1" else ":retry:2")
       && NewsNames(x.jobType, x.payload).Some?
       && job.payload == map[(if x.jobType == "news_collection" then "symbols" else "source_keys")
                               := Strings(NewsNames(x.jobType, x.payload).value),
                             "_news_retry_attempt" := Int(attempt + 1),
                             "_news_retry_root_run_key" := Str(root)]
  }

  lemma RetryTexts(x: Execution, names: seq<string>)
    requires RetryAttempt(x.payload) < 2
    ensures var attempt, root := RetryAttempt(x.payload), RootRunKey(x.runKey, x.payload);
      && RetryKey(root, attempt + 1) == root + (if attempt == 0 then ":retry:1" else ":retry:2")
      && Pow2(attempt + 1) == (if attempt == 0 then 2 else 4)
      && RetryPayload(NewsField(x.jobType), names, attempt + 1, root) ==
           map[(if x.jobType == "news_collection" then "symbols" else "source_keys") := Strings(names),
               "_news_retry_attempt" := Int(attempt + 1),
               "_news_retry_root_run_key" := Str(root)]
  {
    assert Pow2(1) == 2 && Pow2(2) == 4;
    var root := RootRunKey(x.runKey, x.payload);
    assert root + ":retry:" + "1" == root + ":retry:1" && root + ":retry:" + "2" == root + ":retry:2";
  }

  /** A transient failure of a news job in its first or second attempt, unless somebody
      took the retry's run key, creates its retry for good: in every later state the
      retry is linked to the failed job, whatever became of it, and the one event that
      ever triggers it is due exactly 2 or 4 seconds after the failure. The third
      attempt is the last. */
  lemma RetryIsScheduled(states: seq<State>, steps: seq<Step>, k: nat, w: WorkerId, j: nat)
    requires IsRun(states, steps) && k < |steps| && k < j < |states| && steps[k].RaiseAndRetry? && steps[k].worker == w
    ensures w in states[k].workers
    ensures var x := states[k].workers[w].execution;
      var attempt, root := RetryAttempt(x.payload), RootRunKey(x.runKey, x.payload);
      && (attempt >= 2 ==> states[k + 1].db == states[k].db)
      && (attempt == 0 && !Taken(states[k].db, x.jobType, root + ":retry:1") ==>
            IsRetryOf(states[j], steps[k].newId, x, steps[k].now + 2_000_000))
      && (attempt == 1 && !Taken(states[k].db, x.jobType, root + ":retry:2") ==>
            IsRetryOf(states[j], steps[k].newId, x, steps[k].now + 4_000_000))
  {
    assert StepAt(states, steps, k);
    var s, x, newId := states[k], states[k].workers[w].execution, steps[k].newId;
    var names := NewsNames(x.jobType, x.payload).value;
    var next, root := RetryAttempt(x.payload) + 1, RootRunKey(x.runKey, x.payload);
    var key := RetryKey(root, next);
    RetryRequests(s, x, names, newId, steps[k].now, next, root, key, RequestRetry(s, x, names, newId, steps[k].now));
    if next < 3 {
      RetryTexts(x, names);
      if !Taken(s.db, x.jobType, key) {
        RunExtends(states, steps, k + 1, j);
        DueForGood(states, steps, k + 1, j, Trigger(newId, x.jobType, key, RetryPayload(NewsField(x.jobType), names, next, root),
                                                    Some(steps[k].now + Seconds(Pow2(next)))));
      }
    }
  }

  lemma DueForGood(states: seq<State>, steps: seq<Step>, k: nat, j: nat, e: JobEvent)
    requires IsRun(states, steps) && k <= j < |states| && e in states[k].db.outbox && e.Trigger? && e.availableAt.Some?
    ensures DueAt(states[j], e.job, e.availableAt.value)
    ensures var job := states[j].db.jobs[e.job]; job.jobType == e.jobType && job.runKey == e.runKey && job.payload == e.payload
  {
    OutboxGrows(states, steps, k, j);
    RunInv(states, steps, j);
    var s := states[j];
    assert e in s.db.outbox;
    assert EventOk(s.db, e);
    forall x | x in s.db.outbox && x.Trigger? && x.job == e.job ensures x == e {
      OnlyTrigger(s.db.outbox, e.job, x, e);
    }
  }

  /** A job that scheduled a retry never succeeds, now or later, and its one start
      came before the retry. */
  lemma RetriedNeverSucceeds(states: seq<State>, steps: seq<Step>, i: nat, k: nat, c: JobId)
    requires IsRun(states, steps) && i <= k < |states| && c in states[i].retryOf
    ensures var p := states[i].retryOf[c];
      && p in states[i].starts
      && p in states[k].db.jobs
      && states[k].db.jobs[p].state.status != Succeeded
  {
    RunExtends(states, steps, i, k);
    RunInv(states, steps, i);
    RunInv(states, steps, k);
    RetriedJobs(states[i]);
    RetriedJobs(states[k]);
  }
}
