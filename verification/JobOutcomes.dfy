/** What lies behind a recorded outcome, and what triggers and cancels are answered. */
module JobOutcomes {
  import opened Basics
  import opened JobPayloads
  import opened Jobs
  import opened JobMachine
  import opened JobInvariant
  import opened JobTheorems
  import opened JobHandlers

  /** The step is a claim of the job by worker `w`, and finds the job requested. */
  ghost predicate Claims(s: State, step: Step, s': State, w: WorkerId, x: Execution) {
    && step.Deliver?
    && step.worker == w
    && step.event.Trigger?
    && step.event == Trigger(x.job, x.jobType, x.runKey, x.payload, step.event.availableAt)
    && x.job in s.db.jobs
    && s.db.jobs[x.job].state.status == Requested
    && x.job in s'.db.jobs
    && s'.db.jobs[x.job].state == Change(Running, None, None)
  }

  /** In this step the handler run by `w` returns or raises, with this outcome. */
  ghost predicate Ends(step: Step, w: WorkerId, outcome: Change) {
    match step
    case Raise(v, error) => v == w && outcome == Change(Failed, None, Some(error))
    case RaiseAndRetry(v, error, _, _) => v == w && outcome == Change(Failed, None, Some(error))
    case Collect(v, _, _, _, summary) => v == w && outcome == Change(Succeeded, Some(summary), None)
    case Return(v, result) => v == w && outcome == Change(Succeeded, result, None)
    case _ => false
  }

  ghost predicate InPhase(s: State, w: WorkerId, p: Phase) {
    w in s.workers && s.workers[w] == p
  }

  /** How a worker got into a phase it was not in before. */
  ghost predicate Enters(s: State, step: Step, s': State, w: WorkerId, p: Phase) {
    match p
    case Claimed(x) => Claims(s, step, s', w, x)
    case Handling(x) => step == Start(w) && InPhase(s, w, Claimed(x))
    case Finishing(x, outcome) => Ends(step, w, outcome) && InPhase(s, w, Handling(x))
  }

  lemma RetryEnters(s: State, step: Step, s': State, w: WorkerId)
    requires Next(s, step, s') && step.RaiseAndRetry? && w in s'.workers && !InPhase(s, w, s'.workers[w])
    ensures Enters(s, step, s', w, s'.workers[w])
  {
    var x := s.workers[step.worker].execution;
    RetryKeepsWorkers(s, x, NewsNames(x.jobType, x.payload).value, step.newId, step.now);
  }

  lemma CollectEnters(s: State, step: Step, s': State, w: WorkerId)
    requires Next(s, step, s') && step.Collect? && w in s'.workers && !InPhase(s, w, s'.workers[w])
    ensures Enters(s, step, s', w, s'.workers[w])
  {
    var x := s.workers[step.worker].execution;
    CommitExtends(s, x, step.articles, step.indexing, step.newId, CommitArticles(s, x, step.articles, step.indexing, step.newId));
  }

  lemma WorkerEnters(s: State, step: Step, s': State, w: WorkerId)
    requires Next(s, step, s') && w in s'.workers && !InPhase(s, w, s'.workers[w])
    requires step.Deliver? || step.Start? || step.Raise? || step.Return? || step.Record? || step.Crash?
    ensures Enters(s, step, s', w, s'.workers[w])
  {
  }

  lemma ApiKeepsWorkers(s: State, step: Step, s': State)
    requires Next(s, step, s') && (step.TriggerStep? || step.CancelBegin? || step.CancelTry? || step.CancelEnd?)
    ensures s'.workers == s.workers
  {
  }

  lemma StepEnters(s: State, step: Step, s': State, w: WorkerId)
    requires Next(s, step, s') && w in s'.workers && !InPhase(s, w, s'.workers[w])
    ensures Enters(s, step, s', w, s'.workers[w])
  {
    if step.RaiseAndRetry? {
      RetryEnters(s, step, s', w);
    } else if step.Collect? {
      CollectEnters(s, step, s', w);
    } else if step.TriggerStep? || step.CancelBegin? || step.CancelTry? || step.CancelEnd? {
      ApiKeepsWorkers(s, step, s');
      assert false;
    } else {
      WorkerEnters(s, step, s', w);
    }
  }

  /** Every phase of a run was entered in some step of that run. */
  lemma {:induction false} EnteredAt(states: seq<State>, steps: seq<Step>, k: nat, w: WorkerId, p: Phase) returns (j: nat)
    requires IsRun(states, steps) && k < |states| && InPhase(states[k], w, p)
    ensures j < k && Enters(states[j], steps[j], states[j + 1], w, p)
  {
    assert k > 0;
    if InPhase(states[k - 1], w, p) {
      j := EnteredAt(states, steps, k - 1, w, p);
    } else {
      j := k - 1;
      assert StepAt(states, steps, j);
      StepEnters(states[j], steps[j], states[k], w);
    }
  }

  /** Behind every recorded outcome lie, earlier in the run and in this order, the claim
      of the job by the same worker, the start of its handler and the step in which
      the handler returned or raised; and the row then says just that. */
  lemma OutcomeProvenance(states: seq<State>, steps: seq<Step>, k: nat, w: WorkerId) returns (claimed: nat, started: nat, ended: nat)
    requires IsRun(states, steps) && k < |steps| && steps[k] == Record(w)
    ensures claimed < started < ended < k
    ensures w in states[k].workers && states[k].workers[w].Finishing?
    ensures var x, outcome := states[k].workers[w].execution, states[k].workers[w].outcome;
      && Claims(states[claimed], steps[claimed], states[claimed + 1], w, x)
      && steps[started] == Start(w)
      && Ends(steps[ended], w, outcome)
      && x.job in states[k + 1].db.jobs
      && states[k + 1].db.jobs[x.job].state == outcome
  {
    OutcomeIsRecorded(states, steps, k, w);
    var x, outcome := states[k].workers[w].execution, states[k].workers[w].outcome;
    ended := EnteredAt(states, steps, k, w, Finishing(x, outcome));
    started := EnteredAt(states, steps, ended, w, Handling(x));
    claimed := EnteredAt(states, steps, started, w, Claimed(x));
  }

  // ---------------------------------------------------------------- cancels

  /** The job exists and is of the type the request names. */
  ghost predicate IsKnown(s: State, jobType: string, job: JobId) {
    IsJobType(jobType) && job in s.db.jobs && s.db.jobs[job].jobType == jobType
  }

  lemma KnownIff(s: State, jobType: string, job: JobId)
    ensures IsKnown(s, jobType, job) <==> jobType in JOB_TYPES && job in s.db.jobs && s.db.jobs[job].jobType == jobType
  {
  }

  /** The first statement of a cancel answers 404 exactly for an unknown job and 200
      exactly for a job already cancelled; otherwise the call goes on. */
  lemma CancelBegins(s: State, step: Step, s': State)
    requires Next(s, step, s') && step.CancelBegin?
    ensures s'.db == s.db
    ensures !IsKnown(s, step.jobType, step.job) ==> s'.answers == s.answers + [Answer(step.job, 404)] && s'.cancels == s.cancels
    ensures IsKnown(s, step.jobType, step.job) && s.db.jobs[step.job].state.status == Cancelled ==>
      s'.answers == s.answers + [Answer(step.job, 200)] && s'.cancels == s.cancels
    ensures IsKnown(s, step.jobType, step.job) && s.db.jobs[step.job].state.status != Cancelled ==>
      s'.answers == s.answers && step.request in s'.cancels && s'.cancels[step.request] == Seen(step.job)
  {
    KnownIff(s, step.jobType, step.job);
    assert s' == BeginCancel(s, step.request, step.jobType, step.job);
  }

  /** The update of a cancel leaves no job requested: one that was is cancelled, any
      other stays as it is. */
  lemma CancelTries(s: State, step: Step, s': State)
    requires Inv(s) && Next(s, step, s') && step.CancelTry?
    ensures s'.answers == s.answers && step.request in s'.cancels && !s'.cancels[step.request].Seen?
    ensures var job := s.cancels[step.request].job;
      && s'.cancels[step.request].job == job
      && job in s.db.jobs
      && job in s'.db.jobs
      && s'.db.jobs[job].state ==
         (if s.db.jobs[job].state.status == Requested then Change(Cancelled, None, None) else s.db.jobs[job].state)
  {
    assert CancelOk(s.db, s.cancels[step.request]);
  }

  /** The call ends with 200 exactly if the job is cancelled then, and with 409 if not. */
  lemma CancelEnds(s: State, step: Step, s': State)
    requires Inv(s) && Next(s, step, s') && step.CancelEnd?
    ensures s'.db == s.db && step.request !in s'.cancels
    ensures var job := s.cancels[step.request].job;
      && job in s.db.jobs
      && s'.answers == s.answers + [Answer(job, if s.db.jobs[job].state.status == Cancelled then 200 else 409)]
  {
    assert CancelOk(s.db, s.cancels[step.request]);
  }

  /** What a cancel call answers in every run, statement by statement. */
  lemma CancelIsAnswered(states: seq<State>, steps: seq<Step>, k: nat)
    requires IsRun(states, steps) && k < |steps|
    ensures steps[k].CancelBegin? ==>
      states[k + 1].answers ==
        if !IsKnown(states[k], steps[k].jobType, steps[k].job) then states[k].answers + [Answer(steps[k].job, 404)]
        else if states[k].db.jobs[steps[k].job].state.status == Cancelled then states[k].answers + [Answer(steps[k].job, 200)]
        else states[k].answers
    ensures steps[k].CancelTry? ==>
      && steps[k].request in states[k].cancels
      && var job := states[k].cancels[steps[k].request].job;
         job in states[k + 1].db.jobs && states[k + 1].db.jobs[job].state.status != Requested
    ensures steps[k].CancelEnd? ==>
      && steps[k].request in states[k].cancels
      && var job := states[k].cancels[steps[k].request].job;
         && job in states[k].db.jobs
         && states[k + 1].answers == states[k].answers + [Answer(job, if states[k].db.jobs[job].state.status == Cancelled then 200 else 409)]
  {
    RunInv(states, steps, k);
    assert StepAt(states, steps, k);
    if steps[k].CancelBegin? {
      CancelBegins(states[k], steps[k], states[k + 1]);
    } else if steps[k].CancelTry? {
      CancelTries(states[k], steps[k], states[k + 1]);
    } else if steps[k].CancelEnd? {
      CancelEnds(states[k], steps[k], states[k + 1]);
    }
  }

  // --------------------------------------------------------------- triggers

  /** In every run a trigger with a known type, a run key and, for the market jobs, a
      stock code is answered with the job that then holds the key, which is the new
      one exactly if nobody held the key before; any other changes nothing. */
  lemma TriggerIsAnswered(states: seq<State>, steps: seq<Step>, k: nat)
    requires IsRun(states, steps) && k < |steps| && steps[k].TriggerStep?
    ensures var s, s', jobType, runKey := states[k], states[k + 1], steps[k].jobType, steps[k].runKey;
      if IsJobType(jobType) && runKey != "" && (IsMarketJob(jobType) ==> HasStockCode(steps[k].payload)) then
        && (jobType, runKey) in s'.db.keys
        && s'.replies == s.replies + [Reply(jobType, runKey, RequestResult(s'.db.keys[(jobType, runKey)], (jobType, runKey) !in s.db.keys))]
        && (if (jobType, runKey) in s.db.keys then s'.db == s.db
            else
              && s'.db.keys[(jobType, runKey)] == steps[k].newId
              && s'.db.jobs == s.db.jobs[steps[k].newId := Job(jobType, runKey, steps[k].payload, Change(Requested, None, None))])
      else s' == s
  {
    assert StepAt(states, steps, k);
    StockCodeAccepted(steps[k].payload);
  }
}
