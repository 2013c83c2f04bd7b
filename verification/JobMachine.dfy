/** Durable jobs as a state machine: triggers, workers, redeliveries, crashes and
    cancels interleave statement by statement. A compare-and-set together with its
    commit is one step, because the updated row stays locked until the commit. */
module JobMachine {
  import opened Basics
  import opened Text
  import opened JobPayloads
  import opened Jobs

  type WorkerId = nat
  type RequestId = nat

  datatype Execution = Execution(job: JobId, jobType: string, runKey: string, payload: Payload)

  /** A worker is idle, has claimed a job, runs its handler, or knows the handler's
      outcome and has still to record it. */
  datatype Phase =
    | Claimed(execution: Execution)
    | Handling(execution: Execution)
    | Finishing(execution: Execution, outcome: Change)

  /** A cancel request after its first read, after a hit, or after a miss. */
  datatype CancelPhase = Seen(job: JobId) | Hit(job: JobId) | Missed(job: JobId)

  datatype Answer = Answer(job: JobId, code: int)

  datatype Reply = Reply(jobType: string, runKey: string, result: RequestResult)

  /** History: `replies` to every request, handler `starts` in order, cancel
      `answers`, which created job retries which, which collection jobs committed
      their articles, which of them inserted each article, and whether a worker
      ever found its completion lost. */
  datatype State = State(
    db: Db,
    workers: map<WorkerId, Phase>,
    cancels: map<RequestId, CancelPhase>,
    replies: seq<Reply>,
    starts: seq<JobId>,
    answers: seq<Answer>,
    retryOf: map<JobId, JobId>,
    collected: set<JobId>,
    insertedBy: map<string, JobId>,
    lost: bool)

  const INIT := State(EMPTY_DB, map[], map[], [], [], [], map[], {}, map[], false)

  function IndexKey(job: JobId): string {
    "news-index:" + job
  }

  /** Attempts are one digit: a retry carries attempt 1 or 2. */
  function RetryKey(root: string, attempt: nat): string {
    root + ":retry:" + (if attempt == 1 then "1" else "2")
  }

  function DoRequest(s: State, newId: JobId, jobType: string, runKey: string, payload: Payload, availableAt: Option<Time>): State {
    s.(db := Request(s.db, newId, jobType, runKey, payload, availableAt),
       replies := s.replies + [Reply(jobType, runKey, AnswerTo(s.db, newId, jobType, runKey))])
  }

  // ---------------------------------------------------------------- the API

  /** Only the two market jobs have their payload checked when they are triggered. */
  predicate PayloadAccepted(jobType: string, payload: Payload) {
    jobType == PRICE_SNAPSHOT || jobType == DAILY_CANDLES ==>
      STOCK_CODE in payload && payload[STOCK_CODE].Str? && NormalizeStockCode(payload[STOCK_CODE].s).Some?
  }

  /** An unknown job type, an empty run key or a bad payload is refused. */
  function TriggerJob(s: State, newId: JobId, jobType: string, runKey: string, payload: Payload): State {
    if jobType !in JOB_TYPES || runKey == "" || !PayloadAccepted(jobType, payload) then s
    else DoRequest(s, newId, jobType, runKey, payload, None)
  }

  function BeginCancel(s: State, request: RequestId, jobType: string, job: JobId): State {
    if jobType !in JOB_TYPES || job !in s.db.jobs || s.db.jobs[job].jobType != jobType then
      s.(answers := s.answers + [Answer(job, 404)])
    else if s.db.jobs[job].state.status == Cancelled then s.(answers := s.answers + [Answer(job, 200)])
    else s.(cancels := s.cancels[request := Seen(job)])
  }

  function TryCancel(s: State, request: RequestId): State
    requires request in s.cancels
  {
    var job := s.cancels[request].job;
    s.(db := Transition(s.db, job, Requested, Change(Cancelled, None, None)),
       cancels := s.cancels[request := if Hits(s.db, job, Requested) then Hit(job) else Missed(job)])
  }

  function EndCancel(s: State, request: RequestId): State
    requires request in s.cancels
  {
    var job := s.cancels[request].job;
    var code :=
      if s.cancels[request].Hit? then (if job in s.db.jobs then 200 else 404)
      else if job in s.db.jobs && s.db.jobs[job].state.status == Cancelled then 200 else 409;
    s.(cancels := s.cancels - {request}, answers := s.answers + [Answer(job, code)])
  }

  // ------------------------------------------------------------- the worker

  function Claim(s: State, w: WorkerId, e: JobEvent): State
    requires e.Trigger?
  {
    var hit := Hits(s.db, e.job, Requested);
    s.(db := Transition(s.db, e.job, Requested, Change(Running, None, None)),
       workers := if hit then s.workers[w := Claimed(Execution(e.job, e.jobType, e.runKey, e.payload))] else s.workers)
  }

  function Begin(s: State, w: WorkerId): State
    requires w in s.workers
  {
    s.(workers := s.workers[w := Handling(s.workers[w].execution)], starts := s.starts + [s.workers[w].execution.job])
  }

  function Conclude(s: State, w: WorkerId, outcome: Change): State
    requires w in s.workers
  {
    s.(workers := s.workers[w := Finishing(s.workers[w].execution, outcome)])
  }

  function Finish(s: State, w: WorkerId): State
    requires w in s.workers && s.workers[w].Finishing?
  {
    var job, outcome := s.workers[w].execution.job, s.workers[w].outcome;
    s.(db := Transition(s.db, job, Running, outcome),
       workers := s.workers - {w},
       lost := s.lost || (outcome.status == Succeeded && !Hits(s.db, job, Running)))
  }

  // ----------------------------------------------------------- the handlers

  function NewsField(jobType: string): string {
    if jobType == NEWS_COLLECTION then SYMBOLS else SOURCE_KEYS
  }

  /** The normalised names a news job works on. */
  function NewsNames(jobType: string, payload: Payload): Option<seq<string>> {
    if jobType == NEWS_COLLECTION then SymbolsFrom(payload) else SourceKeysFrom(payload)
  }

  /** Schedules a retry of a failed news job unless its attempts are used up. */
  function RequestRetry(s: State, x: Execution, names: seq<string>, newId: JobId, now: Time): State {
    var attempt := RetryAttempt(x.payload);
    if attempt >= MAX_NEWS_ATTEMPTS - 1 then s
    else
      var root, next := RootRunKey(x.runKey, x.payload), attempt + 1;
      var key := RetryKey(root, next);
      var s1 := DoRequest(s, newId, x.jobType, key, RetryPayload(NewsField(x.jobType), names, next, root),
                          Some(now + Seconds(Pow2(next))));
      if Taken(s.db, x.jobType, key) then s1 else s1.(retryOf := s1.retryOf[newId := x.job])
  }

  /** The collector's one transaction: insert the articles and, when indexing is on,
      request an index job for the keys that were new. */
  function CommitArticles(s: State, x: Execution, articles: seq<Article>, indexing: bool, newId: JobId): State {
    var keys := NewKeys(s.db, articles);
    var s1 := s.(db := InsertArticles(s.db, articles),
                 collected := s.collected + {x.job},
                 insertedBy := s.insertedBy + map k | k in keys :: x.job);
    if indexing then DoRequest(s1, newId, NEWS_INDEX, IndexKey(x.job), map[SOURCE_KEYS := Strings(keys)], None) else s1
  }

  datatype Step =
    | TriggerStep(newId: JobId, jobType: string, runKey: string, payload: Payload)
    | CancelBegin(request: RequestId, jobType: string, job: JobId)
    | CancelTry(request: RequestId)
    | CancelEnd(request: RequestId)
    | Deliver(worker: WorkerId, event: JobEvent)
    | Start(worker: WorkerId)
    | Raise(worker: WorkerId, error: string)
    | RaiseAndRetry(worker: WorkerId, error: string, newId: JobId, now: Time)
    | Collect(worker: WorkerId, articles: seq<Article>, indexing: bool, newId: JobId, summary: Payload)
    | Return(worker: WorkerId, result: Option<Payload>)
    | Record(worker: WorkerId)
    | Crash(worker: WorkerId)

  predicate IsNew(s: State, newId: JobId) {
    newId !in s.db.jobs && IsJobId(newId)
  }

  predicate IsHandling(s: State, w: WorkerId) {
    w in s.workers && s.workers[w].Handling?
  }

  ghost predicate Next(s: State, step: Step, s': State) {
    match step
    case TriggerStep(newId, jobType, runKey, payload) =>
      IsNew(s, newId) && s' == TriggerJob(s, newId, jobType, runKey, payload)
    case CancelBegin(request, jobType, job) =>
      request !in s.cancels && s' == BeginCancel(s, request, jobType, job)
    case CancelTry(request) =>
      request in s.cancels && s.cancels[request].Seen? && s' == TryCancel(s, request)
    case CancelEnd(request) =>
      request in s.cancels && !s.cancels[request].Seen? && s' == EndCancel(s, request)
    case Deliver(w, e) =>
      w !in s.workers && e in s.db.outbox && e.Trigger? && e.jobType in JOB_TYPES && s' == Claim(s, w, e)
    case Start(w) =>
      w in s.workers && s.workers[w].Claimed? && s' == Begin(s, w)
    case Raise(w, error) =>
      IsHandling(s, w) && s' == Conclude(s, w, Change(Failed, None, Some(error)))
    case RaiseAndRetry(w, error, newId, now) =>
      && IsHandling(s, w)
      && IsNew(s, newId)
      && var x := s.workers[w].execution;
         && (x.jobType == NEWS_COLLECTION || x.jobType == NEWS_INDEX)
         && NewsNames(x.jobType, x.payload).Some?
         && s' == Conclude(RequestRetry(s, x, NewsNames(x.jobType, x.payload).value, newId, now), w,
                           Change(Failed, None, Some(error)))
    case Collect(w, articles, indexing, newId, summary) =>
      && IsHandling(s, w)
      && IsNew(s, newId)
      && var x := s.workers[w].execution;
         && x.jobType == NEWS_COLLECTION
         && SymbolsFrom(x.payload).Some?
         && s' == Conclude(CommitArticles(s, x, articles, indexing, newId), w, Change(Succeeded, Some(summary), None))
    case Return(w, result) =>
      && IsHandling(s, w)
      && s.workers[w].execution.jobType != NEWS_COLLECTION
      && s' == Conclude(s, w, Change(Succeeded, result, None))
    case Record(w) =>
      w in s.workers && s.workers[w].Finishing? && s' == Finish(s, w)
    case Crash(w) =>
      w in s.workers && s' == s.(workers := s.workers - {w})
  }

  ghost predicate StepAt(states: seq<State>, steps: seq<Step>, k: int)
    requires |states| == |steps| + 1 && 0 <= k < |steps|
  {
    Next(states[k], steps[k], states[k + 1])
  }

  ghost predicate IsRun(states: seq<State>, steps: seq<Step>) {
    && |states| == |steps| + 1
    && states[0] == INIT
    && forall k :: 0 <= k < |steps| ==> StepAt(states, steps, k)
  }
}
