/** The worker's message handler and the job API, step by step as coded, for calls
    that are not interleaved; JobMachine interleaves them. */
module JobHandlers {
  import opened Basics
  import opened Text
  import opened JobPayloads
  import opened Jobs
  import opened JobMachine
  import opened JobInvariant

  /** How the handler of a job type ends. */
  datatype Ending = Returned(result: Option<Payload>) | RaisedError(error: string)

  datatype Outcome = Mismatch | NotClaimed | Completed | Reraised | Lost

  datatype TriggerAnswer = NotFound | Unprocessable | Accepted(result: RequestResult)

  function ChangeFor(ending: Ending): Change {
    match ending
    case Returned(result) => Change(Succeeded, result, None)
    case RaisedError(error) => Change(Failed, None, Some(error))
  }

  /** The five job types of the service. */
  ghost predicate IsJobType(jobType: string) {
    || jobType == "news_collection" || jobType == "news_index" || jobType == "durable_job_history_index"
    || IsMarketJob(jobType)
  }

  ghost predicate IsMarketJob(jobType: string) {
    jobType == "market_price_snapshot" || jobType == "domestic_daily_candle_collection"
  }

  /** The payload names a stock: six ASCII digits between blanks. */
  ghost predicate HasStockCode(payload: Payload) {
    && "stock_code" in payload
    && payload["stock_code"].Str?
    && exists a, c, b :: Pads(payload["stock_code"].s, a, c, b) && |c| == 6 && forall i :: 0 <= i < 6 ==> c[i] in "0123456789"
  }

  lemma StockCodeAccepted(payload: Payload)
    ensures HasStockCode(payload) <==>
      STOCK_CODE in payload && payload[STOCK_CODE].Str? && NormalizeStockCode(payload[STOCK_CODE].s).Some?
  {
    if "stock_code" in payload && payload["stock_code"].Str? {
      var raw := payload["stock_code"].s;
      forall c ensures NormalizeStockCode(raw) == Some(c) <==>
        |c| == 6 && (forall i :: 0 <= i < 6 ==> c[i] in "0123456789") && exists a, b :: Pads(raw, a, c, b)
      {
        StockCodeIff(raw, c);
      }
    }
  }

  class DurableJobMessageHandler {
    const repository: DurableJobRepository

    constructor (repository: DurableJobRepository)
      ensures this.repository == repository
    {
      this.repository := repository;
    }

    /** `handler` is the job type's handler: it may change the database and ends one
        way or the other. A job that is not `requested` is left alone; otherwise the
        row ends as the handler ended, if the handler left the row to the worker. */
    method Handle(e: JobEvent, handler: (Db, Execution) -> (Db, Ending)) returns (outcome: Outcome)
      requires e.Trigger?
      modifies repository
      ensures outcome == Mismatch <==> !IsJobType(e.jobType)
      ensures IsJobType(e.jobType) ==> (outcome == NotClaimed <==> !Hits(old(repository.db), e.job, Requested))
      ensures outcome == Mismatch || outcome == NotClaimed ==> repository.db == old(repository.db)
      ensures outcome != Mismatch && outcome != NotClaimed ==>
        var claimed := Transition(old(repository.db), e.job, Requested, Change(Running, None, None));
        var (db, ending) := handler(claimed, Execution(e.job, e.jobType, e.runKey, e.payload));
        && repository.db == Transition(db, e.job, Running, ChangeFor(ending))
        && (outcome == Reraised <==> ending.RaisedError?)
        && (Hits(db, e.job, Running) ==> outcome != Lost && repository.db.jobs[e.job].state == ChangeFor(ending))
    {
      if e.jobType !in JOB_TYPES {
        return Mismatch;
      }
      var claimed := repository.ChangeStatus(e.job, Requested, Change(Running, None, None));
      if !claimed {
        return NotClaimed;
      }
      var (db, ending) := handler(repository.db, Execution(e.job, e.jobType, e.runKey, e.payload));
      repository.db := db;
      match ending {
        case RaisedError(error) =>
          var _ := repository.ChangeStatus(e.job, Running, Change(Failed, None, Some(error)));
          return Reraised;
        case Returned(result) =>
          var completed := repository.ChangeStatus(e.job, Running, Change(Succeeded, result, None));
          return if completed then Completed else Lost;
      }
    }
  }

  class DurableJobApi {
    const repository: DurableJobRepository

    constructor (repository: DurableJobRepository)
      ensures this.repository == repository
    {
      this.repository := repository;
    }

    method Trigger(newId: JobId, jobType: string, runKey: string, payload: Payload) returns (answer: TriggerAnswer)
      modifies repository
      ensures answer == NotFound <==> !IsJobType(jobType)
      ensures answer == Unprocessable <==> IsJobType(jobType) && (runKey == "" || (IsMarketJob(jobType) && !HasStockCode(payload)))
      ensures !answer.Accepted? ==> repository.db == old(repository.db)
      ensures answer.Accepted? ==>
        && repository.db == Request(old(repository.db), newId, jobType, runKey, payload, None)
        && (jobType, runKey) in repository.db.keys
        && repository.db.keys[(jobType, runKey)] == answer.result.job
        && (answer.result.created <==> (jobType, runKey) !in old(repository.db).keys)
    {
      StockCodeAccepted(payload);
      if jobType !in JOB_TYPES {
        return NotFound;
      }
      if runKey == "" || !PayloadAccepted(jobType, payload) {
        return Unprocessable;
      }
      var result := repository.RequestJob(newId, jobType, runKey, payload, None);
      return Accepted(result);
    }

    /** 200 leaves the job cancelled, 409 leaves a started job as it was. */
    method Cancel(jobType: string, job: JobId) returns (code: int)
      modifies repository
      ensures code == 404 || code == 200 || code == 409
      ensures code == 404 <==>
        !IsJobType(jobType) || job !in old(repository.db).jobs || old(repository.db).jobs[job].jobType != jobType
      ensures code == 409 ==> Started(old(repository.db).jobs[job].state.status)
      ensures code == 200 ==>
        !Started(old(repository.db).jobs[job].state.status)
        && repository.db == Transition(old(repository.db), job, Requested, Change(Cancelled, None, None))
        && repository.db.jobs[job].state.status == Cancelled
      ensures code != 200 ==> repository.db == old(repository.db)
    {
      if jobType !in JOB_TYPES || job !in repository.db.jobs || repository.db.jobs[job].jobType != jobType {
        return 404;
      }
      if repository.db.jobs[job].state.status == Cancelled {
        return 200;
      }
      var cancelled := repository.ChangeStatus(job, Requested, Change(Cancelled, None, None));
      if !cancelled {
        return if job in repository.db.jobs && repository.db.jobs[job].state.status == Cancelled then 200 else 409;
      }
      return if job in repository.db.jobs then 200 else 404;
    }
  }
}
