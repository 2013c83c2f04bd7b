/** The durable job table, its outbox and the news article table. */
module Jobs {
  import opened Basics
  import opened JobPayloads

  /** Job ids are UUID texts; all that matters is that they hold no colon. */
  type JobId = string

  predicate IsJobId(id: JobId) {
    ':' !in id
  }

  const NEWS_COLLECTION := "news_collection"
  const NEWS_INDEX := "news_index"
  const HISTORY_INDEX := "durable_job_history_index"
  const PRICE_SNAPSHOT := "market_price_snapshot"
  const DAILY_CANDLES := "domestic_daily_candle_collection"

  const JOB_TYPES: set<string> := {NEWS_COLLECTION, NEWS_INDEX, HISTORY_INDEX, PRICE_SNAPSHOT, DAILY_CANDLES}

  datatype Status = Requested | Running | Succeeded | Failed | Cancelled

  /** What a status change sets, in the row and in the event alike. */
  datatype Change = Change(status: Status, result: Option<Payload>, error: Option<string>)

  const INITIAL := Change(Requested, None, None)

  datatype Job = Job(jobType: string, runKey: string, payload: Payload, state: Change)

  datatype JobEvent =
    | Trigger(job: JobId, jobType: string, runKey: string, payload: Payload, availableAt: Option<Time>)
    | Changed(job: JobId, change: Change)

  datatype Article = Article(sourceKey: string, title: string, content: string)

  /** `keys` is the unique index on (job_type, run_key). */
  datatype Db = Db(
    jobs: map<JobId, Job>,
    keys: map<(string, string), JobId>,
    outbox: seq<JobEvent>,
    articles: map<string, Article>)

  const EMPTY_DB := Db(map[], map[], [], map[])

  datatype RequestResult = RequestResult(job: JobId, created: bool)

  predicate Taken(db: Db, jobType: string, runKey: string) {
    (jobType, runKey) in db.keys
  }

  function AnswerTo(db: Db, newId: JobId, jobType: string, runKey: string): RequestResult {
    if Taken(db, jobType, runKey) then RequestResult(db.keys[(jobType, runKey)], false) else RequestResult(newId, true)
  }

  /** Inserts a requested job and its trigger event unless the run key is taken. */
  function Request(db: Db, newId: JobId, jobType: string, runKey: string, payload: Payload, availableAt: Option<Time>): Db {
    if Taken(db, jobType, runKey) then db
    else
      db.(jobs := db.jobs[newId := Job(jobType, runKey, payload, INITIAL)],
          keys := db.keys[(jobType, runKey) := newId],
          outbox := db.outbox + [Trigger(newId, jobType, runKey, payload, availableAt)])
  }

  predicate Hits(db: Db, job: JobId, expected: Status) {
    job in db.jobs && db.jobs[job].state.status == expected
  }

  /** Compare-and-set of a job's status, logged when it hits. */
  function Transition(db: Db, job: JobId, expected: Status, change: Change): Db {
    if !Hits(db, job, expected) then db
    else
      db.(jobs := db.jobs[job := db.jobs[job].(state := change)],
          outbox := db.outbox + [Changed(job, change)])
  }

  // ------------------------------------------------------------ news articles

  /** The keys of an article list, first occurrences first. */
  function SourceKeys(articles: seq<Article>): seq<string> {
    Dedupe(seq(|articles|, i requires 0 <= i < |articles| => articles[i].sourceKey))
  }

  /** Of several articles with one key the last counts. */
  function LastWith(articles: seq<Article>, key: string): Option<Article> {
    if articles == [] then None
    else if articles[|articles| - 1].sourceKey == key then Some(articles[|articles| - 1])
    else LastWith(articles[..|articles| - 1], key)
  }

  function Unheld(keys: seq<string>, articles: map<string, Article>): seq<string> {
    if keys == [] then []
    else
      var rest := Unheld(keys[..|keys| - 1], articles);
      if keys[|keys| - 1] in articles then rest else rest + [keys[|keys| - 1]]
  }

  /** The keys an insert of `articles` adds to the table, and returns. */
  function NewKeys(db: Db, articles: seq<Article>): seq<string> {
    Unheld(SourceKeys(articles), db.articles)
  }

  function InsertArticles(db: Db, articles: seq<Article>): Db {
    db.(articles := db.articles + map k | k in NewKeys(db, articles) && LastWith(articles, k).Some? :: LastWith(articles, k).value)
  }

  lemma {:induction false} UnheldKeeps(keys: seq<string>, articles: map<string, Article>)
    requires NoDup(keys)
    ensures NoDup(Unheld(keys, articles))
    ensures forall k :: k in Unheld(keys, articles) <==> k in keys && k !in articles
  {
    if keys != [] {
      var n := |keys| - 1;
      UnheldKeeps(keys[..n], articles);
      assert keys == keys[..n] + [keys[n]];
    }
  }

  lemma {:induction false} LastWithFinds(articles: seq<Article>, key: string)
    ensures LastWith(articles, key).Some? <==> exists i :: 0 <= i < |articles| && articles[i].sourceKey == key
    ensures LastWith(articles, key).Some? ==> LastWith(articles, key).value.sourceKey == key && LastWith(articles, key).value in articles
  {
    if articles != [] {
      var n := |articles| - 1;
      LastWithFinds(articles[..n], key);
      assert articles == articles[..n] + [articles[n]];
    }
  }

  /** An insert returns, once each, exactly the listed keys the table did not hold,
      and the table then holds exactly those in addition. */
  lemma InsertReturnsNew(db: Db, articles: seq<Article>)
    ensures NoDup(NewKeys(db, articles))
    ensures forall k :: k in NewKeys(db, articles) <==>
      k !in db.articles && exists i :: 0 <= i < |articles| && articles[i].sourceKey == k
    ensures InsertArticles(db, articles).articles.Keys == db.articles.Keys + Elements(NewKeys(db, articles))
    ensures forall k :: k in db.articles ==> InsertArticles(db, articles).articles[k] == db.articles[k]
  {
    var raw := seq(|articles|, i requires 0 <= i < |articles| => articles[i].sourceKey);
    DedupeKeeps(raw);
    UnheldKeeps(Dedupe(raw), db.articles);
    forall k | k in NewKeys(db, articles) ensures LastWith(articles, k).Some? {
      LastWithFinds(articles, k);
      var i :| 0 <= i < |raw| && raw[i] == k;
      assert articles[i].sourceKey == k;
    }
    forall k, i | 0 <= i < |articles| && articles[i].sourceKey == k && k !in db.articles ensures k in NewKeys(db, articles) {
      assert raw[i] == k;
    }
  }

  // -------------------------------------------------- the repository, as coded

  class DurableJobRepository {
    var db: Db

    constructor (db: Db)
      ensures this.db == db
    {
      this.db := db;
    }

    method RequestJob(newId: JobId, jobType: string, runKey: string, payload: Payload, availableAt: Option<Time>)
      returns (answer: RequestResult)
      modifies this
      ensures db == Request(old(db), newId, jobType, runKey, payload, availableAt)
      ensures answer == AnswerTo(old(db), newId, jobType, runKey)
      ensures (jobType, runKey) in db.keys && db.keys[(jobType, runKey)] == answer.job
      ensures answer.created <==> (jobType, runKey) !in old(db).keys
      ensures answer.created ==>
        && answer.job == newId
        && db.jobs == old(db).jobs[newId := Job(jobType, runKey, payload, Change(Requested, None, None))]
        && db.keys == old(db).keys[(jobType, runKey) := newId]
        && db.outbox == old(db).outbox + [Trigger(newId, jobType, runKey, payload, availableAt)]
        && db.articles == old(db).articles
      ensures !answer.created ==> db == old(db)
    {
      if (jobType, runKey) !in db.keys {
        db := db.(jobs := db.jobs[newId := Job(jobType, runKey, payload, INITIAL)],
                  keys := db.keys[(jobType, runKey) := newId]);
        db := db.(outbox := db.outbox + [Trigger(newId, jobType, runKey, payload, availableAt)]);
        return RequestResult(newId, true);
      }
      return RequestResult(db.keys[(jobType, runKey)], false);
    }

    /** Exactly the jobs in the expected status change, and only they are logged. */
    method ChangeStatus(job: JobId, expected: Status, change: Change) returns (transitioned: bool)
      modifies this
      ensures db == Transition(old(db), job, expected, change)
      ensures transitioned <==> job in old(db).jobs && old(db).jobs[job].state.status == expected
      ensures transitioned ==>
        && db.jobs == old(db).jobs[job := old(db).jobs[job].(state := change)]
        && db.outbox == old(db).outbox + [Changed(job, change)]
        && db.keys == old(db).keys
        && db.articles == old(db).articles
      ensures !transitioned ==> db == old(db)
    {
      transitioned := false;
      if job in db.jobs && db.jobs[job].state.status == expected {
        db := db.(jobs := db.jobs[job := db.jobs[job].(state := change)]);
        transitioned := true;
      }
      if transitioned {
        db := db.(outbox := db.outbox + [Changed(job, change)]);
      }
    }
  }
}
