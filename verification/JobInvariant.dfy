/** The inductive invariant of the durable job machine. */
module JobInvariant {
  import opened Basics
  import opened JobPayloads
  import opened Jobs
  import opened JobMachine

  // ------------------------------------------------------------- predicates

  /** The unique index is exact. */
  ghost predicate KeysOk(db: Db) {
    && (forall k :: k in db.keys ==>
          db.keys[k] in db.jobs && db.jobs[db.keys[k]].jobType == k.0 && db.jobs[db.keys[k]].runKey == k.1)
    && (forall j :: j in db.jobs ==>
          IsJobId(j) && db.jobs[j].runKey != "" && Taken(db, db.jobs[j].jobType, db.jobs[j].runKey)
          && db.keys[(db.jobs[j].jobType, db.jobs[j].runKey)] == j)
  }

  /** The status changes of one job, as its outbox events tell them. */
  function StatusLog(outbox: seq<JobEvent>, j: JobId): seq<Change> {
    if outbox == [] then []
    else
      var e := outbox[|outbox| - 1];
      var rest := StatusLog(outbox[..|outbox| - 1], j);
      if e.Changed? && e.job == j then rest + [e.change] else rest
  }

  function Triggers(outbox: seq<JobEvent>, j: JobId): nat {
    if outbox == [] then 0
    else
      var e := outbox[|outbox| - 1];
      Triggers(outbox[..|outbox| - 1], j) + if e.Trigger? && e.job == j then 1 else 0
  }

  /** Replaying a log of changes over a freshly requested job. */
  function Fold(log: seq<Change>): Change {
    if log == [] then INITIAL else log[|log| - 1]
  }

  ghost predicate Shape(log: seq<Change>) {
    || log == []
    || (|log| == 1 && (log[0].status == Cancelled || log[0].status == Running))
    || (|log| == 2 && log[0].status == Running && (log[1].status == Succeeded || log[1].status == Failed))
  }

  ghost predicate LogOk(db: Db) {
    forall j :: j in db.jobs ==> Shape(StatusLog(db.outbox, j)) && Fold(StatusLog(db.outbox, j)) == db.jobs[j].state
  }

  ghost predicate EventOk(db: Db, e: JobEvent) {
    && e.job in db.jobs
    && (e.Trigger? ==>
          e.jobType == db.jobs[e.job].jobType && e.runKey == db.jobs[e.job].runKey && e.payload == db.jobs[e.job].payload)
  }

  ghost predicate EventsOk(db: Db) {
    && (forall e :: e in db.outbox ==> EventOk(db, e))
    && (forall j :: j in db.jobs ==> Triggers(db.outbox, j) == 1)
  }

  ghost predicate DbOk(db: Db) {
    KeysOk(db) && LogOk(db) && EventsOk(db)
  }

  predicate Started(status: Status) {
    status == Running || status == Succeeded || status == Failed
  }

  ghost predicate PhaseOk(db: Db, starts: seq<JobId>, p: Phase) {
    var x := p.execution;
    && x.job in db.jobs
    && db.jobs[x.job].state.status == Running
    && x == Execution(x.job, db.jobs[x.job].jobType, db.jobs[x.job].runKey, db.jobs[x.job].payload)
    && (p.Claimed? <==> x.job !in starts)
    && (p.Finishing? ==> p.outcome.status == Succeeded || p.outcome.status == Failed)
  }

  /** Every busy worker has a running job of its own. */
  ghost predicate WorkersOk(db: Db, workers: map<WorkerId, Phase>, starts: seq<JobId>) {
    && (forall w :: w in workers ==> PhaseOk(db, starts, workers[w]))
    && (forall v, w :: v in workers && w in workers && workers[v].execution.job == workers[w].execution.job ==> v == w)
  }

  ghost predicate StartsOk(db: Db, starts: seq<JobId>) {
    && NoDup(starts)
    && (forall j :: j in starts ==> j in db.jobs && Started(db.jobs[j].state.status))
  }

  ghost predicate CancelOk(db: Db, c: CancelPhase) {
    && c.job in db.jobs
    && (c.Hit? ==> db.jobs[c.job].state.status == Cancelled)
    && (c.Missed? ==> db.jobs[c.job].state.status != Requested)
  }

  ghost predicate AnswerOk(db: Db, a: Answer) {
    && (a.code == 200 ==> a.job in db.jobs && db.jobs[a.job].state.status == Cancelled)
    && (a.code == 409 ==> a.job in db.jobs && Started(db.jobs[a.job].state.status))
  }

  ghost predicate CancelsOk(db: Db, cancels: map<RequestId, CancelPhase>, answers: seq<Answer>) {
    && (forall r :: r in cancels ==> CancelOk(db, cancels[r]))
    && (forall a :: a in answers ==> AnswerOk(db, a))
  }

  function CreatedCount(replies: seq<Reply>, j: JobId): nat {
    if replies == [] then 0
    else
      var r := replies[|replies| - 1].result;
      CreatedCount(replies[..|replies| - 1], j) + if r.created && r.job == j then 1 else 0
  }

  ghost predicate ReplyOk(db: Db, r: Reply) {
    Taken(db, r.jobType, r.runKey) && db.keys[(r.jobType, r.runKey)] == r.result.job
  }

  ghost predicate RepliesOk(db: Db, replies: seq<Reply>) {
    && (forall r :: r in replies ==> ReplyOk(db, r))
    && (forall j :: CreatedCount(replies, j) == if j in db.jobs then 1 else 0)
  }

  /** Job `c` is the retry of job `p`: one attempt more, same root, same names. */
  ghost predicate RetryLink(c: Job, p: Job) {
    && c.jobType == p.jobType
    && (c.jobType == NEWS_COLLECTION || c.jobType == NEWS_INDEX)
    && RetryAttempt(c.payload) == RetryAttempt(p.payload) + 1
    && RetryAttempt(c.payload) < MAX_NEWS_ATTEMPTS
    && RootRunKey(c.runKey, c.payload) == RootRunKey(p.runKey, p.payload)
    && c.runKey == RetryKey(RootRunKey(p.runKey, p.payload), RetryAttempt(c.payload))
    && NewsNames(c.jobType, c.payload) == NewsNames(p.jobType, p.payload)
  }

  ghost predicate RetryOk(db: Db, starts: seq<JobId>, c: JobId, p: JobId) {
    && c in db.jobs
    && p in db.jobs
    && p in starts
    && RetryLink(db.jobs[c], db.jobs[p])
    && db.jobs[p].state.status != Succeeded
  }

  ghost predicate RetriesOk(db: Db, starts: seq<JobId>, workers: map<WorkerId, Phase>, retryOf: map<JobId, JobId>) {
    && (forall c :: c in retryOf ==> RetryOk(db, starts, c, retryOf[c]))
    && (forall c, w :: c in retryOf && w in workers && workers[w].execution.job == retryOf[c] ==>
          workers[w].Finishing? && workers[w].outcome.status == Failed)
  }

  ghost predicate CollectedOk(starts: seq<JobId>, workers: map<WorkerId, Phase>, collected: set<JobId>) {
    && (forall c :: c in collected ==> c in starts)
    && (forall w :: w in workers && workers[w].execution.job in collected ==> workers[w].Finishing?)
  }

  ghost predicate Inv(s: State) {
    && DbOk(s.db)
    && WorkersOk(s.db, s.workers, s.starts)
    && StartsOk(s.db, s.starts)
    && CancelsOk(s.db, s.cancels, s.answers)
    && RepliesOk(s.db, s.replies)
    && RetriesOk(s.db, s.starts, s.workers, s.retryOf)
    && CollectedOk(s.starts, s.workers, s.collected)
    && !s.lost
  }

  // ----------------------------------------------------------- status moves

  predicate Legal(from: Status, to: Status) {
    || (from == Requested && (to == Running || to == Cancelled))
    || (from == Running && (to == Succeeded || to == Failed))
  }

  /** What any step may do to the jobs: add some, and move a status forward. */
  ghost predicate Moves(db: Db, db': Db) {
    && (forall k :: k in db.keys ==> k in db'.keys && db'.keys[k] == db.keys[k])
    && (forall j :: j in db.jobs ==>
          && j in db'.jobs
          && db'.jobs[j] == db.jobs[j].(state := db'.jobs[j].state)
          && (db'.jobs[j].state == db.jobs[j].state || Legal(db.jobs[j].state.status, db'.jobs[j].state.status)))
  }

  // --------------------------------------------------------------- requests

  lemma RequestMoves(db: Db, newId: JobId, jobType: string, runKey: string, payload: Payload, at: Option<Time>)
    requires newId !in db.jobs
    ensures Moves(db, Request(db, newId, jobType, runKey, payload, at))
  {
  }

  lemma RequestKeepsKeys(db: Db, newId: JobId, jobType: string, runKey: string, payload: Payload, at: Option<Time>)
    requires KeysOk(db) && newId !in db.jobs && IsJobId(newId) && runKey != ""
    ensures KeysOk(Request(db, newId, jobType, runKey, payload, at))
  {
  }

  lemma {:induction false} NoEvents(db: Db, outbox: seq<JobEvent>, j: JobId)
    requires j !in db.jobs && forall e :: e in outbox ==> EventOk(db, e)
    ensures StatusLog(outbox, j) == [] && Triggers(outbox, j) == 0
  {
    if outbox != [] {
      assert outbox[|outbox| - 1] in outbox;
      NoEvents(db, outbox[..|outbox| - 1], j);
    }
  }

  lemma LogSnoc(outbox: seq<JobEvent>, e: JobEvent, j: JobId)
    ensures StatusLog(outbox + [e], j) == StatusLog(outbox, j) + if e.Changed? && e.job == j then [e.change] else []
    ensures Triggers(outbox + [e], j) == Triggers(outbox, j) + if e.Trigger? && e.job == j then 1 else 0
  {
    assert (outbox + [e])[..|outbox|] == outbox;
  }

  lemma RequestKeepsLog(db: Db, newId: JobId, jobType: string, runKey: string, payload: Payload, at: Option<Time>)
    requires DbOk(db) && newId !in db.jobs
    ensures LogOk(Request(db, newId, jobType, runKey, payload, at))
  {
    if !Taken(db, jobType, runKey) {
      var db' := Request(db, newId, jobType, runKey, payload, at);
      var e := Trigger(newId, jobType, runKey, payload, at);
      forall j | j in db'.jobs ensures Shape(StatusLog(db'.outbox, j)) && Fold(StatusLog(db'.outbox, j)) == db'.jobs[j].state {
        LogSnoc(db.outbox, e, j);
        if j == newId {
          NoEvents(db, db.outbox, j);
        }
      }
    }
  }

  lemma RequestKeepsEvents(db: Db, newId: JobId, jobType: string, runKey: string, payload: Payload, at: Option<Time>)
    requires EventsOk(db) && newId !in db.jobs
    ensures EventsOk(Request(db, newId, jobType, runKey, payload, at))
  {
    if !Taken(db, jobType, runKey) {
      var db' := Request(db, newId, jobType, runKey, payload, at);
      var e := Trigger(newId, jobType, runKey, payload, at);
      forall j | j in db'.jobs ensures Triggers(db'.outbox, j) == 1 {
        LogSnoc(db.outbox, e, j);
        if j == newId {
          NoEvents(db, db.outbox, j);
        }
      }
      forall x | x in db'.outbox ensures EventOk(db', x) {
        assert x in db.outbox || x == e;
      }
    }
  }

  lemma RequestKeepsDb(db: Db, newId: JobId, jobType: string, runKey: string, payload: Payload, at: Option<Time>, db': Db)
    requires DbOk(db) && newId !in db.jobs && IsJobId(newId) && runKey != ""
    requires db' == Request(db, newId, jobType, runKey, payload, at)
    ensures DbOk(db') && Moves(db, db')
  {
    RequestMoves(db, newId, jobType, runKey, payload, at);
    RequestKeepsKeys(db, newId, jobType, runKey, payload, at);
    RequestKeepsLog(db, newId, jobType, runKey, payload, at);
    RequestKeepsEvents(db, newId, jobType, runKey, payload, at);
  }

  lemma CountSnoc(replies: seq<Reply>, r: Reply, j: JobId)
    ensures CreatedCount(replies + [r], j) == CreatedCount(replies, j) + if r.result.created && r.result.job == j then 1 else 0
  {
    assert (replies + [r])[..|replies|] == replies;
  }

  lemma RequestKeepsReplies(db: Db, newId: JobId, jobType: string, runKey: string, payload: Payload, at: Option<Time>,
                            replies: seq<Reply>, db': Db, r: Reply)
    requires KeysOk(db) && RepliesOk(db, replies) && newId !in db.jobs
    requires db' == Request(db, newId, jobType, runKey, payload, at)
    requires r == Reply(jobType, runKey, AnswerTo(db, newId, jobType, runKey))
    ensures RepliesOk(db', replies + [r])
  {
    forall j ensures CreatedCount(replies + [r], j) == if j in db'.jobs then 1 else 0 {
      CountSnoc(replies, r, j);
    }
    forall x | x in replies + [r] ensures ReplyOk(db', x) {
      assert x in replies || x == r;
    }
  }

  // ------------------------------------------------------------ transitions

  lemma TransitionKeepsKeys(db: Db, job: JobId, expected: Status, change: Change)
    requires KeysOk(db) && Legal(expected, change.status)
    ensures KeysOk(Transition(db, job, expected, change))
    ensures Moves(db, Transition(db, job, expected, change))
  {
  }

  lemma TransitionKeepsLog(db: Db, job: JobId, expected: Status, change: Change)
    requires LogOk(db) && Legal(expected, change.status)
    ensures LogOk(Transition(db, job, expected, change))
  {
    if Hits(db, job, expected) {
      var db' := Transition(db, job, expected, change);
      forall j | j in db'.jobs ensures Shape(StatusLog(db'.outbox, j)) && Fold(StatusLog(db'.outbox, j)) == db'.jobs[j].state {
        LogSnoc(db.outbox, Changed(job, change), j);
      }
    }
  }

  lemma TransitionKeepsEvents(db: Db, job: JobId, expected: Status, change: Change)
    requires EventsOk(db)
    ensures EventsOk(Transition(db, job, expected, change))
  {
    if Hits(db, job, expected) {
      var db' := Transition(db, job, expected, change);
      forall j | j in db'.jobs ensures Triggers(db'.outbox, j) == 1 {
        LogSnoc(db.outbox, Changed(job, change), j);
      }
      forall x | x in db'.outbox ensures EventOk(db', x) {
        assert x in db.outbox || x == Changed(job, change);
      }
    }
  }

  lemma TransitionKeepsDb(db: Db, job: JobId, expected: Status, change: Change, db': Db)
    requires DbOk(db) && Legal(expected, change.status) && db' == Transition(db, job, expected, change)
    ensures DbOk(db') && Moves(db, db') && db'.jobs.Keys == db.jobs.Keys && db'.keys == db.keys
  {
    TransitionKeepsKeys(db, job, expected, change);
    TransitionKeepsLog(db, job, expected, change);
    TransitionKeepsEvents(db, job, expected, change);
  }

  // ---------------------------------------- what follows from moving forward

  lemma MovesKeepStarts(db: Db, db': Db, starts: seq<JobId>)
    requires StartsOk(db, starts) && Moves(db, db')
    ensures StartsOk(db', starts)
  {
  }

  lemma MovesKeepCancels(db: Db, db': Db, cancels: map<RequestId, CancelPhase>, answers: seq<Answer>)
    requires CancelsOk(db, cancels, answers) && Moves(db, db')
    ensures CancelsOk(db', cancels, answers)
  {
    forall r | r in cancels ensures CancelOk(db', cancels[r]) {
      assert CancelOk(db, cancels[r]);
    }
    forall a | a in answers ensures AnswerOk(db', a) {
      assert AnswerOk(db, a);
    }
  }

  lemma MovesKeepReplies(db: Db, db': Db, replies: seq<Reply>)
    requires RepliesOk(db, replies) && Moves(db, db') && db'.jobs.Keys == db.jobs.Keys
    ensures RepliesOk(db', replies)
  {
    forall r | r in replies ensures ReplyOk(db', r) {
      assert ReplyOk(db, r);
    }
  }

  /** Workers other than `job`'s keep their running jobs. */
  lemma MovesKeepWorkers(db: Db, db': Db, workers: map<WorkerId, Phase>, starts: seq<JobId>)
    requires WorkersOk(db, workers, starts) && Moves(db, db')
    requires forall w :: w in workers ==>
      workers[w].execution.job in db.jobs && db'.jobs[workers[w].execution.job].state == db.jobs[workers[w].execution.job].state
    ensures WorkersOk(db', workers, starts)
  {
    forall w | w in workers ensures PhaseOk(db', starts, workers[w]) {
      assert PhaseOk(db, starts, workers[w]);
    }
  }

  lemma MovesKeepRetries(db: Db, db': Db, starts: seq<JobId>, workers: map<WorkerId, Phase>, retryOf: map<JobId, JobId>)
    requires RetriesOk(db, starts, workers, retryOf) && Moves(db, db')
    requires forall c :: c in retryOf && retryOf[c] in db.jobs ==> db'.jobs[retryOf[c]].state.status != Succeeded
    ensures RetriesOk(db', starts, workers, retryOf)
  {
    forall c | c in retryOf ensures RetryOk(db', starts, c, retryOf[c]) {
      assert RetryOk(db, starts, c, retryOf[c]);
    }
  }

  lemma RequestStates(db: Db, newId: JobId, jobType: string, runKey: string, payload: Payload, at: Option<Time>, db': Db)
    requires newId !in db.jobs && db' == Request(db, newId, jobType, runKey, payload, at)
    ensures forall j :: j in db.jobs ==> j in db'.jobs && db'.jobs[j].state == db.jobs[j].state
  {
  }

  /** A request alone keeps everything. */
  lemma RequestKeepsInv(s: State, newId: JobId, jobType: string, runKey: string, payload: Payload, at: Option<Time>, s': State)
    requires Inv(s) && IsNew(s, newId) && runKey != "" && s' == DoRequest(s, newId, jobType, runKey, payload, at)
    ensures Inv(s') && Moves(s.db, s'.db)
  {
    RequestKeepsDb(s.db, newId, jobType, runKey, payload, at, s'.db);
    RequestStates(s.db, newId, jobType, runKey, payload, at, s'.db);
    RequestKeepsReplies(s.db, newId, jobType, runKey, payload, at, s.replies, s'.db,
                        Reply(jobType, runKey, AnswerTo(s.db, newId, jobType, runKey)));
    MovesKeepStarts(s.db, s'.db, s.starts);
    MovesKeepCancels(s.db, s'.db, s.cancels, s.answers);
    RunningJobs(s);
    MovesKeepWorkers(s.db, s'.db, s.workers, s.starts);
    RetriedJobs(s);
    MovesKeepRetries(s.db, s'.db, s.starts, s.workers, s.retryOf);
  }

  lemma RunningJobs(s: State)
    requires WorkersOk(s.db, s.workers, s.starts)
    ensures forall w :: w in s.workers ==>
      s.workers[w].execution.job in s.db.jobs && s.db.jobs[s.workers[w].execution.job].state.status == Running
  {
    forall w | w in s.workers
      ensures s.workers[w].execution.job in s.db.jobs && s.db.jobs[s.workers[w].execution.job].state.status == Running
    {
      assert PhaseOk(s.db, s.starts, s.workers[w]);
    }
  }

  lemma RetriedJobs(s: State)
    requires RetriesOk(s.db, s.starts, s.workers, s.retryOf)
    ensures forall c :: c in s.retryOf ==>
      s.retryOf[c] in s.starts && s.retryOf[c] in s.db.jobs && s.db.jobs[s.retryOf[c]].state.status != Succeeded
  {
    forall c | c in s.retryOf
      ensures s.retryOf[c] in s.starts && s.retryOf[c] in s.db.jobs && s.db.jobs[s.retryOf[c]].state.status != Succeeded
    {
      assert RetryOk(s.db, s.starts, c, s.retryOf[c]);
    }
  }

  // ------------------------------------------------------------------- steps

  /** A requested job is no busy worker's job. */
  lemma QuietWorkers(s: State, job: JobId, change: Change, db': Db)
    requires WorkersOk(s.db, s.workers, s.starts) && Moves(s.db, db') && db' == Transition(s.db, job, Requested, change)
    ensures WorkersOk(db', s.workers, s.starts)
  {
    RunningJobs(s);
    MovesKeepWorkers(s.db, db', s.workers, s.starts);
  }

  /** Nor is it a retried job. */
  lemma QuietRetries(s: State, job: JobId, change: Change, db': Db)
    requires StartsOk(s.db, s.starts) && RetriesOk(s.db, s.starts, s.workers, s.retryOf) && Moves(s.db, db')
    requires db' == Transition(s.db, job, Requested, change)
    ensures RetriesOk(db', s.starts, s.workers, s.retryOf)
  {
    RetriedJobs(s);
    assert forall j :: j in s.starts ==> Started(s.db.jobs[j].state.status);
    MovesKeepRetries(s.db, db', s.starts, s.workers, s.retryOf);
  }

  /** A legal transition of a requested job. */
  lemma QuietTransition(s: State, job: JobId, expected: Status, change: Change, db': Db)
    requires Inv(s) && Legal(expected, change.status) && db' == Transition(s.db, job, expected, change)
    requires expected == Requested
    ensures DbOk(db') && Moves(s.db, db')
    ensures WorkersOk(db', s.workers, s.starts)
    ensures StartsOk(db', s.starts)
    ensures CancelsOk(db', s.cancels, s.answers)
    ensures RepliesOk(db', s.replies)
    ensures RetriesOk(db', s.starts, s.workers, s.retryOf)
  {
    TransitionKeepsDb(s.db, job, expected, change, db');
    MovesKeepStarts(s.db, db', s.starts);
    MovesKeepCancels(s.db, db', s.cancels, s.answers);
    MovesKeepReplies(s.db, db', s.replies);
    QuietWorkers(s, job, change, db');
    QuietRetries(s, job, change, db');
  }

  lemma AnswerKeepsCancels(db: Db, cancels: map<RequestId, CancelPhase>, answers: seq<Answer>, a: Answer)
    requires CancelsOk(db, cancels, answers) && AnswerOk(db, a)
    ensures CancelsOk(db, cancels, answers + [a])
  {
    forall x | x in answers + [a] ensures AnswerOk(db, x) {
      assert x in answers || x == a;
    }
  }

  lemma PhaseKeepsCancels(db: Db, cancels: map<RequestId, CancelPhase>, answers: seq<Answer>, r: RequestId, c: CancelPhase)
    requires CancelsOk(db, cancels, answers) && CancelOk(db, c)
    ensures CancelsOk(db, cancels[r := c], answers)
  {
  }

  lemma SetKeepsWorkers(db: Db, workers: map<WorkerId, Phase>, starts: seq<JobId>, w: WorkerId, p: Phase)
    requires WorkersOk(db, workers, starts) && PhaseOk(db, starts, p)
    requires forall v :: v in workers && v != w ==> workers[v].execution.job != p.execution.job
    ensures WorkersOk(db, workers[w := p], starts)
  {
  }

  lemma SetKeepsRetries(db: Db, starts: seq<JobId>, workers: map<WorkerId, Phase>, retryOf: map<JobId, JobId>, w: WorkerId, p: Phase)
    requires RetriesOk(db, starts, workers - {w}, retryOf)
    requires (p.Finishing? && p.outcome.status == Failed) || forall c :: c in retryOf ==> retryOf[c] != p.execution.job
    ensures RetriesOk(db, starts, workers[w := p], retryOf)
  {
    var workers' := workers[w := p];
    forall c, v | c in retryOf && v in workers' && workers'[v].execution.job == retryOf[c]
      ensures workers'[v].Finishing? && workers'[v].outcome.status == Failed
    {
      if v != w {
        assert v in workers - {w} && (workers - {w})[v] == workers[v];
      }
    }
  }

  lemma SetKeepsCollected(starts: seq<JobId>, workers: map<WorkerId, Phase>, collected: set<JobId>, w: WorkerId, p: Phase)
    requires CollectedOk(starts, workers - {w}, collected) && (p.Finishing? || p.execution.job !in collected)
    ensures CollectedOk(starts, workers[w := p], collected)
  {
    var workers' := workers[w := p];
    forall v | v in workers' && workers'[v].execution.job in collected ensures workers'[v].Finishing? {
      if v != w {
        assert v in workers - {w} && (workers - {w})[v] == workers[v];
      }
    }
  }

  lemma FewerWorkers(s: State, w: WorkerId)
    requires Inv(s)
    ensures WorkersOk(s.db, s.workers - {w}, s.starts)
    ensures RetriesOk(s.db, s.starts, s.workers - {w}, s.retryOf)
    ensures CollectedOk(s.starts, s.workers - {w}, s.collected)
  {
  }

  lemma CancelBeginCases(s: State, request: RequestId, jobType: string, job: JobId, s': State)
    requires s' == BeginCancel(s, request, jobType, job)
    ensures || s' == s.(answers := s.answers + [Answer(job, 404)])
            || (s' == s.(answers := s.answers + [Answer(job, 200)]) && AnswerOk(s.db, Answer(job, 200)))
            || (s' == s.(cancels := s.cancels[request := Seen(job)]) && CancelOk(s.db, Seen(job)))
  {
  }

  lemma CancelBeginKeepsInv(s: State, request: RequestId, s': State, job: JobId)
    requires Inv(s)
    requires || s' == s.(answers := s.answers + [Answer(job, 404)])
             || (s' == s.(answers := s.answers + [Answer(job, 200)]) && AnswerOk(s.db, Answer(job, 200)))
             || (s' == s.(cancels := s.cancels[request := Seen(job)]) && CancelOk(s.db, Seen(job)))
    ensures Inv(s')
  {
    if s'.answers != s.answers {
      AnswerKeepsCancels(s.db, s.cancels, s.answers, s'.answers[|s.answers|]);
    } else {
      PhaseKeepsCancels(s.db, s.cancels, s.answers, request, Seen(job));
    }
  }

  lemma CancelTryKeepsInv(s: State, request: RequestId, s': State)
    requires Inv(s) && request in s.cancels && s.cancels[request].Seen? && s' == TryCancel(s, request)
    ensures Inv(s') && Moves(s.db, s'.db)
  {
    var job := s.cancels[request].job;
    assert CancelOk(s.db, s.cancels[request]);
    QuietTransition(s, job, Requested, Change(Cancelled, None, None), s'.db);
    PhaseKeepsCancels(s'.db, s.cancels, s.answers, request, s'.cancels[request]);
  }

  lemma CancelEndKeepsInv(s: State, request: RequestId, s': State)
    requires Inv(s) && request in s.cancels && !s.cancels[request].Seen? && s' == EndCancel(s, request)
    ensures Inv(s')
  {
    assert CancelOk(s.db, s.cancels[request]);
    AnswerKeepsCancels(s.db, s.cancels, s.answers, s'.answers[|s.answers|]);
  }

  lemma HitKeepsInv(s: State, w: WorkerId, x: Execution, s': State)
    requires Inv(s) && w !in s.workers && x.job in s.db.jobs && s.db.jobs[x.job].state.status == Running
    requires x == Execution(x.job, s.db.jobs[x.job].jobType, s.db.jobs[x.job].runKey, s.db.jobs[x.job].payload)
    requires x.job !in s.starts && (forall v :: v in s.workers ==> s.workers[v].execution.job != x.job)
    requires s' == s.(workers := s.workers[w := Claimed(x)])
    ensures Inv(s')
  {
    RetriedJobs(s);
    FewerWorkers(s, w);
    SetKeepsWorkers(s.db, s.workers, s.starts, w, Claimed(x));
    SetKeepsRetries(s.db, s.starts, s.workers, s.retryOf, w, Claimed(x));
    SetKeepsCollected(s.starts, s.workers, s.collected, w, Claimed(x));
  }

  lemma ClaimKeepsInv(s: State, w: WorkerId, e: JobEvent, s': State)
    requires Inv(s) && w !in s.workers && e in s.db.outbox && e.Trigger? && s' == Claim(s, w, e)
    ensures Inv(s') && Moves(s.db, s'.db)
  {
    var s1 := s.(db := s'.db);
    QuietTransition(s, e.job, Requested, Change(Running, None, None), s'.db);
    assert Inv(s1);
    if Hits(s.db, e.job, Requested) {
      assert EventOk(s.db, e);
      ClaimedIsFree(s, e.job);
      HitKeepsInv(s1, w, Execution(e.job, e.jobType, e.runKey, e.payload), s');
    }
  }

  lemma ClaimedIsFree(s: State, job: JobId)
    requires WorkersOk(s.db, s.workers, s.starts) && StartsOk(s.db, s.starts) && Hits(s.db, job, Requested)
    ensures job !in s.starts
    ensures forall v :: v in s.workers ==> s.workers[v].execution.job != job
  {
    RunningJobs(s);
  }

  lemma StartKeepsStarts(db: Db, starts: seq<JobId>, job: JobId)
    requires StartsOk(db, starts) && job !in starts && job in db.jobs && Started(db.jobs[job].state.status)
    ensures StartsOk(db, starts + [job])
  {
  }

  lemma StartKeepsWorkers(db: Db, workers: map<WorkerId, Phase>, starts: seq<JobId>, w: WorkerId)
    requires WorkersOk(db, workers, starts) && w in workers && workers[w].Claimed?
    ensures WorkersOk(db, workers[w := Handling(workers[w].execution)], starts + [workers[w].execution.job])
  {
    var job := workers[w].execution.job;
    var workers' := workers[w := Handling(workers[w].execution)];
    forall v | v in workers' ensures PhaseOk(db, starts + [job], workers'[v]) {
      assert PhaseOk(db, starts, workers[v]);
      assert v != w ==> workers[v].execution.job != job;
    }
  }

  lemma StartKeepsRetries(db: Db, starts: seq<JobId>, workers: map<WorkerId, Phase>, retryOf: map<JobId, JobId>, job: JobId)
    requires RetriesOk(db, starts, workers, retryOf)
    ensures RetriesOk(db, starts + [job], workers, retryOf)
  {
    forall c | c in retryOf ensures RetryOk(db, starts + [job], c, retryOf[c]) {
      assert RetryOk(db, starts, c, retryOf[c]);
    }
  }

  lemma BeginKeepsInv(s: State, w: WorkerId, s': State)
    requires Inv(s) && w in s.workers && s.workers[w].Claimed? && s' == Begin(s, w)
    ensures Inv(s')
  {
    var x := s.workers[w].execution;
    assert PhaseOk(s.db, s.starts, s.workers[w]);
    FewerWorkers(s, w);
    RetriedJobs(s);
    StartKeepsWorkers(s.db, s.workers, s.starts, w);
    StartKeepsStarts(s.db, s.starts, x.job);
    SetKeepsRetries(s.db, s.starts, s.workers, s.retryOf, w, Handling(x));
    StartKeepsRetries(s.db, s.starts, s'.workers, s.retryOf, x.job);
    SetKeepsCollected(s.starts, s.workers, s.collected, w, Handling(x));
  }

  /** The invariant, except that worker `w` may have just scheduled a retry or
      committed its articles without having noted its outcome. */
  ghost predicate AlmostInv(s: State, w: WorkerId) {
    && DbOk(s.db)
    && WorkersOk(s.db, s.workers, s.starts)
    && StartsOk(s.db, s.starts)
    && CancelsOk(s.db, s.cancels, s.answers)
    && RepliesOk(s.db, s.replies)
    && RetriesOk(s.db, s.starts, s.workers - {w}, s.retryOf)
    && CollectedOk(s.starts, s.workers - {w}, s.collected)
    && !s.lost
  }

  lemma InvIsAlmost(s: State, w: WorkerId)
    requires Inv(s)
    ensures AlmostInv(s, w)
  {
  }

  lemma ConcludeKeepsInv(s: State, w: WorkerId, outcome: Change, s': State)
    requires AlmostInv(s, w) && w in s.workers && s.workers[w].Handling? && s' == Conclude(s, w, outcome)
    requires outcome.status == Failed || outcome.status == Succeeded
    requires outcome.status == Succeeded ==> forall c :: c in s.retryOf ==> s.retryOf[c] != s.workers[w].execution.job
    ensures Inv(s')
  {
    var p := Finishing(s.workers[w].execution, outcome);
    assert PhaseOk(s.db, s.starts, s.workers[w]);
    SetKeepsWorkers(s.db, s.workers, s.starts, w, p);
    SetKeepsRetries(s.db, s.starts, s.workers, s.retryOf, w, p);
    SetKeepsCollected(s.starts, s.workers, s.collected, w, p);
  }

  /** While a handler runs, nothing it could have scheduled exists yet. */
  lemma HandlingHasNoRetry(s: State, w: WorkerId)
    requires Inv(s) && w in s.workers && !s.workers[w].Finishing?
    ensures forall c :: c in s.retryOf ==> s.retryOf[c] != s.workers[w].execution.job
    ensures s.workers[w].execution.job !in s.collected
  {
  }

  lemma RetryLinkHolds(p: Job, names: seq<string>, attempt: nat, root: string)
    requires p.jobType == NEWS_COLLECTION || p.jobType == NEWS_INDEX
    requires NewsNames(p.jobType, p.payload) == Some(names)
    requires attempt == RetryAttempt(p.payload) + 1 && attempt < MAX_NEWS_ATTEMPTS
    requires root == RootRunKey(p.runKey, p.payload) && root != ""
    ensures RetryLink(Job(p.jobType, RetryKey(root, attempt), RetryPayload(NewsField(p.jobType), names, attempt, root), INITIAL), p)
  {
    var payload := RetryPayload(NewsField(p.jobType), names, attempt, root);
    NamesRoundTrip(p.payload, NewsField(p.jobType), p.jobType == NEWS_COLLECTION, payload);
  }

  /** What a scheduled retry requests. */
  function Scheduled(s: State, x: Execution, names: seq<string>, newId: JobId, next: nat, root: string, at: Option<Time>): State {
    DoRequest(s, newId, x.jobType, RetryKey(root, next), RetryPayload(NewsField(x.jobType), names, next, root), at)
  }

  function Linked(s: State, c: JobId, p: JobId): State {
    s.(retryOf := s.retryOf[c := p])
  }

  predicate IsRetry(s: State, x: Execution, names: seq<string>, newId: JobId, at: Option<Time>, s1: State, s': State) {
    var next, root := RetryAttempt(x.payload) + 1, RootRunKey(x.runKey, x.payload);
    && s1 == Scheduled(s, x, names, newId, next, root, at)
    && s' == (if next >= MAX_NEWS_ATTEMPTS then s
              else if Taken(s.db, x.jobType, RetryKey(root, next)) then s1
              else Linked(s1, newId, x.job))
  }

  lemma RetryUnfolds(s: State, x: Execution, names: seq<string>, newId: JobId, now: Time, s': State) returns (s1: State, at: Option<Time>)
    requires s' == RequestRetry(s, x, names, newId, now)
    ensures IsRetry(s, x, names, newId, at, s1, s')
  {
    at := Some(now + Seconds(Pow2(RetryAttempt(x.payload) + 1)));
    s1 := Scheduled(s, x, names, newId, RetryAttempt(x.payload) + 1, RootRunKey(x.runKey, x.payload), at);
  }

  lemma ScheduledKeepsInv(s: State, w: WorkerId, x: Execution, names: seq<string>, newId: JobId, next: nat, root: string,
                          at: Option<Time>, s1: State)
    requires Inv(s) && IsHandling(s, w) && IsNew(s, newId) && x == s.workers[w].execution
    requires x.jobType == NEWS_COLLECTION || x.jobType == NEWS_INDEX
    requires NewsNames(x.jobType, x.payload) == Some(names)
    requires next == RetryAttempt(x.payload) + 1 < MAX_NEWS_ATTEMPTS && root == RootRunKey(x.runKey, x.payload)
    requires s1 == Scheduled(s, x, names, newId, next, root, at)
    ensures Inv(s1) && Moves(s.db, s1.db)
    ensures w in s1.workers && s1.workers[w].execution == x
    ensures !Taken(s.db, x.jobType, RetryKey(root, next)) ==> RetryOk(s1.db, s1.starts, newId, x.job)
  {
    RequestKeepsInv(s, newId, x.jobType, RetryKey(root, next), RetryPayload(NewsField(x.jobType), names, next, root), at, s1);
    if !Taken(s.db, x.jobType, RetryKey(root, next)) {
      assert PhaseOk(s.db, s.starts, s.workers[w]);
      NewLink(s, w, names, newId, next, root, s1);
    }
  }

  lemma NewLink(s: State, w: WorkerId, names: seq<string>, newId: JobId, next: nat, root: string, s1: State)
    requires KeysOk(s.db) && StartsOk(s.db, s.starts) && IsHandling(s, w) && PhaseOk(s.db, s.starts, s.workers[w])
    requires IsNew(s, newId) && s1.starts == s.starts
    requires var x := s.workers[w].execution;
      && (x.jobType == NEWS_COLLECTION || x.jobType == NEWS_INDEX)
      && NewsNames(x.jobType, x.payload) == Some(names)
      && next == RetryAttempt(x.payload) + 1 < MAX_NEWS_ATTEMPTS
      && root == RootRunKey(x.runKey, x.payload)
      && s1.db.jobs == s.db.jobs[newId := Job(x.jobType, RetryKey(root, next),
                                              RetryPayload(NewsField(x.jobType), names, next, root), INITIAL)]
    ensures RetryOk(s1.db, s1.starts, newId, s.workers[w].execution.job)
  {
    RetryLinkHolds(s.db.jobs[s.workers[w].execution.job], names, next, root);
  }

  lemma LinkKeepsRetries(db: Db, starts: seq<JobId>, workers: map<WorkerId, Phase>, retryOf: map<JobId, JobId>, c: JobId, p: JobId)
    requires RetriesOk(db, starts, workers, retryOf) && RetryOk(db, starts, c, p)
    requires forall v :: v in workers ==> workers[v].execution.job != p
    ensures RetriesOk(db, starts, workers, retryOf[c := p])
  {
  }

  lemma LinkKeepsAlmost(s: State, w: WorkerId, c: JobId, p: JobId, s': State)
    requires Inv(s) && w in s.workers && s.workers[w].execution.job == p
    requires s' == Linked(s, c, p) && RetryOk(s.db, s.starts, c, p)
    ensures AlmostInv(s', w)
  {
    InvIsAlmost(s, w);
    var others := s.workers - {w};
    assert forall v :: v in others ==> v in s.workers && v != w && others[v] == s.workers[v];
    LinkKeepsRetries(s.db, s.starts, others, s.retryOf, c, p);
  }

  lemma ScheduledKeepsAlmost(s: State, w: WorkerId, x: Execution, names: seq<string>, newId: JobId, at: Option<Time>,
                             s1: State, s': State)
    requires Inv(s) && IsHandling(s, w) && IsNew(s, newId) && x == s.workers[w].execution
    requires x.jobType == NEWS_COLLECTION || x.jobType == NEWS_INDEX
    requires NewsNames(x.jobType, x.payload) == Some(names)
    requires IsRetry(s, x, names, newId, at, s1, s')
    ensures AlmostInv(s', w) && Moves(s.db, s'.db)
  {
    var next, root := RetryAttempt(x.payload) + 1, RootRunKey(x.runKey, x.payload);
    if next >= MAX_NEWS_ATTEMPTS {
      InvIsAlmost(s, w);
    } else {
      ScheduledKeepsInv(s, w, x, names, newId, next, root, at, s1);
      if Taken(s.db, x.jobType, RetryKey(root, next)) {
        InvIsAlmost(s1, w);
      } else {
        LinkKeepsAlmost(s1, w, newId, x.job, s');
      }
    }
  }

  lemma RetryKeepsAlmost(s: State, w: WorkerId, x: Execution, names: seq<string>, newId: JobId, now: Time, s': State)
    requires Inv(s) && IsHandling(s, w) && IsNew(s, newId) && x == s.workers[w].execution
    requires x.jobType == NEWS_COLLECTION || x.jobType == NEWS_INDEX
    requires NewsNames(x.jobType, x.payload) == Some(names)
    requires s' == RequestRetry(s, x, names, newId, now)
    ensures AlmostInv(s', w) && Moves(s.db, s'.db)
  {
    var s1, at := RetryUnfolds(s, x, names, newId, now, s');
    ScheduledKeepsAlmost(s, w, x, names, newId, at, s1, s');
  }

  lemma RetryKeepsWorkers(s: State, x: Execution, names: seq<string>, newId: JobId, now: Time)
    ensures RequestRetry(s, x, names, newId, now).workers == s.workers
  {
  }

  lemma RaiseAndRetryKeepsInv(s: State, w: WorkerId, x: Execution, outcome: Change, names: seq<string>, newId: JobId, now: Time,
                              s1: State, s': State)
    requires Inv(s) && IsHandling(s, w) && IsNew(s, newId) && x == s.workers[w].execution
    requires x.jobType == NEWS_COLLECTION || x.jobType == NEWS_INDEX
    requires NewsNames(x.jobType, x.payload) == Some(names) && outcome.status == Failed
    requires s1 == RequestRetry(s, x, names, newId, now) && w in s1.workers
    requires s' == Conclude(s1, w, outcome)
    ensures Inv(s') && Moves(s.db, s'.db)
  {
    RetryKeepsAlmost(s, w, x, names, newId, now, s1);
    RetryKeepsWorkers(s, x, names, newId, now);
    ConcludeKeepsInv(s1, w, outcome, s');
  }

  /** The article tables and their history carry no job. */
  lemma ArticlesKeepAlmost(s: State, w: WorkerId, articles: map<string, Article>, insertedBy: map<string, JobId>, s': State)
    requires Inv(s) && IsHandling(s, w)
    requires s' == s.(db := s.db.(articles := articles),
                      collected := s.collected + {s.workers[w].execution.job}, insertedBy := insertedBy)
    ensures AlmostInv(s', w)
  {
    assert PhaseOk(s.db, s.starts, s.workers[w]);
    ArticlesKeepDb(s.db, articles);
    ArticlesKeepRest(s, s'.db);
    var workers' := s.workers - {w};
    forall v | v in workers' ensures workers'[v].execution.job != s.workers[w].execution.job {
    }
  }

  lemma ArticlesKeepDb(db: Db, articles: map<string, Article>)
    requires DbOk(db)
    ensures DbOk(db.(articles := articles)) && Moves(db, db.(articles := articles))
  {
    var db' := db.(articles := articles);
    assert forall e :: EventOk(db, e) ==> EventOk(db', e);
  }

  lemma ArticlesKeepRest(s: State, db': Db)
    requires Inv(s) && db'.jobs == s.db.jobs && db'.keys == s.db.keys && Moves(s.db, db')
    ensures WorkersOk(db', s.workers, s.starts)
    ensures StartsOk(db', s.starts)
    ensures CancelsOk(db', s.cancels, s.answers)
    ensures RepliesOk(db', s.replies)
    ensures RetriesOk(db', s.starts, s.workers, s.retryOf)
  {
    MovesKeepStarts(s.db, db', s.starts);
    MovesKeepCancels(s.db, db', s.cancels, s.answers);
    MovesKeepReplies(s.db, db', s.replies);
    RunningJobs(s);
    MovesKeepWorkers(s.db, db', s.workers, s.starts);
    RetriedJobs(s);
    MovesKeepRetries(s.db, db', s.starts, s.workers, s.retryOf);
  }

  lemma CommitKeepsInv(s: State, w: WorkerId, articles: seq<Article>, outcome: Change, s1: State, done: State)
    requires Inv(s) && IsHandling(s, w) && outcome.status == Succeeded
    requires s1 == CommitArticles(s, s.workers[w].execution, articles, false, "")
    requires done == Conclude(s1, w, outcome)
    ensures Inv(done) && Moves(s.db, done.db)
  {
    ArticlesKeepAlmost(s, w, s1.db.articles, s1.insertedBy, s1);
    ArticlesKeepDb(s.db, s1.db.articles);
    HandlingHasNoRetry(s, w);
    ConcludeKeepsInv(s1, w, outcome, done);
  }

  lemma CollectKeepsInv(s: State, w: WorkerId, articles: seq<Article>, indexing: bool, newId: JobId, outcome: Change, s': State)
    requires Inv(s) && IsHandling(s, w) && IsNew(s, newId) && outcome.status == Succeeded
    requires s' == Conclude(CommitArticles(s, s.workers[w].execution, articles, indexing, newId), w, outcome)
    ensures Inv(s') && Moves(s.db, s'.db)
  {
    var x := s.workers[w].execution;
    var s1 := CommitArticles(s, x, articles, false, "");
    var done := Conclude(s1, w, outcome);
    CommitKeepsInv(s, w, articles, outcome, s1, done);
    if indexing {
      IndexRequestLast(s, w, articles, newId, outcome, done, s');
      RequestKeepsInv(done, newId, NEWS_INDEX, IndexKey(x.job), map[SOURCE_KEYS := Strings(NewKeys(s.db, articles))], None, s');
    }
  }

  /** Requesting the index job and noting the outcome commute. */
  lemma IndexRequestLast(s: State, w: WorkerId, articles: seq<Article>, newId: JobId, outcome: Change, done: State, s': State)
    requires IsHandling(s, w)
    requires done == Conclude(CommitArticles(s, s.workers[w].execution, articles, false, ""), w, outcome)
    requires s' == Conclude(CommitArticles(s, s.workers[w].execution, articles, true, newId), w, outcome)
    ensures s' == DoRequest(done, newId, NEWS_INDEX, IndexKey(s.workers[w].execution.job),
                            map[SOURCE_KEYS := Strings(NewKeys(s.db, articles))], None)
    ensures done.db.jobs == s.db.jobs
  {
  }

  lemma FinishKeepsRetries(s: State, w: WorkerId, db': Db)
    requires Inv(s) && w in s.workers && s.workers[w].Finishing? && Moves(s.db, db')
    requires db' == Transition(s.db, s.workers[w].execution.job, Running, s.workers[w].outcome)
    ensures RetriesOk(db', s.starts, s.workers - {w}, s.retryOf)
  {
    FewerWorkers(s, w);
    RetriedJobs(s);
    MovesKeepRetries(s.db, db', s.starts, s.workers - {w}, s.retryOf);
  }

  lemma FinishKeepsWorkers(s: State, w: WorkerId, db': Db)
    requires Inv(s) && w in s.workers && s.workers[w].Finishing? && Moves(s.db, db')
    requires db' == Transition(s.db, s.workers[w].execution.job, Running, s.workers[w].outcome)
    ensures WorkersOk(db', s.workers - {w}, s.starts)
  {
    FewerWorkers(s, w);
    RunningJobs(s);
    MovesKeepWorkers(s.db, db', s.workers - {w}, s.starts);
  }

  lemma FinishKeepsInv(s: State, w: WorkerId, s': State)
    requires Inv(s) && w in s.workers && s.workers[w].Finishing? && s' == Finish(s, w)
    ensures Inv(s') && Moves(s.db, s'.db)
  {
    var job, outcome := s.workers[w].execution.job, s.workers[w].outcome;
    assert PhaseOk(s.db, s.starts, s.workers[w]);
    TransitionKeepsDb(s.db, job, Running, outcome, s'.db);
    MovesKeepStarts(s.db, s'.db, s.starts);
    MovesKeepCancels(s.db, s'.db, s.cancels, s.answers);
    MovesKeepReplies(s.db, s'.db, s.replies);
    FinishKeepsWorkers(s, w, s'.db);
    FinishKeepsRetries(s, w, s'.db);
    FewerWorkers(s, w);
  }

  lemma CrashKeepsInv(s: State, w: WorkerId, s': State)
    requires Inv(s) && s' == s.(workers := s.workers - {w})
    ensures Inv(s')
  {
    FewerWorkers(s, w);
  }

  lemma PlainConclude(s: State, w: WorkerId, outcome: Change, s': State)
    requires Inv(s) && IsHandling(s, w) && (outcome.status == Failed || outcome.status == Succeeded) && s' == Conclude(s, w, outcome)
    ensures Inv(s')
  {
    InvIsAlmost(s, w);
    HandlingHasNoRetry(s, w);
    ConcludeKeepsInv(s, w, outcome, s');
  }

  lemma TriggerKeepsInv(s: State, newId: JobId, jobType: string, runKey: string, payload: Payload, s': State)
    requires Inv(s) && IsNew(s, newId)
    requires s' == s || (runKey != "" && s' == DoRequest(s, newId, jobType, runKey, payload, None))
    ensures Inv(s') && Moves(s.db, s'.db)
  {
    if s' != s {
      RequestKeepsInv(s, newId, jobType, runKey, payload, None, s');
    }
  }

  lemma ApiStepKeepsInv(s: State, step: Step, s': State)
    requires Inv(s) && Next(s, step, s') && (step.TriggerStep? || step.CancelBegin? || step.CancelTry? || step.CancelEnd?)
    ensures Inv(s') && Moves(s.db, s'.db)
  {
    match step
    case TriggerStep(newId, jobType, runKey, payload) =>
      assert s' == s || (runKey != "" && s' == DoRequest(s, newId, jobType, runKey, payload, None));
      TriggerKeepsInv(s, newId, jobType, runKey, payload, s');
    case CancelBegin(request, jobType, job) =>
      CancelBeginCases(s, request, jobType, job, s');
      CancelBeginKeepsInv(s, request, s', job);
    case CancelTry(request) => CancelTryKeepsInv(s, request, s');
    case CancelEnd(request) => CancelEndKeepsInv(s, request, s');
  }

  lemma HandlerStepKeepsInv(s: State, step: Step, s': State)
    requires Inv(s) && Next(s, step, s') && (step.Raise? || step.Return?)
    ensures Inv(s') && s'.db == s.db
  {
    match step
    case Raise(w, error) => PlainConclude(s, w, Change(Failed, None, Some(error)), s');
    case Return(w, result) => PlainConclude(s, w, Change(Succeeded, result, None), s');
  }

  lemma ClaimStepKeepsInv(s: State, step: Step, s': State)
    requires Inv(s) && Next(s, step, s') && (step.Deliver? || step.Start?)
    ensures Inv(s') && Moves(s.db, s'.db)
  {
    match step
    case Deliver(w, e) => ClaimKeepsInv(s, w, e, s');
    case Start(w) => BeginKeepsInv(s, w, s');
  }

  lemma LastStepKeepsInv(s: State, step: Step, s': State)
    requires Inv(s) && Next(s, step, s') && (step.Record? || step.Crash?)
    ensures Inv(s') && Moves(s.db, s'.db)
  {
    match step
    case Record(w) => FinishKeepsInv(s, w, s');
    case Crash(w) => CrashKeepsInv(s, w, s');
  }

  lemma NewsStepKeepsInv(s: State, step: Step, s': State)
    requires Inv(s) && Next(s, step, s') && (step.RaiseAndRetry? || step.Collect?)
    ensures Inv(s') && Moves(s.db, s'.db)
  {
    match step
    case RaiseAndRetry(w, error, newId, now) =>
      var x := s.workers[w].execution;
      var names := NewsNames(x.jobType, x.payload).value;
      var s1 := RequestRetry(s, x, names, newId, now);
      RetryKeepsWorkers(s, x, names, newId, now);
      RaiseAndRetryKeepsInv(s, w, x, Change(Failed, None, Some(error)), names, newId, now, s1, s');
    case Collect(w, articles, indexing, newId, summary) =>
      CollectKeepsInv(s, w, articles, indexing, newId, Change(Succeeded, Some(summary), None), s');
  }

  lemma StepKeepsInv(s: State, step: Step, s': State)
    requires Inv(s) && Next(s, step, s')
    ensures Inv(s') && Moves(s.db, s'.db)
  {
    if step.TriggerStep? || step.CancelBegin? || step.CancelTry? || step.CancelEnd? {
      ApiStepKeepsInv(s, step, s');
    } else if step.RaiseAndRetry? || step.Collect? {
      NewsStepKeepsInv(s, step, s');
    } else if step.Raise? || step.Return? {
      HandlerStepKeepsInv(s, step, s');
    } else if step.Deliver? || step.Start? {
      ClaimStepKeepsInv(s, step, s');
    } else {
      LastStepKeepsInv(s, step, s');
    }
  }

  lemma {:induction false} RunInv(states: seq<State>, steps: seq<Step>, k: nat)
    requires IsRun(states, steps) && k < |states|
    ensures Inv(states[k])
  {
    if k > 0 {
      RunInv(states, steps, k - 1);
      assert StepAt(states, steps, k - 1);
      StepKeepsInv(states[k - 1], steps[k - 1], states[k]);
    }
  }
}
