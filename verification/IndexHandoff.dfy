/** Conservation of the hand-off from news collections to index jobs. */
module IndexHandoff {
  import opened Basics
  import opened Text
  import opened JobPayloads
  import opened Jobs
  import opened JobMachine
  import opened JobInvariant
  import opened JobTheorems

  const INDEX_PREFIX := "news-index:"

  /** Indexing is enabled, and nobody outside uses the collector's run keys. */
  ghost predicate HandsOff(step: Step) {
    match step
    case Collect(_, _, indexing, _, _) => indexing
    case TriggerStep(_, jobType, runKey, _) => !(jobType == NEWS_INDEX && INDEX_PREFIX <= runKey)
    case _ => true
  }

  ghost predicate IsHandoffRun(states: seq<State>, steps: seq<Step>) {
    IsRun(states, steps) && forall k :: 0 <= k < |steps| ==> HandsOff(steps[k])
  }

  // --------------------------------------------------------------- run keys

  lemma IndexKeyInjective(a: JobId, b: JobId)
    requires IndexKey(a) == IndexKey(b)
    ensures a == b
  {
    assert IndexKey(a)[11..] == a && IndexKey(b)[11..] == b;
  }

  /** An index key holds one colon, a retry key at least two, whatever its root. */
  lemma RetryKeyIsNoIndexKey(root: string, attempt: nat, c: JobId)
    requires IsJobId(c)
    ensures RetryKey(root, attempt) != IndexKey(c)
  {
    OneColon(c);
    var key := RetryKey(root, attempt);
    assert key[|root|] == ':' && key[|root| + 6] == ':';
  }

  lemma OneColon(c: JobId)
    requires IsJobId(c)
    ensures forall i :: 0 <= i < |IndexKey(c)| && IndexKey(c)[i] == ':' ==> i == 10
  {
    assert forall i :: 11 <= i < |IndexKey(c)| ==> IndexKey(c)[i] == c[i - 11];
    assert forall i :: 0 <= i < 11 ==> IndexKey(c)[i] == INDEX_PREFIX[i];
  }

  // -------------------------------------------------------------- invariant

  /** Job `j` asks to index exactly the articles that collection `c` inserted. */
  ghost predicate Carries(job: Job, insertedBy: map<string, JobId>, c: JobId) {
    && job.payload.Keys == {SOURCE_KEYS}
    && exists keys: seq<string> ::
         && job.payload[SOURCE_KEYS] == Strings(keys)
         && NoDup(keys)
         && forall k :: k in keys <==> k in insertedBy && insertedBy[k] == c
  }

  ghost predicate IndexJobOk(db: Db, insertedBy: map<string, JobId>, c: JobId) {
    && Taken(db, NEWS_INDEX, IndexKey(c))
    && db.keys[(NEWS_INDEX, IndexKey(c))] in db.jobs
    && Carries(db.jobs[db.keys[(NEWS_INDEX, IndexKey(c))]], insertedBy, c)
  }

  ghost predicate HandoffOk(db: Db, collected: set<JobId>, insertedBy: map<string, JobId>) {
    && (forall c :: c in collected ==> IndexJobOk(db, insertedBy, c))
    && (forall c :: IsJobId(c) && Taken(db, NEWS_INDEX, IndexKey(c)) ==> c in collected)
    && db.articles.Keys == insertedBy.Keys
    && (forall k :: k in insertedBy ==> insertedBy[k] in collected)
  }

  ghost predicate Untouched(s: State, s': State) {
    && s'.db.articles == s.db.articles
    && s'.collected == s.collected
    && s'.insertedBy == s.insertedBy
  }

  /** No index key of a collection becomes taken. */
  ghost predicate NoIndexKeyAdded(db: Db, db': Db) {
    forall c :: IsJobId(c) && Taken(db', NEWS_INDEX, IndexKey(c)) ==> Taken(db, NEWS_INDEX, IndexKey(c))
  }

  lemma QuietKeepsHandoff(s: State, s': State)
    requires HandoffOk(s.db, s.collected, s.insertedBy) && Moves(s.db, s'.db)
    requires Untouched(s, s') && NoIndexKeyAdded(s.db, s'.db)
    ensures HandoffOk(s'.db, s'.collected, s'.insertedBy)
  {
    forall c | c in s'.collected ensures IndexJobOk(s'.db, s'.insertedBy, c) {
      assert IndexJobOk(s.db, s.insertedBy, c);
    }
  }

  lemma RequestAddsOneKey(db: Db, newId: JobId, jobType: string, runKey: string, payload: Payload, at: Option<Time>, db': Db)
    requires db' == Request(db, newId, jobType, runKey, payload, at)
    requires jobType == NEWS_INDEX ==> forall c :: IsJobId(c) ==> runKey != IndexKey(c)
    ensures NoIndexKeyAdded(db, db') && db'.articles == db.articles
  {
  }

  lemma TriggerIsQuiet(s: State, newId: JobId, jobType: string, runKey: string, payload: Payload, s': State)
    requires !(jobType == NEWS_INDEX && INDEX_PREFIX <= runKey)
    requires s' == s || s' == DoRequest(s, newId, jobType, runKey, payload, None)
    ensures Untouched(s, s') && NoIndexKeyAdded(s.db, s'.db)
  {
    if s' != s {
      assert forall c :: INDEX_PREFIX <= IndexKey(c);
      RequestAddsOneKey(s.db, newId, jobType, runKey, payload, None, s'.db);
    }
  }

  lemma RetryIsQuiet(s: State, x: Execution, names: seq<string>, newId: JobId, now: Time, s': State)
    requires s' == RequestRetry(s, x, names, newId, now)
    ensures Untouched(s, s') && NoIndexKeyAdded(s.db, s'.db)
  {
    var s1, at := RetryUnfolds(s, x, names, newId, now, s');
    var next, root := RetryAttempt(x.payload) + 1, RootRunKey(x.runKey, x.payload);
    forall c | IsJobId(c) ensures RetryKey(root, next) != IndexKey(c) {
      RetryKeyIsNoIndexKey(root, next, c);
    }
    RequestAddsOneKey(s.db, newId, x.jobType, RetryKey(root, next), RetryPayload(NewsField(x.jobType), names, next, root), at, s1.db);
  }

  lemma CancelStepIsQuiet(s: State, step: Step, s': State)
    requires Next(s, step, s') && (step.CancelBegin? || step.CancelTry? || step.CancelEnd?)
    ensures Untouched(s, s') && NoIndexKeyAdded(s.db, s'.db)
  {
  }

  lemma WorkerStepIsQuiet(s: State, step: Step, s': State)
    requires Next(s, step, s')
    requires step.Deliver? || step.Start? || step.Raise? || step.Return? || step.Record? || step.Crash?
    ensures Untouched(s, s') && NoIndexKeyAdded(s.db, s'.db)
  {
  }

  // ----------------------------------------------------------- a collection

  lemma NewArticlesCarried(keys: seq<string>, insertedBy: map<string, JobId>, c: JobId, job: Job, insertedBy': map<string, JobId>)
    requires NoDup(keys) && job.payload == map[SOURCE_KEYS := Strings(keys)]
    requires forall k :: k in insertedBy ==> insertedBy[k] != c
    requires insertedBy' == insertedBy + map k | k in keys :: c
    ensures Carries(job, insertedBy', c)
  {
    forall k ensures k in keys <==> k in insertedBy' && insertedBy'[k] == c {
    }
  }

  lemma OtherJobsKept(db: Db, insertedBy: map<string, JobId>, keys: seq<string>, d: JobId, c: JobId,
                      db': Db, insertedBy': map<string, JobId>)
    requires IndexJobOk(db, insertedBy, d) && d != c && Moves(db, db')
    requires forall k :: k in keys ==> k !in insertedBy
    requires insertedBy' == insertedBy + map k | k in keys :: c
    ensures IndexJobOk(db', insertedBy', d)
  {
    var job := db.jobs[db.keys[(NEWS_INDEX, IndexKey(d))]];
    assert forall k :: (k in insertedBy && insertedBy[k] == d) <==> (k in insertedBy' && insertedBy'[k] == d);
  }

  lemma OnlyKeyAdded(db: Db, collected: set<JobId>, c: JobId, newId: JobId, db': Db)
    requires forall d :: IsJobId(d) && Taken(db, NEWS_INDEX, IndexKey(d)) ==> d in collected
    requires db'.keys == db.keys[(NEWS_INDEX, IndexKey(c)) := newId]
    ensures forall d :: IsJobId(d) && Taken(db', NEWS_INDEX, IndexKey(d)) ==> d in collected + {c}
  {
    forall d | IsJobId(d) && Taken(db', NEWS_INDEX, IndexKey(d)) ensures d in collected + {c} {
      if IndexKey(d) == IndexKey(c) {
        IndexKeyInjective(d, c);
      } else {
        assert Taken(db, NEWS_INDEX, IndexKey(d));
      }
    }
  }

  lemma CollectedJobs(db: Db, collected: set<JobId>, insertedBy: map<string, JobId>, c: JobId, keys: seq<string>,
                      newId: JobId, db': Db, insertedBy': map<string, JobId>)
    requires (forall d :: d in collected ==> IndexJobOk(db, insertedBy, d)) && c !in collected && Moves(db, db')
    requires (forall k :: k in insertedBy ==> insertedBy[k] in collected) && (forall k :: k in keys ==> k !in insertedBy)
    requires NoDup(keys) && newId in db'.jobs && db'.jobs[newId].payload == map[SOURCE_KEYS := Strings(keys)]
    requires Taken(db', NEWS_INDEX, IndexKey(c)) && db'.keys[(NEWS_INDEX, IndexKey(c))] == newId
    requires insertedBy' == insertedBy + map k | k in keys :: c
    ensures forall d :: d in collected + {c} ==> IndexJobOk(db', insertedBy', d)
  {
    forall d | d in collected + {c} ensures IndexJobOk(db', insertedBy', d) {
      if d == c {
        NewArticlesCarried(keys, insertedBy, c, db'.jobs[newId], insertedBy');
      } else {
        OtherJobsKept(db, insertedBy, keys, d, c, db', insertedBy');
      }
    }
  }

  lemma CollectedHandoff(db: Db, collected: set<JobId>, insertedBy: map<string, JobId>, c: JobId, keys: seq<string>,
                         newId: JobId, db': Db, insertedBy': map<string, JobId>)
    requires HandoffOk(db, collected, insertedBy) && c !in collected && Moves(db, db')
    requires NoDup(keys) && (forall k :: k in keys ==> k !in db.articles)
    requires db'.articles.Keys == db.articles.Keys + Elements(keys)
    requires newId in db'.jobs && db'.jobs[newId].payload == map[SOURCE_KEYS := Strings(keys)]
    requires db'.keys == db.keys[(NEWS_INDEX, IndexKey(c)) := newId]
    requires insertedBy' == insertedBy + map k | k in keys :: c
    ensures HandoffOk(db', collected + {c}, insertedBy')
  {
    CollectedJobs(db, collected, insertedBy, c, keys, newId, db', insertedBy');
    OnlyKeyAdded(db, collected, c, newId, db');
  }

  lemma CollectUnfolds(s: State, w: WorkerId, articles: seq<Article>, newId: JobId, outcome: Change, s': State)
    requires IsHandling(s, w) && !Taken(s.db, NEWS_INDEX, IndexKey(s.workers[w].execution.job))
    requires s' == Conclude(CommitArticles(s, s.workers[w].execution, articles, true, newId), w, outcome)
    ensures var c := s.workers[w].execution.job;
      && s'.collected == s.collected + {c}
      && s'.insertedBy == s.insertedBy + (map k | k in NewKeys(s.db, articles) :: c)
      && s'.db.articles == InsertArticles(s.db, articles).articles
      && s'.db.jobs == s.db.jobs[newId := Job(NEWS_INDEX, IndexKey(c), map[SOURCE_KEYS := Strings(NewKeys(s.db, articles))], INITIAL)]
      && s'.db.keys == s.db.keys[(NEWS_INDEX, IndexKey(c)) := newId]
  {
  }

  lemma CollectKeepsHandoff(s: State, w: WorkerId, articles: seq<Article>, newId: JobId, outcome: Change, s': State)
    requires Inv(s) && IsHandling(s, w) && IsNew(s, newId) && Moves(s.db, s'.db)
    requires HandoffOk(s.db, s.collected, s.insertedBy)
    requires s' == Conclude(CommitArticles(s, s.workers[w].execution, articles, true, newId), w, outcome)
    ensures HandoffOk(s'.db, s'.collected, s'.insertedBy)
  {
    var c := s.workers[w].execution.job;
    HandlingHasNoRetry(s, w);
    assert IsJobId(c) by {
      RunningJobs(s);
    }
    CollectUnfolds(s, w, articles, newId, outcome, s');
    InsertReturnsNew(s.db, articles);
    CollectedHandoff(s.db, s.collected, s.insertedBy, c, NewKeys(s.db, articles), newId, s'.db, s'.insertedBy);
  }

  /** A collection leaves every article it found in the table: with the content of
      the last one found for a new key, and as it was for a key that was held. */
  lemma CollectionIsStored(states: seq<State>, steps: seq<Step>, k: nat, i: nat)
    requires IsRun(states, steps) && k < |steps| && steps[k].Collect? && i < |steps[k].articles|
    ensures var before, after, key := states[k].db.articles, states[k + 1].db.articles, steps[k].articles[i].sourceKey;
      && key in after
      && Some(after[key]) == if key in before then Some(before[key]) else LastWith(steps[k].articles, key)
  {
    assert StepAt(states, steps, k);
    var db, articles := states[k].db, steps[k].articles;
    InsertReturnsNew(db, articles);
    LastWithFinds(articles, articles[i].sourceKey);
    assert states[k + 1].db.articles == InsertArticles(db, articles).articles;
  }

  // -------------------------------------------------------------------- runs

  lemma TriggerCases(s: State, newId: JobId, jobType: string, runKey: string, payload: Payload)
    ensures var s' := TriggerJob(s, newId, jobType, runKey, payload);
      s' == s || s' == DoRequest(s, newId, jobType, runKey, payload, None)
  {
  }

  lemma RetryStepIsQuiet(s: State, step: Step, s': State)
    requires Next(s, step, s') && step.RaiseAndRetry?
    ensures Untouched(s, s') && NoIndexKeyAdded(s.db, s'.db)
  {
    var x := s.workers[step.worker].execution;
    var names := NewsNames(x.jobType, x.payload).value;
    RetryIsQuiet(s, x, names, step.newId, step.now, RequestRetry(s, x, names, step.newId, step.now));
  }

  lemma StepIsQuiet(s: State, step: Step, s': State)
    requires Next(s, step, s') && HandsOff(step) && !step.Collect?
    ensures Untouched(s, s') && NoIndexKeyAdded(s.db, s'.db)
  {
    if step.TriggerStep? {
      TriggerCases(s, step.newId, step.jobType, step.runKey, step.payload);
      TriggerIsQuiet(s, step.newId, step.jobType, step.runKey, step.payload, s');
    } else if step.RaiseAndRetry? {
      RetryStepIsQuiet(s, step, s');
    } else if step.CancelBegin? || step.CancelTry? || step.CancelEnd? {
      CancelStepIsQuiet(s, step, s');
    } else {
      WorkerStepIsQuiet(s, step, s');
    }
  }

  lemma StepKeepsHandoff(s: State, step: Step, s': State)
    requires Inv(s) && HandoffOk(s.db, s.collected, s.insertedBy) && Next(s, step, s') && HandsOff(step)
    ensures HandoffOk(s'.db, s'.collected, s'.insertedBy)
  {
    StepKeepsInv(s, step, s');
    if step.Collect? {
      CollectKeepsHandoff(s, step.worker, step.articles, step.newId, Change(Succeeded, Some(step.summary), None), s');
    } else {
      StepIsQuiet(s, step, s');
      QuietKeepsHandoff(s, s');
    }
  }

  lemma NextHandoff(states: seq<State>, steps: seq<Step>, k: nat, s: State, s': State)
    requires IsHandoffRun(states, steps) && k < |steps| && s == states[k] && s' == states[k + 1]
    requires HandoffOk(s.db, s.collected, s.insertedBy)
    ensures HandoffOk(s'.db, s'.collected, s'.insertedBy)
  {
    RunInv(states, steps, k);
    assert StepAt(states, steps, k) && HandsOff(steps[k]);
    StepKeepsHandoff(s, steps[k], s');
  }

  lemma {:induction false} RunHandoff(states: seq<State>, steps: seq<Step>, k: nat)
    requires IsHandoffRun(states, steps) && k < |states|
    ensures HandoffOk(states[k].db, states[k].collected, states[k].insertedBy)
  {
    if k > 0 {
      RunHandoff(states, steps, k - 1);
      NextHandoff(states, steps, k - 1, states[k - 1], states[k]);
    }
  }

  /** The source keys listed in a job's payload. */
  ghost function Handed(job: Job): set<string> {
    if SOURCE_KEYS in job.payload && job.payload[SOURCE_KEYS].List?
    then set v | v in job.payload[SOURCE_KEYS].items && v.Str? :: v.s
    else {}
  }

  lemma CarriedIsHanded(job: Job, insertedBy: map<string, JobId>, c: JobId, key: string)
    requires Carries(job, insertedBy, c)
    ensures key in Handed(job) <==> key in insertedBy && insertedBy[key] == c
  {
    var keys: seq<string> :|
      && job.payload[SOURCE_KEYS] == Strings(keys)
      && NoDup(keys)
      && forall k :: k in keys <==> k in insertedBy && insertedBy[k] == c;
    if key in keys {
      var i :| 0 <= i < |keys| && keys[i] == key;
      assert Strings(keys).items[i] == Str(key);
    }
    if key in Handed(job) {
      var v :| v in Strings(keys).items && v == Str(key);
      var i :| 0 <= i < |keys| && Strings(keys).items[i] == v;
      assert keys[i] == key;
    }
  }

  /** The job the collector `c` requested for its articles. */
  ghost function IndexJob(s: State, c: JobId): Job
    requires Taken(s.db, NEWS_INDEX, IndexKey(c)) && s.db.keys[(NEWS_INDEX, IndexKey(c))] in s.db.jobs
  {
    s.db.jobs[s.db.keys[(NEWS_INDEX, IndexKey(c))]]
  }

  /** Whatever collections overlap: every collection that committed has its index
      job, no article is handed to two of these jobs, and together they are handed
      exactly the articles in the table. */
  lemma HandoffConserves(states: seq<State>, steps: seq<Step>, k: nat)
    requires IsHandoffRun(states, steps) && k < |states|
    ensures var s := states[k]; forall c :: c in s.collected ==>
      Taken(s.db, NEWS_INDEX, IndexKey(c)) && s.db.keys[(NEWS_INDEX, IndexKey(c))] in s.db.jobs
    ensures var s := states[k]; forall c, d :: c in s.collected && d in s.collected && c != d ==>
      Handed(IndexJob(s, c)) !! Handed(IndexJob(s, d))
    ensures var s := states[k]; forall key ::
      key in s.db.articles <==> exists c :: c in s.collected && key in Handed(IndexJob(s, c))
  {
    RunHandoff(states, steps, k);
    var s := states[k];
    forall c | c in s.collected ensures IndexJobOk(s.db, s.insertedBy, c) {
    }
    forall c, d | c in s.collected && d in s.collected && c != d ensures Handed(IndexJob(s, c)) !! Handed(IndexJob(s, d)) {
      forall key | key in Handed(IndexJob(s, c)) ensures key !in Handed(IndexJob(s, d)) {
        CarriedIsHanded(IndexJob(s, c), s.insertedBy, c, key);
        CarriedIsHanded(IndexJob(s, d), s.insertedBy, d, key);
      }
    }
    forall key ensures key in s.db.articles <==> exists c :: c in s.collected && key in Handed(IndexJob(s, c)) {
      if key in s.insertedBy {
        CarriedIsHanded(IndexJob(s, s.insertedBy[key]), s.insertedBy, s.insertedBy[key], key);
      }
      forall c | c in s.collected && key in Handed(IndexJob(s, c)) ensures key in s.insertedBy {
        CarriedIsHanded(IndexJob(s, c), s.insertedBy, c, key);
      }
    }
  }

  /** `name` is a key of the list with surrounding blanks removed, and not blank. */
  ghost predicate Reads(keys: seq<string>, name: string) {
    name != "" && exists i :: 0 <= i < |keys| && Strip(keys[i]) == name
  }

  lemma ReadsLast(keys: seq<string>, name: string)
    requires keys != []
    ensures Reads(keys, name) <==> Reads(keys[..|keys| - 1], name) || (name != "" && Strip(keys[|keys| - 1]) == name)
  {
    var n := |keys| - 1;
    if Reads(keys[..n], name) {
      var i :| 0 <= i < n && Strip(keys[..n][i]) == name;
      assert Strip(keys[i]) == name;
    }
    if Reads(keys, name) {
      var i :| 0 <= i < |keys| && Strip(keys[i]) == name;
      assert i < n ==> Strip(keys[..n][i]) == name;
    }
  }

  lemma {:induction false} CleanedReads(keys: seq<string>, name: string)
    ensures name in Cleaned(Strings(keys).items, false) <==> Reads(keys, name)
  {
    if keys != [] {
      var n := |keys| - 1;
      CleanedReads(keys[..n], name);
      ReadsLast(keys, name);
      assert Strings(keys).items[..n] == Strings(keys[..n]).items;
    }
  }

  /** The names read from a list of keys are, once each, the keys without surrounding
      blanks, except blank ones; there are none to read exactly if all are blank. */
  lemma KeysRead(keys: seq<string>, payload: Payload)
    requires payload.Keys == {SOURCE_KEYS} && payload[SOURCE_KEYS] == Strings(keys)
    ensures SourceKeysFrom(payload).None? <==> forall name :: !Reads(keys, name)
    ensures SourceKeysFrom(payload).Some? ==>
      NoDup(SourceKeysFrom(payload).value) && forall name :: name in SourceKeysFrom(payload).value <==> Reads(keys, name)
  {
    var cleaned := Cleaned(Strings(keys).items, false);
    DedupeKeeps(cleaned);
    forall name ensures name in cleaned <==> Reads(keys, name) {
      CleanedReads(keys, name);
    }
    assert Dedupe(cleaned) != [] ==> Dedupe(cleaned)[0] in Dedupe(cleaned);
  }

  /** What the index handler makes of the payload `job`, when `inserted` was handed
      over in it. */
  ghost predicate ReadsInserted(job: Job, inserted: set<string>) {
    var names := SourceKeysFrom(job.payload);
    && (names.None? <==> forall key :: key in inserted ==> Strip(key) == "")
    && (names.Some? ==>
          && NoDup(names.value)
          && (forall name :: name in names.value <==> name != "" && exists key :: key in inserted && Strip(key) == name)
          && (Elements(names.value) == inserted <==> forall key :: key in inserted ==> Trimmed(key)))
  }

  lemma CarriedIsRead(job: Job, insertedBy: map<string, JobId>, c: JobId, inserted: set<string>)
    requires Carries(job, insertedBy, c) && forall key :: key in inserted <==> key in insertedBy && insertedBy[key] == c
    ensures ReadsInserted(job, inserted)
  {
    var keys: seq<string> :|
      && job.payload[SOURCE_KEYS] == Strings(keys)
      && NoDup(keys)
      && forall key :: key in keys <==> key in insertedBy && insertedBy[key] == c;
    assert forall key :: key in inserted <==> key in keys;
    KeysRead(keys, job.payload);
    ReadsOf(keys, inserted);
    if SourceKeysFrom(job.payload).Some? {
      NamesAreClean(job.payload, SOURCE_KEYS, false);
      SameNames(SourceKeysFrom(job.payload).value, keys, inserted);
    }
  }

  /** In every hand-off run the index job of a collection reads exactly the keys of
      the articles that collection inserted, with surrounding blanks removed: all of
      them, once each; and it has nothing to read, so that it raises, exactly if the
      collection inserted no article with a key that is not blank. It reads the very
      keys exactly if none has surrounding blanks. */
  lemma IndexJobReads(states: seq<State>, steps: seq<Step>, k: nat, c: JobId)
    requires IsHandoffRun(states, steps) && k < |states| && c in states[k].collected
    ensures Taken(states[k].db, NEWS_INDEX, IndexKey(c)) && states[k].db.keys[(NEWS_INDEX, IndexKey(c))] in states[k].db.jobs
    ensures ReadsInserted(IndexJob(states[k], c),
                          set key | key in states[k].insertedBy && states[k].insertedBy[key] == c)
  {
    RunHandoff(states, steps, k);
    var s := states[k];
    assert IndexJobOk(s.db, s.insertedBy, c);
    CarriedIsRead(IndexJob(s, c), s.insertedBy, c, set key | key in s.insertedBy && s.insertedBy[key] == c);
  }

  lemma ReadsOf(keys: seq<string>, inserted: set<string>)
    requires forall key :: key in inserted <==> key in keys
    ensures forall name :: Reads(keys, name) <==> name != "" && exists key :: key in inserted && Strip(key) == name
    ensures (forall name :: !Reads(keys, name)) <==> forall key :: key in inserted ==> Strip(key) == ""
  {
    forall name ensures Reads(keys, name) <==> name != "" && exists key :: key in inserted && Strip(key) == name {
      if Reads(keys, name) {
        var i :| 0 <= i < |keys| && Strip(keys[i]) == name;
        assert keys[i] in inserted;
      }
      forall key | key in inserted && Strip(key) == name && name != "" ensures Reads(keys, name) {
        var i :| 0 <= i < |keys| && keys[i] == key;
        assert Strip(keys[i]) == name;
      }
    }
    forall key | key in inserted && Strip(key) != "" ensures Reads(keys, Strip(key)) {
    }
  }

  lemma SameNames(names: seq<string>, keys: seq<string>, inserted: set<string>)
    requires forall key :: key in inserted <==> key in keys
    requires forall name :: name in names <==> Reads(keys, name)
    requires forall name :: name in names ==> Clean(name, false)
    ensures Elements(names) == inserted <==> forall key :: key in inserted ==> Trimmed(key)
  {
    ReadsOf(keys, inserted);
    if forall key :: key in inserted ==> Trimmed(key) {
      forall key | key in inserted ensures Strip(key) == key && Reads(keys, key) {
        StripFixes(key);
      }
      forall name | name in names ensures name in inserted {
        var key :| key in inserted && Strip(key) == name;
      }
    }
    if Elements(names) == inserted {
      forall key | key in inserted ensures Trimmed(key) {
        assert key in Elements(names);
      }
    }
  }

  // ---------------------------------------- a collection that finds nothing

  const SOME_SYMBOLS: Payload := map[SYMBOLS := Strings(["X"])]

  lemma SomeSymbolsRead()
    ensures SymbolsFrom(SOME_SYMBOLS).Some?
  {
    assert Upper("X") == "X";
    CleanedFixes(["X"], true);
    DedupeFixes(["X"]);
  }

  /** A triggered collection up to its running handler. */
  lemma CollectionStarts() returns (s1: State, s2: State, s3: State, e: JobEvent)
    ensures Next(INIT, TriggerStep("a", NEWS_COLLECTION, "k", SOME_SYMBOLS), s1)
    ensures Next(s1, Deliver(0, e), s2) && Next(s2, Start(0), s3)
    ensures s3.workers == map[0 := Handling(Execution("a", NEWS_COLLECTION, "k", SOME_SYMBOLS))]
    ensures s3.db.jobs.Keys == {"a"} && s3.db.articles == map[] && s3.insertedBy == map[] && s3.collected == {}
  {
    s1 := DoRequest(INIT, "a", NEWS_COLLECTION, "k", SOME_SYMBOLS, None);
    e := Trigger("a", NEWS_COLLECTION, "k", SOME_SYMBOLS, None);
    assert e == s1.db.outbox[0];
    s2 := Claim(s1, 0, e);
    s3 := Begin(s2, 0);
  }

  lemma NothingCollected() returns (states: seq<State>, steps: seq<Step>)
    ensures IsHandoffRun(states, steps)
    ensures "a" in states[|steps|].collected && states[|steps|].insertedBy == map[] && states[|steps|].db.articles == map[]
  {
    var s1, s2, s3, e := CollectionStarts();
    SomeSymbolsRead();
    var x := Execution("a", NEWS_COLLECTION, "k", SOME_SYMBOLS);
    var s4 := Conclude(CommitArticles(s3, x, [], true, "b"), 0, Change(Succeeded, Some(map[]), None));
    CollectsNothing(s3, x, s4);
    states, steps := FourSteps(TriggerStep("a", NEWS_COLLECTION, "k", SOME_SYMBOLS), s1, Deliver(0, e), s2, Start(0), s3,
                               Collect(0, [], true, "b", map[]), s4);
  }

  /** A run with a collection that inserts nothing and still requests its index job,
      which then has no keys to read. */
  lemma EmptyCollectionRun() returns (states: seq<State>, steps: seq<Step>)
    ensures IsHandoffRun(states, steps)
    ensures var s := states[|steps|];
      && "a" in s.collected
      && s.db.articles == map[]
      && Taken(s.db, NEWS_INDEX, IndexKey("a"))
      && s.db.keys[(NEWS_INDEX, IndexKey("a"))] in s.db.jobs
      && SourceKeysFrom(IndexJob(s, "a").payload).None?
  {
    states, steps := NothingCollected();
    IndexJobReads(states, steps, |steps|, "a");
  }

  lemma FourSteps(a1: Step, s1: State, a2: Step, s2: State, a3: Step, s3: State, a4: Step, s4: State)
    returns (states: seq<State>, steps: seq<Step>)
    requires Next(INIT, a1, s1) && Next(s1, a2, s2) && Next(s2, a3, s3) && Next(s3, a4, s4)
    requires HandsOff(a1) && HandsOff(a2) && HandsOff(a3) && HandsOff(a4)
    ensures IsHandoffRun(states, steps) && states[|steps|] == s4
  {
    states, steps := [INIT, s1, s2, s3, s4], [a1, a2, a3, a4];
    assert StepAt(states, steps, 0) && StepAt(states, steps, 1) && StepAt(states, steps, 2) && StepAt(states, steps, 3);
  }

  lemma CollectsNothing(s: State, x: Execution, s': State)
    requires s.workers == map[0 := Handling(x)] && s.db.jobs.Keys == {"a"} && x.jobType == NEWS_COLLECTION && SymbolsFrom(x.payload).Some?
    requires s.db.articles == map[] && s.insertedBy == map[]
    requires s' == Conclude(CommitArticles(s, x, [], true, "b"), 0, Change(Succeeded, Some(map[]), None))
    ensures Next(s, Collect(0, [], true, "b", map[]), s')
    ensures x.job in s'.collected && s'.insertedBy == map[] && s'.db.articles == map[]
  {
    assert NewKeys(s.db, []) == [];
  }
}
