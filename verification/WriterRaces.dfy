/** What subscription writers that act on outdated reads do to revisions, and exactly
    how outdated a read may be. */
module WriterRaces {
  import opened Basics
  import opened Text
  import opened Domain
  import opened Pipeline
  import opened PipelineInvariant
  import opened PipelineTheorems
  import opened PipelineRuns

  // ------------------------------------------------------------- near reads

  function Revision(row: Option<Subscription>): int {
    if row.Some? then row.value.revision else 0
  }

  /** The revision read, 0 for no row, is at most one below the current one; if the
      write writes anything. */
  ghost predicate IsNearWrite(s: State, session: SessionId, raw: string, enable: bool, read: Option<Subscription>) {
    session in s.sessions && NormalizeStockCode(raw).Some? ==>
      var id := SubscriptionId(s.sessions[session].user, NormalizeStockCode(raw).value);
      NewVersion(id, enable, read).Some? ==>
        Revision(CurrentRow(s, s.sessions[session].shard, id)) <= Revision(read) + 1
  }

  ghost predicate IsNearStep(s: State, step: Step) {
    match step
    case Subscribe(session, raw, read) => IsNearWrite(s, session, raw, true, read)
    case Unsubscribe(session, raw, read) => IsNearWrite(s, session, raw, false, read)
    case _ => true
  }

  /** A run in which no write reads more than one revision behind. Runs of isolated
      writers, which read the current row, are of this kind. */
  ghost predicate IsNearRun(states: seq<State>, steps: seq<Step>) {
    IsRun(states, steps) && forall k :: 0 <= k < |steps| ==> IsNearStep(states[k], steps[k])
  }

  /** Every row is the highest committed version of its subscription. */
  ghost predicate TopOk(s: State) {
    forall id :: id in s.versions ==>
      && (ShardIdFor(id.user), id) in s.subscriptions
      && forall v :: v in s.versions[id] ==> v.revision <= s.subscriptions[(ShardIdFor(id.user), id)].revision
  }

  lemma NextRevision(id: SubscriptionId, enable: bool, read: Option<Subscription>)
    requires NewVersion(id, enable, read).Some?
    ensures NewVersion(id, enable, read).value.revision == Revision(read) + 1
  {
  }

  /** In a sound state whose rows are on top, the current revision is the highest
      committed one. */
  lemma HighestRevision(s: State, id: SubscriptionId)
    requires VersionsOk(s.versions) && SubscriptionsOk(s.subscriptions, s.versions) && TopOk(s)
    ensures var current := CurrentRow(s, ShardIdFor(id.user), id);
      && (forall v :: v in Versions(s, id) ==> v.revision <= Revision(current))
      && (current.Some? ==> current.value in Versions(s, id) && current.value == VersionAt(id, current.value.revision))
      && (current.None? ==> Versions(s, id) == [])
      && (forall v :: v in Versions(s, id) ==> v == VersionAt(id, v.revision) && v.revision >= 1)
  {
    forall v | v in Versions(s, id) ensures VersionOk(id, v) {
    }
  }

  // ---------------------------------------------------- near reads, and only they

  lemma RowOnTop(s: State, v: Subscription, s': State)
    requires TopOk(s) && SubscriptionsOk(s.subscriptions, s.versions)
    requires Revision(CurrentRow(s, ShardIdFor(v.id.user), v.id)) <= v.revision
    requires s'.subscriptions == s.subscriptions[(ShardIdFor(v.id.user), v.id) := v]
    requires s'.versions == s.versions[v.id := Versions(s, v.id) + [v]]
    ensures TopOk(s')
  {
  }

  lemma RowBelowTop(s: State, v: Subscription, s': State)
    requires TopOk(s) && SubscriptionsOk(s.subscriptions, s.versions)
    requires v.revision < Revision(CurrentRow(s, ShardIdFor(v.id.user), v.id)) && v.revision >= 1
    requires s'.subscriptions == s.subscriptions[(ShardIdFor(v.id.user), v.id) := v]
    requires s'.versions == s.versions[v.id := Versions(s, v.id) + [v]]
    ensures !TopOk(s')
  {
    var current := s.subscriptions[(ShardIdFor(v.id.user), v.id)];
    assert current in s'.versions[v.id];
  }

  /** One write keeps its row on top exactly if its read is near. */
  lemma WriteKeepsTopIff(s: State, session: SessionId, raw: string, enable: bool, read: Option<Subscription>, s': State)
    requires AccountsOk(s.accounts, s.sessions) && OutboxOk(s.outbox, s.log, s.nextEvent) && VersionsOk(s.versions)
    requires SubscriptionsOk(s.subscriptions, s.versions) && TopOk(s) && WasRead(s, session, raw, read)
    requires s' == WriteSubscription(s, session, raw, enable, read)
    ensures TopOk(s') <==> IsNearWrite(s, session, raw, enable, read)
  {
    if session in s.sessions && NormalizeStockCode(raw).Some? {
      var id := SubscriptionId(s.sessions[session].user, NormalizeStockCode(raw).value);
      SessionIsRoutable(s, session);
      if NewVersion(id, enable, read).Some? {
        var v := NewVersion(id, enable, read).value;
        NewVersionOk(id, enable, read);
        NextRevision(id, enable, read);
        WrittenRows(s, session, raw, id, enable, read, v, s');
        if Revision(CurrentRow(s, ShardIdFor(id.user), id)) <= v.revision {
          RowOnTop(s, v, s');
        } else {
          RowBelowTop(s, v, s');
        }
      }
    }
  }

  lemma WrittenRows(s: State, session: SessionId, raw: string, id: SubscriptionId, enable: bool, read: Option<Subscription>,
                    v: Subscription, s': State)
    requires session in s.sessions && s.sessions[session] == SessionData(id.user, ShardIdFor(id.user))
    requires Account(ShardIdFor(id.user)) in s.outbox && NormalizeStockCode(raw) == Some(id.stockCode)
    requires NewVersion(id, enable, read) == Some(v) && v.id == id && s' == WriteSubscription(s, session, raw, enable, read)
    ensures s'.subscriptions == s.subscriptions[(ShardIdFor(id.user), id) := v]
    ensures s'.versions == s.versions[id := Versions(s, id) + [v]]
    ensures s'.projections == s.projections
  {
    assert s' == SaveSubscription(s, ShardIdFor(id.user), v);
  }

  lemma SessionIsRoutable(s: State, session: SessionId)
    requires AccountsOk(s.accounts, s.sessions) && OutboxOk(s.outbox, s.log, s.nextEvent) && session in s.sessions
    ensures Account(s.sessions[session].shard) in s.outbox
  {
    assert Account(s.sessions[session].shard) in STORES;
  }

  lemma StepKeepsTopIff(s: State, step: Step, s': State)
    requires Inv(s) && TopOk(s) && Next(s, step, s')
    ensures TopOk(s') <==> IsNearStep(s, step)
  {
    if step.Subscribe? || step.Unsubscribe? {
      WriteKeepsTopIff(s, step.session, step.raw, step.Subscribe?, step.read, s');
    } else {
      OtherStepsKeepRows(s, step, s');
    }
  }

  lemma RunKeepsTopIff(states: seq<State>, steps: seq<Step>, k: nat, s: State, s': State)
    requires IsRun(states, steps) && k < |steps| && s == states[k] && s' == states[k + 1] && TopOk(s)
    ensures TopOk(s') <==> IsNearStep(s, steps[k])
  {
    RunInv(states, steps, k);
    assert StepAt(states, steps, k);
    StepKeepsTopIff(s, steps[k], s');
  }

  lemma {:induction false} NearRunTop(states: seq<State>, steps: seq<Step>, k: nat)
    requires IsNearRun(states, steps) && k < |states|
    ensures TopOk(states[k])
  {
    if k > 0 {
      NearRunTop(states, steps, k - 1);
      RunKeepsTopIff(states, steps, k - 1, states[k - 1], states[k]);
    }
  }

  /** Every row is always the highest committed version if and only if no write reads
      more than one revision behind: the first write that does leaves its row below a
      committed revision. */
  lemma RowsOnTopIff(states: seq<State>, steps: seq<Step>)
    requires IsRun(states, steps)
    ensures (forall k :: 0 <= k < |states| ==> TopOk(states[k])) <==> IsNearRun(states, steps)
  {
    if IsNearRun(states, steps) {
      forall k | 0 <= k < |states| ensures TopOk(states[k]) {
        NearRunTop(states, steps, k);
      }
    }
    if forall k :: 0 <= k < |states| ==> TopOk(states[k]) {
      forall k | 0 <= k < |steps| ensures IsNearStep(states[k], steps[k]) {
        assert TopOk(states[k]) && TopOk(states[k + 1]);
        RunKeepsTopIff(states, steps, k, states[k], states[k + 1]);
      }
    }
  }

  lemma NearRunFacts(states: seq<State>, steps: seq<Step>, k: nat, id: SubscriptionId)
    requires IsNearRun(states, steps) && k < |states|
    ensures Inv(states[k])
    ensures var s := states[k]; var current := CurrentRow(s, ShardIdFor(id.user), id);
      && (forall v :: v in Versions(s, id) ==> v.revision <= Revision(current))
      && (current.Some? ==> current.value in Versions(s, id) && current.value == VersionAt(id, current.value.revision))
      && (current.None? ==> Versions(s, id) == [])
      && (forall v :: v in Versions(s, id) ==> v == VersionAt(id, v.revision) && v.revision >= 1)
  {
    RunInv(states, steps, k);
    NearRunTop(states, steps, k);
    HighestRevision(states[k], id);
  }

  // ------------------------------------------------------------ convergence

  /** While no write reads more than one revision behind, a projection never runs
      ahead of its source, and it equals the source as soon as the newest revision is
      applied, whatever became of the other updates. */
  lemma NearConvergence(states: seq<State>, steps: seq<Step>, k: nat, id: SubscriptionId, e: EventId, p: Projection)
    requires IsNearRun(states, steps) && k < |states|
    requires Handled(states[k].log, states[k].inbox, e, p) && p.id == id
    ensures var s, key := states[k], (ShardIdFor(id.user), id);
      && id in s.projections
      && key in s.subscriptions
      && s.projections[id].revision <= s.subscriptions[key].revision
    ensures var s, source := states[k], states[k].subscriptions[(ShardIdFor(id.user), id)];
      p.revision == source.revision ==>
        s.projections[id] == Projection(source.id, source.user, ShardIdFor(source.user), source.stockCode,
                                        source.enabled, source.revision)
  {
    NearRunFacts(states, steps, k, id);
    ProjectionBelow(states[k], id, e, p);
    SameRevision(states[k].subscriptions[(ShardIdFor(id.user), id)], states[k].projections[id], id);
  }

  lemma SameRevision(source: Subscription, projection: Projection, id: SubscriptionId)
    requires source == VersionAt(id, source.revision) && projection == ProjectionAt(id, projection.revision)
    ensures projection.revision == source.revision ==>
      projection == Projection(source.id, source.user, ShardIdFor(source.user), source.stockCode, source.enabled, source.revision)
  {
  }

  lemma ProjectionBelow(s: State, id: SubscriptionId, e: EventId, p: Projection)
    requires Inv(s) && Handled(s.log, s.inbox, e, p) && p.id == id
    requires var current := CurrentRow(s, ShardIdFor(id.user), id);
      && (forall v :: v in Versions(s, id) ==> v.revision <= Revision(current))
      && (current.Some? ==> current.value == VersionAt(id, current.value.revision))
      && (current.None? ==> Versions(s, id) == [])
    ensures var key := (ShardIdFor(id.user), id);
      && id in s.projections
      && key in s.subscriptions
      && p.revision <= s.projections[id].revision <= s.subscriptions[key].revision
      && s.projections[id] == ProjectionAt(id, s.projections[id].revision)
      && s.subscriptions[key] == VersionAt(id, s.subscriptions[key].revision)
  {
    assert ProjectionsOk(s.projections, s.log, s.inbox);
    ProjectionIsVersion(s, id);
    assert VersionAt(id, s.projections[id].revision) in Versions(s, id);
  }

  // ------------------------------------------------------------- single writes

  /** After any near run, a write gets a revision above all committed ones if and only
      if it read the current row. */
  lemma WriteAdvancesIffCurrent(states: seq<State>, steps: seq<Step>, k: nat, id: SubscriptionId, enable: bool,
                                read: Option<Subscription>)
    requires IsNearRun(states, steps) && k < |states|
    requires read.Some? ==> read.value in Versions(states[k], id)
    requires NewVersion(id, enable, read).Some?
    ensures (forall v :: v in Versions(states[k], id) ==> v.revision < NewVersion(id, enable, read).value.revision)
            <==> read == CurrentRow(states[k], ShardIdFor(id.user), id)
  {
    NearRunFacts(states, steps, k, id);
    NextRevision(id, enable, read);
  }

  /** After any near run, a write leaves the row below some committed revision exactly
      if the revision it read is more than one below the current one. */
  lemma WriteFallsBehindIff(states: seq<State>, steps: seq<Step>, k: nat, id: SubscriptionId, enable: bool,
                            read: Option<Subscription>)
    requires IsNearRun(states, steps) && k < |states|
    requires read.Some? ==> read.value in Versions(states[k], id)
    requires NewVersion(id, enable, read).Some?
    ensures (exists v :: v in Versions(states[k], id) && v.revision > NewVersion(id, enable, read).value.revision)
            <==> Revision(read) + 1 < Revision(CurrentRow(states[k], ShardIdFor(id.user), id))
  {
    NearRunFacts(states, steps, k, id);
    NextRevision(id, enable, read);
    assert Revision(read) >= 0;
  }

  /** After any near run that has brought a projection up to date, one more write
      leaves that projection ahead of its source exactly if the revision it read is
      more than one below the current one. */
  lemma ProjectionAheadIff(states: seq<State>, steps: seq<Step>, session: SessionId, raw: string, id: SubscriptionId, enable: bool,
                           read: Option<Subscription>, s': State)
    requires IsNearRun(states, steps) && WasRead(states[|steps|], session, raw, read)
    requires session in states[|steps|].sessions && states[|steps|].sessions[session].user == id.user
    requires NormalizeStockCode(raw) == Some(id.stockCode) && NewVersion(id, enable, read).Some?
    requires id in states[|steps|].projections
    requires states[|steps|].projections[id].revision == Revision(CurrentRow(states[|steps|], ShardIdFor(id.user), id))
    requires s' == WriteSubscription(states[|steps|], session, raw, enable, read)
    ensures id in s'.projections
    ensures s'.projections[id].revision > Revision(CurrentRow(s', ShardIdFor(id.user), id))
            <==> Revision(read) + 1 < Revision(CurrentRow(states[|steps|], ShardIdFor(id.user), id))
  {
    var s := states[|steps|];
    RunInv(states, steps, |steps|);
    SessionIsRoutable(s, session);
    NewVersionOk(id, enable, read);
    NextRevision(id, enable, read);
    WrittenRows(s, session, raw, id, enable, read, NewVersion(id, enable, read).value, s');
  }

  // -------------------------------------------------------- one concrete race

  /** A user subscribes and unsubscribes, and both updates are relayed and applied. */
  lemma TwoRevisions(id: SubscriptionId) returns (s: State)
    requires id == SubscriptionId(0, CODE)
    ensures Reachable(s) && Clean(s) && 0 in s.sessions && s.sessions[0] == SessionData(0, ShardIdFor(0))
    ensures id in s.projections && s.projections[id].revision == 2
    ensures CurrentRow(s, ShardIdFor(0), id) == Some(VersionAt(id, 2))
  {
    InitReachable();
    InitClean();
    var a := Join(Init(0), 0, 0);
    var b := WriteAndProject(a, 0, id, true, None, 1);
    s := WriteAndProject(b, 0, id, false, Some(VersionAt(id, 1)), 2);
  }

  /** A run from empty tables: signup, login, a subscribe and an unsubscribe, both
      relayed and applied, and then a subscribe that read no row. It ends with the
      projection at revision 2 and the source at revision 1. */
  lemma RaceRun() returns (states: seq<State>, steps: seq<Step>)
    ensures IsRun(states, steps) && steps != [] && steps[|steps| - 1] == Subscribe(0, CODE, None)
    ensures var s, id := states[|steps|], SubscriptionId(0, CODE);
      && id in s.projections
      && s.projections[id].revision == 2
      && CurrentRow(s, ShardIdFor(0), id) == Some(VersionAt(id, 1))
  {
    var id := SubscriptionId(0, CODE);
    var s := TwoRevisions(id);
    states, steps :| IsRun(states, steps) && states[|steps|] == s;
    assert Account(ShardIdFor(0)) in STORES;
    assert NormalizeStockCode(CODE) == Some(CODE) && NewVersion(id, true, None) == Some(VersionAt(id, 1));
    var s' := WriteSubscription(s, 0, CODE, true, None);
    WrittenRows(s, 0, CODE, id, true, None, VersionAt(id, 1), s');
    RunGrows(states, steps, Subscribe(0, CODE, None), s');
    states, steps := states + [s'], steps + [Subscribe(0, CODE, None)];
  }
}
