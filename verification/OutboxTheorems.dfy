/** Two exact statements about one outbox table: when the backoff holds between the
    attempts themselves, and what any number of relays do while the clock stands. */
module OutboxTheorems {
  import opened Basics
  import opened Domain
  import opened Outbox

  // ---------------------------------------------------------- reachable tables

  ghost predicate Reachable(t: Table) {
    exists tables, actions :: IsRun(tables, actions) && tables[|actions|] == t
  }

  lemma Extend(t: Table, a: Action, t': Table)
    requires Reachable(t) && Act(t, a, t')
    ensures Reachable(t')
  {
    var tables, actions :| IsRun(tables, actions) && tables[|actions|] == t;
    var tables', actions' := tables + [t'], actions + [a];
    forall k | 0 <= k < |actions'| ensures ActAt(tables', actions', k) {
      if k < |actions| {
        assert ActAt(tables, actions, k);
      }
    }
    assert IsRun(tables', actions');
  }

  // ------------------------------------------------------ what a row records

  /** In every run a row records its attempts: it counts them, and is published if and
      only if the last one was confirmed, with the instant of the confirmation and no
      error. No earlier one ever was. After any other outcome it is pending until the
      backoff ends, with the first 2000 characters of the error. */
  lemma RowRecordsAttempts(tables: seq<Table>, actions: seq<Action>, k: nat, i: EventId)
    requires IsRun(tables, actions) && k < |tables| && i in tables[k].rows
    ensures i in tables[k].tries
    ensures var row, tries := tables[k].rows[i], tables[k].tries[i];
      && row.attempts == |tries|
      && (forall m :: 0 <= m < |tries| - 1 ==> !tries[m].outcome.Confirmed?)
      && (row.status == Published <==> tries != [] && tries[|tries| - 1].outcome.Confirmed?)
    ensures var row, tries := tables[k].rows[i], tables[k].tries[i];
      row.status == Published ==>
        var last := tries[|tries| - 1];
        row.publishedAt == Some(last.outcome.at) && row.lastError == None && last.reading <= last.at <= last.outcome.at
    ensures var row, tries := tables[k].rows[i], tables[k].tries[i];
      row.status == Pending ==>
        && row.publishedAt == None
        && (tries == [] ==> row.lastError == None)
        && (tries != [] ==>
              var last, n := tries[|tries| - 1], |tries|;
              && row.lastError == Some(last.outcome.error[..Min(2000, |last.outcome.error|)])
              && row.availableAt == last.reading + 1_000_000 * if n < 6 then Pow2(n) else 60)
  {
    RunInv(tables, actions, k);
    var row, tries := tables[k].rows[i], tables[k].tries[i];
    assert RowOk(row, tries, i in tables[k].accepted);
    if tries != [] {
      assert InOrder(tries[|tries| - 1]);
      DelayIs(|tries|);
    }
  }

  lemma DelayIs(n: nat)
    ensures Delay(n) == if n < 6 then Pow2(n) else 60
  {
    assert Pow2(2) == 4 && Pow2(3) == 8 && Pow2(4) == 16 && Pow2(5) == 32;
    assert Pow2(6) == 64;
  }

  /** A row is what its writer wrote, for good as far as its event and date go, and up
      to its first attempt altogether: pending, and due when the writer said. */
  lemma RowIsAsWritten(tables: seq<Table>, actions: seq<Action>, j: nat, k: nat)
    requires IsRun(tables, actions) && j < k < |tables| && actions[j].Write?
    ensures var w := actions[j];
      && w.id in tables[k].rows
      && tables[k].rows[w.id].event == w.event
      && tables[k].rows[w.id].occurredAt == w.occurredAt
      && (tables[k].rows[w.id].attempts == 0 ==>
            tables[k].rows[w.id].status == Pending && tables[k].rows[w.id].availableAt == w.availableAt)
  {
    assert ActAt(tables, actions, j);
    RunEvolves(tables, actions, j + 1, k);
  }

  /** A crash loses nothing but the attempts of the pass: every row the relay had
      locked is as it was, and due again for anybody. */
  lemma CrashFreesRows(tables: seq<Table>, actions: seq<Action>, k: nat, r: RelayId, i: EventId)
    requires IsRun(tables, actions) && k < |actions| && actions[k] == Relay(Crash(r))
    requires r in tables[k].batches && Locks(tables[k].batches[r], i)
    ensures tables[k + 1].rows == tables[k].rows && tables[k + 1].tries == tables[k].tries
    ensures i in Due(tables[k + 1], tables[k].batches[r].now)
  {
    RunInv(tables, actions, k);
    assert ActAt(tables, actions, k);
    var t, t' := tables[k], tables[k + 1];
    assert BatchOk(t, t.batches[r]);
    assert forall q :: q in t'.batches ==> q in t.batches && t'.batches[q] == t.batches[q] && q != r;
  }

  // ------------------------------------------------- the backoff of attempts

  /** In all runs, a row whose first attempt lagged `lag` behind its pass has its
      n-th attempt at least the sum of the delays after its first. */
  ghost predicate FullBackoff(lag: Time, n: nat)
    requires n >= 1
  {
    forall t, i :: Reachable(t) && i in t.tries && |t.tries[i]| >= n && Lag(t.tries[i][0]) == lag ==>
      t.tries[i][n - 1].at - t.tries[i][0].at >= Seconds(Earliest(n))
  }

  /** A table with one row, every attempt of which was refused. */
  function OneRow(e: Event, tries: seq<Try>, clock: Time): Table {
    var n := |tries|;
    var due := if tries == [] then 0 else tries[n - 1].reading + Seconds(Delay(n));
    Table(map[e.id := Row(e, Pending, n, due, 0, None, if tries == [] then None else Some(""))],
          map[], map[e.id := tries], {}, clock)
  }

  lemma FirstRow(e: Event)
    ensures Reachable(OneRow(e, [], 0))
  {
    var t := EmptyTable(0);
    assert IsRun([t], []);
    Extend(t, Write(e.id, e, 0, 0), OneRow(e, [], 0));
  }

  lemma LockOne(e: Event, t: Table, now: Time)
    requires Reachable(t) && t.rows.Keys == {e.id} && t.batches == map[] && t.clock <= now && DueRow(t.rows[e.id], now)
    ensures Reachable(LockRows(t, 0, now, [e.id]))
  {
    assert Due(t, now) == {e.id};
    assert Elements([e.id]) == {e.id};
    Extend(t, Relay(Lock(0, now, 1, [e.id])), LockRows(t, 0, now, [e.id]));
  }

  lemma RefuseOne(e: Event, t: Table, now: Time, at: Time) returns (t': Table)
    requires Reachable(LockRows(t, 0, now, [e.id])) && t.rows.Keys == {e.id} && t.batches == map[] && now <= at
    requires t.tries.Keys == {e.id}
    ensures Reachable(t')
    ensures t' == Table(map[e.id := AfterError(t.rows[e.id], now, "")], map[],
                        map[e.id := t.tries[e.id] + [Try(now, at, Refused(""))]], t.accepted, at)
  {
    var a := LockRows(t, 0, now, [e.id]);
    var b := AttemptNext(a, 0, at, Refused(""));
    Extend(a, Relay(Attempt(0, at, Refused(""))), b);
    t' := CommitRows(b, 0);
    Extend(b, Relay(Commit(0)), t');
  }

  /** One more pass, begun at `now`, whose attempt at `at` is refused. */
  lemma RefusedPass(e: Event, tries: seq<Try>, clock: Time, now: Time, at: Time)
    requires Reachable(OneRow(e, tries, clock)) && clock <= now <= at
    requires OneRow(e, tries, clock).rows[e.id].availableAt <= now
    ensures Reachable(OneRow(e, tries + [Try(now, at, Refused(""))], at))
  {
    var t := OneRow(e, tries, clock);
    LockOne(e, t, now);
    var t' := RefuseOne(e, t, now, at);
    assert t' == OneRow(e, tries + [Try(now, at, Refused(""))], at);
  }

  /** The first attempt lags, and every later pass begins as soon as it may and
      attempts at once. */
  function Schedule(lag: Time, n: nat): (tries: seq<Try>)
    requires n >= 1
    ensures |tries| == n
  {
    if n == 1 then [Try(0, lag, Refused(""))]
    else
      var before := Schedule(lag, n - 1);
      var last := before[n - 2];
      var now := Max(last.at, last.reading + Seconds(Delay(n - 1)));
      before + [Try(now, now, Refused(""))]
  }

  lemma {:induction false} ScheduleReachable(e: Event, lag: Time, n: nat)
    requires n >= 1 && lag >= 0
    ensures Reachable(OneRow(e, Schedule(lag, n), Schedule(lag, n)[n - 1].at))
  {
    if n == 1 {
      FirstRow(e);
      RefusedPass(e, [], 0, 0, lag);
      assert [] + [Try(0, lag, Refused(""))] == Schedule(lag, 1);
    } else {
      ScheduleReachable(e, lag, n - 1);
      var before, now := Schedule(lag, n - 1), Schedule(lag, n)[n - 1].at;
      RefusedPass(e, before, before[n - 2].at, now, now);
    }
  }

  /** From the second attempt on, the schedule is ahead of the full bound by the lag,
      but by two seconds at most. */
  lemma {:induction false} ScheduleTimes(lag: Time, n: nat)
    requires n >= 2 && lag >= 0
    ensures Schedule(lag, n)[0] == Try(0, lag, Refused("")) && Schedule(lag, n)[n - 1].reading == Schedule(lag, n)[n - 1].at
    ensures Schedule(lag, n)[n - 1].at - lag == Seconds(Earliest(n)) - Min(lag, Seconds(2))
  {
    EarliestStep(n - 1);
    if n == 2 {
      assert Pow2(1) == 2;
      assert Schedule(lag, 1) == [Try(0, lag, Refused(""))];
    } else {
      ScheduleTimes(lag, n - 1);
    }
  }

  lemma NoLagHasFullBackoff(t: Table, i: EventId, n: nat)
    requires Reachable(t) && n >= 1 && i in t.tries && |t.tries[i]| >= n && Lag(t.tries[i][0]) <= 0
    ensures t.tries[i][n - 1].at - t.tries[i][0].at >= Seconds(Earliest(n))
  {
    var tables, actions :| IsRun(tables, actions) && tables[|actions|] == t;
    RunInv(tables, actions, |actions|);
    Backoff(tables, actions, |actions|, i, n);
  }

  /** The attempts themselves keep the full backoff in all runs exactly if the first
      one does not lag behind the clock reading of its pass. */
  lemma BackoffExact(lag: Time, n: nat)
    requires n >= 2
    ensures FullBackoff(lag, n) <==> lag <= 0
  {
    if lag <= 0 {
      forall t, i | Reachable(t) && i in t.tries && |t.tries[i]| >= n && Lag(t.tries[i][0]) == lag
        ensures t.tries[i][n - 1].at - t.tries[i][0].at >= Seconds(Earliest(n))
      {
        NoLagHasFullBackoff(t, i, n);
      }
    } else {
      var e := Event(0, SignalCreated(Signal(0, "", "", "", 0, None)));
      var tries := Schedule(lag, n);
      ScheduleReachable(e, lag, n);
      ScheduleTimes(lag, n);
      var t := OneRow(e, tries, tries[n - 1].at);
      assert t.tries[e.id] == tries && Lag(tries[0]) == lag;
    }
  }

  /** A first pass that reads the clock and publishes 100 seconds later: the second
      attempt comes no time at all after the first. */
  lemma LateAttemptsMeet(e: Event) returns (t: Table)
    ensures Reachable(t) && e.id in t.tries && |t.tries[e.id]| == 2
    ensures Lag(t.tries[e.id][0]) == Seconds(100) && t.tries[e.id][1].at == t.tries[e.id][0].at
  {
    ScheduleReachable(e, Seconds(100), 2);
    ScheduleTimes(Seconds(100), 2);
    var tries := Schedule(Seconds(100), 2);
    assert Pow2(2) == 4;
    t := OneRow(e, tries, tries[1].at);
  }

  // --------------------------------------------- relays while the clock stands

  /** Between `j` and `k` nobody writes or crashes, and every pass reads `now`. */
  ghost predicate Stands(actions: seq<Action>, j: nat, k: nat, now: Time)
    requires j <= k <= |actions|
  {
    forall m :: j <= m < k ==>
      actions[m].Relay? && !actions[m].step.Crash? && (actions[m].step.Lock? ==> actions[m].step.now == now)
  }

  /** The row a step attempts. */
  ghost function TriedBy(t: Table, a: Action): seq<EventId> {
    if a.Relay? && a.step.Attempt? && a.step.relay in t.batches && t.batches[a.step.relay].todo != []
    then [t.batches[a.step.relay].todo[0]]
    else []
  }

  /** The rows attempted between `j` and `k`, in order, by whichever relay. */
  ghost function TriedIds(tables: seq<Table>, actions: seq<Action>, j: nat, k: nat): seq<EventId>
    requires j <= k <= |actions| && |tables| == |actions| + 1
  {
    if k == j then [] else TriedIds(tables, actions, j, k - 1) + TriedBy(tables[k - 1], actions[k - 1])
  }

  ghost predicate BatchStill(b: Batch, now: Time, due: set<EventId>, tried: seq<EventId>) {
    && b.now == now
    && (forall i :: i in b.todo ==> i in due && i !in tried)
    && (forall i :: i in b.done ==> i in tried)
  }

  /** `tried` were attempted out of the rows first due; the others of these are due
      yet, and of the former only those that an open batch still locks. */
  ghost predicate Still(t: Table, now: Time, due: set<EventId>, tried: seq<EventId>) {
    && NoDup(tried)
    && (forall i :: i in tried ==> i in due)
    && (forall r :: r in t.batches ==> BatchStill(t.batches[r], now, due, tried))
    && (forall i :: i in due && i !in tried ==> i in t.rows && DueRow(t.rows[i], now))
    && (forall i :: i in t.rows && DueRow(t.rows[i], now) ==> i in due)
    && (forall i :: i in tried && i in t.rows && DueRow(t.rows[i], now) ==> Locked(t, i))
  }

  lemma LockKeepsStill(t: Table, r: RelayId, now: Time, size: nat, ids: seq<EventId>, due: set<EventId>, tried: seq<EventId>, t': Table)
    requires Still(t, now, due, tried) && r !in t.batches && IsBatch(t.rows, Due(t, now), size, ids)
    requires t' == LockRows(t, r, now, ids)
    ensures Still(t', now, due, tried)
  {
    BatchIsDue(t, now, size, ids);
    forall i | Locked(t, i) ensures Locked(t', i) {
      var q :| q in t.batches && Locks(t.batches[q], i);
      assert q in t'.batches && Locks(t'.batches[q], i);
    }
  }

  lemma AttemptKeepsLocked(t: Table, r: RelayId, at: Time, outcome: Outcome, row: Row, t': Table, i: EventId)
    requires r in t.batches && t.batches[r].todo != [] && t'.batches == t.batches[r := Tried(t.batches[r], at, outcome, row)]
    requires Locked(t, i) || i == t.batches[r].todo[0]
    ensures Locked(t', i)
  {
    var b := t.batches[r];
    if i == b.todo[0] {
      assert Locks(t'.batches[r], i);
    } else {
      var q :| q in t.batches && Locks(t.batches[q], i);
      assert Locks(t'.batches[q], i) by {
        if q == r && i in b.todo {
          assert i in b.todo[1..];
        }
      }
    }
  }

  lemma AttemptKeepsStill(t: Table, r: RelayId, at: Time, outcome: Outcome, row: Row, now: Time, due: set<EventId>, tried: seq<EventId>, t': Table)
    requires Still(t, now, due, tried) && Disjoint(t) && r in t.batches && BatchOk(t, t.batches[r]) && t.batches[r].todo != []
    requires t'.batches == t.batches[r := Tried(t.batches[r], at, outcome, row)] && t'.rows == t.rows
    ensures Still(t', now, due, tried + [t.batches[r].todo[0]])
  {
    var b := t.batches[r];
    var id := b.todo[0];
    var tried' := tried + [id];
    assert id in b.todo && BatchStill(b, now, due, tried);
    forall q | q in t'.batches ensures BatchStill(t'.batches[q], now, due, tried') {
      assert BatchStill(t.batches[q], now, due, tried);
      if q != r && id in t.batches[q].todo {
        assert Locks(b, id) && Locks(t.batches[q], id);
      }
    }
    forall i | i in tried' && i in t'.rows && DueRow(t'.rows[i], now) ensures Locked(t', i) {
      AttemptKeepsLocked(t, r, at, outcome, row, t', i);
    }
  }

  lemma DoneIsNotDue(t: Table, b: Batch, i: EventId)
    requires BatchOk(t, b) && i in t.rows && t.rows[i].publishedAt == None && i in b.done
    ensures !DueRow(b.done[i], b.now)
  {
    assert Locks(b, i) && Attempted(t.rows[i], b.done[i], b.tried[i], i in t.accepted);
    assert Delay(b.done[i].attempts) >= 1;
  }

  lemma CommitKeepsStill(t: Table, r: RelayId, now: Time, due: set<EventId>, tried: seq<EventId>, t': Table)
    requires Still(t, now, due, tried) && r in t.batches && BatchOk(t, t.batches[r]) && t.batches[r].todo == []
    requires forall i :: i in t.rows && t.rows[i].status == Pending ==> t.rows[i].publishedAt == None
    requires t'.rows == t.rows + t.batches[r].done && t'.batches == t.batches - {r}
    ensures Still(t', now, due, tried)
  {
    var b := t.batches[r];
    assert BatchStill(b, now, due, tried);
    forall i | i in b.done ensures i in t'.rows && !DueRow(t'.rows[i], now) {
      assert Locks(b, i);
      DoneIsNotDue(t, b, i);
    }
    forall i | i in tried && i in t'.rows && DueRow(t'.rows[i], now) ensures Locked(t', i) {
      assert i !in b.done && Locked(t, i);
      var q :| q in t.batches && Locks(t.batches[q], i);
      assert q in t'.batches && Locks(t'.batches[q], i);
    }
  }

  lemma StepKeepsStill(t: Table, step: Step, now: Time, due: set<EventId>, tried: seq<EventId>, t': Table)
    requires Inv(t) && Still(t, now, due, tried) && Next(t, step, t') && !step.Crash? && (step.Lock? ==> step.now == now)
    ensures Still(t', now, due, tried + TriedBy(t, Relay(step)))
  {
    match step
    case Lock(r, _, size, ids) =>
      LockKeepsStill(t, r, now, size, ids, due, tried, t');
      assert tried + [] == tried;
    case Attempt(r, at, outcome) =>
      var b := t.batches[r];
      AttemptKeepsStill(t, r, at, outcome, AfterAttempt(t.rows[b.todo[0]], b.now, outcome), now, due, tried, t');
    case Commit(r) =>
      assert forall i :: i in t.rows ==> RowOk(t.rows[i], t.tries[i], i in t.accepted);
      CommitKeepsStill(t, r, now, due, tried, t');
      assert tried + [] == tried;
  }

  lemma {:induction false} StandsStill(tables: seq<Table>, actions: seq<Action>, j: nat, k: nat, now: Time)
    requires IsRun(tables, actions) && j <= k <= |actions| && Stands(actions, j, k, now) && tables[j].batches == map[]
    ensures Still(tables[k], now, DueRows(tables[j].rows, now), TriedIds(tables, actions, j, k))
  {
    if k > j {
      StandsStill(tables, actions, j, k - 1, now);
      RunInv(tables, actions, k - 1);
      assert ActAt(tables, actions, k - 1);
      StepKeepsStill(tables[k - 1], actions[k - 1].step, now, DueRows(tables[j].rows, now), TriedIds(tables, actions, j, k - 1), tables[k]);
    }
  }

  /** However many relays interleave, while the clock stands, nobody writes and no
      relay crashes, no row is attempted twice and only due rows are; a due row that
      was not attempted is due yet; so once nothing is due or locked, the attempted
      rows are exactly those that were due. */
  lemma RelaysShareDueRows(tables: seq<Table>, actions: seq<Action>, j: nat, k: nat, now: Time)
    requires IsRun(tables, actions) && j <= k <= |actions| && Stands(actions, j, k, now) && tables[j].batches == map[]
    ensures var tried, due := TriedIds(tables, actions, j, k), DueRows(tables[j].rows, now);
      && NoDup(tried)
      && Elements(tried) <= due
      && due - Elements(tried) <= DueRows(tables[k].rows, now)
      && (DueRows(tables[k].rows, now) == {} ==> Elements(tried) == due)
  {
    StandsStill(tables, actions, j, k, now);
    var tried, due := TriedIds(tables, actions, j, k), DueRows(tables[j].rows, now);
    var rest := DueRows(tables[k].rows, now);
    assert Elements(tried) <= due && due - Elements(tried) <= rest;
    assert forall i :: i in due && i !in Elements(tried) ==> i in rest;
  }
}
