/** One outbox table and the relays that drain it.

    Writers append pending rows. A relay locks a batch of due rows, publishes
    them one at a time, and then commits its row updates or crashes and loses
    them; several relays work on the same table at once and skip each other's
    locked rows. The labelled steps below interleave freely. */
module Outbox {
  import opened Basics
  import opened Domain

  type RelayId = nat

  datatype Status = Pending | Published

  datatype Row = Row(
    event: Event,
    status: Status,
    attempts: nat,
    availableAt: Time,
    occurredAt: Time,
    publishedAt: Option<Time>,
    lastError: Option<string>)

  /** What one call of the publisher can do. `Unconfirmed` is the case where the
      broker stored the message but the confirmation was lost, so the relay sees
      an error although a copy is in the queue. */
  datatype Outcome = Confirmed(at: Time) | Refused(error: string) | Unconfirmed(error: string)

  const MAX_ERROR := 2000

  /** Seconds to wait after attempt number `attempts` failed. */
  function Delay(attempts: nat): nat {
    Min(60, Pow2(Min(attempts, 6)))
  }

  function NewRow(event: Event, occurredAt: Time, availableAt: Time): Row {
    Row(event, Pending, 0, availableAt, occurredAt, None, None)
  }

  function AfterAttempt(row: Row, now: Time, outcome: Outcome): Row {
    match outcome
    case Confirmed(at) =>
      row.(attempts := row.attempts + 1, status := Published, publishedAt := Some(at), lastError := None)
    case Refused(error) =>
      AfterError(row, now, error)
    case Unconfirmed(error) =>
      AfterError(row, now, error)
  }

  function AfterError(row: Row, now: Time, error: string): Row {
    var attempts := row.attempts + 1;
    row.(attempts := attempts,
         lastError := Some(error[..Min(|error|, MAX_ERROR)]),
         availableAt := now + Seconds(Delay(attempts)))
  }

  /** A relay's open transaction: the clock reading it began with, the locked rows
      it has still to publish, and the row updates it has made but not committed.
      `tried` is history: the attempts behind the latter. */
  datatype Batch = Batch(now: Time, todo: seq<EventId>, done: map<EventId, Row>, tried: map<EventId, Try>)

  /** An attempt: the clock reading its pass began with, which the backoff counts
      from, the instant of the publish itself, and what that did. */
  datatype Try = Try(reading: Time, at: Time, outcome: Outcome)

  /** `tries` and `accepted` are history: the committed attempts of each row, and
      the ids the broker has ever confirmed. `clock` is the latest instant at which
      a relay read the clock or published. */
  datatype Table = Table(
    rows: map<EventId, Row>,
    batches: map<RelayId, Batch>,
    tries: map<EventId, seq<Try>>,
    accepted: set<EventId>,
    clock: Time)

  function EmptyTable(start: Time): Table {
    Table(map[], map[], map[], {}, start)
  }

  function Append(t: Table, id: EventId, event: Event, occurredAt: Time, availableAt: Time): Table {
    t.(rows := t.rows[id := NewRow(event, occurredAt, availableAt)], tries := t.tries[id := []])
  }

  ghost predicate Locks(b: Batch, id: EventId) {
    id in b.todo || id in b.done
  }

  ghost predicate Locked(t: Table, id: EventId) {
    exists r :: r in t.batches && Locks(t.batches[r], id)
  }

  predicate DueRow(row: Row, now: Time) {
    row.status == Pending && row.availableAt <= now
  }

  /** The rows a relay may take at `now`. */
  ghost function Due(t: Table, now: Time): set<EventId> {
    set i | i in t.rows && DueRow(t.rows[i], now) && !Locked(t, i)
  }

  /** `ids` answers the relay's query: the `size` oldest rows among `due`, oldest
      first, with no promise about the order of rows of equal age. */
  ghost predicate IsBatch(rows: map<EventId, Row>, due: set<EventId>, size: nat, ids: seq<EventId>)
    requires due <= rows.Keys
  {
    && NoDup(ids)
    && Elements(ids) <= due
    && |ids| == Min(size, |due|)
    && (forall i, j :: 0 <= i < j < |ids| ==> rows[ids[i]].occurredAt <= rows[ids[j]].occurredAt)
    && (forall i, d :: 0 <= i < |ids| && d in due && d !in ids ==> rows[ids[i]].occurredAt <= rows[d].occurredAt)
  }

  datatype Step =
    | Lock(relay: RelayId, now: Time, size: nat, ids: seq<EventId>)
    | Attempt(relay: RelayId, at: Time, outcome: Outcome)
    | Commit(relay: RelayId)
    | Crash(relay: RelayId)

  function LockRows(t: Table, r: RelayId, now: Time, ids: seq<EventId>): Table {
    t.(batches := t.batches[r := Batch(now, ids, map[], map[])], clock := now)
  }

  /** The batch after its next row, now `row`, was attempted at `at`. */
  function Tried(b: Batch, at: Time, outcome: Outcome, row: Row): Batch
    requires b.todo != []
  {
    Batch(b.now, b.todo[1..], b.done[b.todo[0] := row], b.tried[b.todo[0] := Try(b.now, at, outcome)])
  }

  function AttemptNext(t: Table, r: RelayId, at: Time, outcome: Outcome): Table
    requires r in t.batches && t.batches[r].todo != [] && t.batches[r].todo[0] in t.rows
  {
    var b := t.batches[r];
    var id := b.todo[0];
    t.(batches := t.batches[r := Tried(b, at, outcome, AfterAttempt(t.rows[id], b.now, outcome))],
       accepted := if outcome.Refused? then t.accepted else t.accepted + {id},
       clock := at)
  }

  function CommitRows(t: Table, r: RelayId): Table
    requires r in t.batches
  {
    var b := t.batches[r];
    Table(t.rows + b.done,
          t.batches - {r},
          map i | i in t.tries :: if i in b.tried then t.tries[i] + [b.tried[i]] else t.tries[i],
          t.accepted,
          t.clock)
  }

  function DropBatch(t: Table, r: RelayId): Table {
    t.(batches := t.batches - {r})
  }

  /** One step of one relay. */
  ghost predicate Next(t: Table, step: Step, t': Table) {
    match step
    case Lock(r, now, size, ids) =>
      && r !in t.batches
      && t.clock <= now
      && IsBatch(t.rows, Due(t, now), size, ids)
      && t' == LockRows(t, r, now, ids)
    case Attempt(r, at, outcome) =>
      && r in t.batches
      && t.clock <= at
      && (outcome.Confirmed? ==> at <= outcome.at)
      && t.batches[r].todo != []
      && t.batches[r].todo[0] in t.rows
      && t' == AttemptNext(t, r, at, outcome)
    case Commit(r) =>
      && r in t.batches
      && t.batches[r].todo == []
      && t' == CommitRows(t, r)
    case Crash(r) =>
      && r in t.batches
      && t' == DropBatch(t, r)
  }

  /** The row whose event reaches the broker in this step, if any. */
  ghost function Sent(t: Table, step: Step): Option<EventId> {
    match step
    case Attempt(r, _, outcome) =>
      if !outcome.Refused? && r in t.batches && t.batches[r].todo != [] then Some(t.batches[r].todo[0]) else None
    case _ => None
  }

  // ---------------------------------------------------------------- invariant

  /** A publish comes no earlier than the reading of its pass, and its confirmation no
      earlier than the publish. */
  ghost predicate InOrder(x: Try) {
    x.reading <= x.at && (x.outcome.Confirmed? ==> x.at <= x.outcome.at)
  }

  /** The readings of consecutive committed attempts are at least the backoff delay
      apart. */
  ghost predicate Spaced(tries: seq<Try>) {
    && (forall k :: 0 < k < |tries| ==> tries[k].reading >= tries[k - 1].reading + Seconds(Delay(k)))
    && (forall k :: 0 <= k < |tries| ==> InOrder(tries[k]))
  }

  /** The row tells how attempt number `n`, its last, ended. */
  ghost predicate Tells(row: Row, x: Try, n: nat) {
    && (row.status == Published <==> x.outcome.Confirmed?)
    && (x.outcome.Confirmed? ==> row.publishedAt == Some(x.outcome.at) && row.lastError == None)
    && (!x.outcome.Confirmed? ==>
          && row.publishedAt == None
          && row.availableAt == x.reading + Seconds(Delay(n))
          && row.lastError == Some(x.outcome.error[..Min(2000, |x.outcome.error|)]))
  }

  /** A row was attempted until a publish was confirmed. */
  ghost predicate RowOk(row: Row, tries: seq<Try>, accepted: bool) {
    && row.attempts == |tries|
    && Spaced(tries)
    && (row.status == Published ==> accepted)
    && (tries == [] ==> row.status == Pending && row.publishedAt == None && row.lastError == None)
    && (tries != [] ==> Tells(row, tries[|tries| - 1], |tries|))
    && (forall k :: 0 <= k < |tries| - 1 ==> !tries[k].outcome.Confirmed?)
  }

  /** `row'` is what the attempt `x` leaves of `row`. */
  ghost predicate Attempted(row: Row, row': Row, x: Try, accepted: bool) {
    && row'.event == row.event
    && row'.occurredAt == row.occurredAt
    && row'.attempts == row.attempts + 1
    && (row'.status == Published ==> accepted)
    && (row.status == Pending && row.publishedAt == None ==> Tells(row', x, row'.attempts))
  }

  ghost predicate BatchOk(t: Table, b: Batch) {
    && NoDup(b.todo)
    && b.now <= t.clock
    && b.tried.Keys == b.done.Keys
    && (forall i :: i in b.tried ==> b.tried[i].reading == b.now && InOrder(b.tried[i]))
    && (forall i :: i in b.todo ==> i !in b.done)
    && (forall i :: Locks(b, i) ==> i in t.rows && DueRow(t.rows[i], b.now))
    && (forall i :: i in b.done ==> i in t.rows && i in b.tried && Attempted(t.rows[i], b.done[i], b.tried[i], i in t.accepted))
  }

  /** No row is locked by two relays. */
  ghost predicate Disjoint(t: Table) {
    forall r, q, i :: r in t.batches && q in t.batches && Locks(t.batches[r], i) && Locks(t.batches[q], i) ==> r == q
  }

  ghost predicate RowsOk(t: Table) {
    && t.tries.Keys == t.rows.Keys
    && t.accepted <= t.rows.Keys
    && (forall i :: i in t.rows ==> RowOk(t.rows[i], t.tries[i], i in t.accepted))
  }

  ghost predicate BatchesOk(t: Table) {
    forall r :: r in t.batches ==> BatchOk(t, t.batches[r])
  }

  ghost predicate Inv(t: Table) {
    RowsOk(t) && BatchesOk(t) && Disjoint(t)
  }

  /** What no step and no append may undo: rows stay, events and dates stay, only an
      attempt changes a row, a published row is final, confirmations and attempts are
      only added. */
  ghost predicate RowsEvolve(t: Table, t': Table) {
    && t.rows.Keys <= t'.rows.Keys
    && (forall i :: i in t.rows ==> t'.rows[i].event == t.rows[i].event && t'.rows[i].occurredAt == t.rows[i].occurredAt)
    && (forall i :: i in t.rows && t.rows[i].status == Published ==> t'.rows[i] == t.rows[i])
    && (forall i :: i in t.rows && t'.rows[i].attempts == 0 ==> t'.rows[i] == t.rows[i])
  }

  ghost predicate Evolves(t: Table, t': Table) {
    && RowsEvolve(t, t')
    && t.accepted <= t'.accepted
    && (forall i :: i in t.tries ==> i in t'.tries && t.tries[i] <= t'.tries[i])
  }

  lemma EvolvesTransitive(t0: Table, t1: Table, t2: Table)
    requires Evolves(t0, t1) && Evolves(t1, t2)
    ensures Evolves(t0, t2)
  {
  }

  /** A batch stays good while the rows it locks keep their contents. */
  lemma BatchFrame(t: Table, t': Table, b: Batch)
    requires BatchOk(t, b)
    requires t.accepted <= t'.accepted && t.clock <= t'.clock
    requires forall i :: Locks(b, i) ==> i in t'.rows && t'.rows[i] == t.rows[i]
    ensures BatchOk(t', b)
  {
    forall i | i in b.done ensures i in t'.rows && Attempted(t'.rows[i], b.done[i], b.tried[i], i in t'.accepted) {
      assert Locks(b, i);
    }
  }

  lemma AppendKeepsInv(t: Table, id: EventId, event: Event, occurredAt: Time, availableAt: Time)
    requires Inv(t) && id !in t.rows
    ensures Inv(Append(t, id, event, occurredAt, availableAt))
  {
    var t' := Append(t, id, event, occurredAt, availableAt);
    assert RowsOk(t');
    forall r | r in t'.batches ensures BatchOk(t', t'.batches[r]) {
      BatchFrame(t, t', t.batches[r]);
    }
  }

  lemma BatchIsDue(t: Table, now: Time, size: nat, ids: seq<EventId>)
    requires IsBatch(t.rows, Due(t, now), size, ids)
    ensures forall i :: i in ids ==> i in t.rows && DueRow(t.rows[i], now) && !Locked(t, i)
  {
    forall i | i in ids ensures i in Due(t, now) {
      assert i in Elements(ids);
    }
  }

  lemma LockKeepsBatches(t: Table, r: RelayId, now: Time, ids: seq<EventId>, t': Table)
    requires BatchesOk(t) && t.clock <= now && NoDup(ids) && t' == LockRows(t, r, now, ids)
    requires forall i :: i in ids ==> i in t.rows && DueRow(t.rows[i], now)
    ensures BatchesOk(t')
  {
    forall q | q in t'.batches ensures BatchOk(t', t'.batches[q]) {
      if q != r {
        BatchFrame(t, t', t.batches[q]);
      }
    }
  }

  lemma LockKeepsDisjoint(t: Table, r: RelayId, now: Time, ids: seq<EventId>, t': Table)
    requires Disjoint(t) && t' == LockRows(t, r, now, ids) && r !in t.batches
    requires forall i :: i in ids ==> !Locked(t, i)
    ensures Disjoint(t')
  {
    forall p, q, i | p in t'.batches && q in t'.batches && Locks(t'.batches[p], i) && Locks(t'.batches[q], i)
      ensures p == q
    {
      assert forall k :: k in t.batches && Locks(t.batches[k], i) ==> Locked(t, i);
    }
  }

  lemma LockKeepsInv(t: Table, r: RelayId, now: Time, size: nat, ids: seq<EventId>)
    requires Inv(t) && r !in t.batches && t.clock <= now && IsBatch(t.rows, Due(t, now), size, ids)
    ensures Inv(LockRows(t, r, now, ids))
  {
    var t' := LockRows(t, r, now, ids);
    BatchIsDue(t, now, size, ids);
    LockKeepsBatches(t, r, now, ids, t');
    LockKeepsDisjoint(t, r, now, ids, t');
  }

  lemma AttemptKeepsBatch(t: Table, t': Table, b: Batch, at: Time, outcome: Outcome)
    requires BatchOk(t, b) && b.todo != [] && b.todo[0] in t.rows && t.clock <= at
    requires outcome.Confirmed? ==> at <= outcome.at
    requires t'.rows == t.rows && t'.clock == at
    requires t'.accepted == if outcome.Refused? then t.accepted else t.accepted + {b.todo[0]}
    ensures BatchOk(t', Tried(b, at, outcome, AfterAttempt(t.rows[b.todo[0]], b.now, outcome)))
  {
    var id := b.todo[0];
    var b' := Tried(b, at, outcome, AfterAttempt(t.rows[id], b.now, outcome));
    assert Locks(b, id);
    forall i | Locks(b', i) ensures i in t'.rows && DueRow(t'.rows[i], b'.now) {
      assert Locks(b, i);
    }
  }

  lemma AttemptKeepsDisjoint(t: Table, r: RelayId, at: Time, outcome: Outcome, row: Row, t': Table)
    requires Disjoint(t) && r in t.batches && t.batches[r].todo != []
    requires t'.batches == t.batches[r := Tried(t.batches[r], at, outcome, row)]
    ensures Disjoint(t')
  {
    forall p, q, i | p in t'.batches && q in t'.batches && Locks(t'.batches[p], i) && Locks(t'.batches[q], i)
      ensures p == q
    {
      assert Locks(t.batches[p], i) && Locks(t.batches[q], i);
    }
  }

  lemma AttemptKeepsInv(t: Table, r: RelayId, at: Time, outcome: Outcome)
    requires Inv(t) && r in t.batches && t.batches[r].todo != [] && t.batches[r].todo[0] in t.rows && t.clock <= at
    requires outcome.Confirmed? ==> at <= outcome.at
    ensures Inv(AttemptNext(t, r, at, outcome))
  {
    var t' := AttemptNext(t, r, at, outcome);
    var b := t.batches[r];
    assert RowsOk(t');
    forall q | q in t'.batches ensures BatchOk(t', t'.batches[q]) {
      if q != r {
        BatchFrame(t, t', t.batches[q]);
      } else {
        AttemptKeepsBatch(t, t', b, at, outcome);
      }
    }
    AttemptKeepsDisjoint(t, r, at, outcome, AfterAttempt(t.rows[b.todo[0]], b.now, outcome), t');
  }

  lemma TryKeepsRow(row: Row, tries: seq<Try>, row': Row, x: Try, accepted: bool)
    requires RowOk(row, tries, accepted) && DueRow(row, x.reading) && Attempted(row, row', x, accepted)
    requires InOrder(x)
    ensures RowOk(row', tries + [x], accepted)
  {
  }

  lemma CommitKeys(t: Table, b: Batch)
    requires BatchOk(t, b)
    ensures (t.rows + b.done).Keys == t.rows.Keys
  {
  }

  lemma CommitKeepsRow(t: Table, b: Batch, i: EventId)
    requires RowsOk(t) && BatchOk(t, b) && i in t.rows
    ensures i in b.done ==> i in b.tried && RowOk(b.done[i], t.tries[i] + [b.tried[i]], i in t.accepted)
    ensures i !in b.done ==> RowOk(t.rows[i], t.tries[i], i in t.accepted)
  {
    if i in b.done {
      assert Locks(b, i);
      TryKeepsRow(t.rows[i], t.tries[i], b.done[i], b.tried[i], i in t.accepted);
    }
  }

  lemma CommittedRow(t: Table, r: RelayId, t': Table, i: EventId)
    requires r in t.batches && BatchOk(t, t.batches[r]) && t' == CommitRows(t, r) && i in t.rows && i in t.tries
    ensures var b := t.batches[r];
      && i in t'.rows
      && i in t'.tries
      && t'.rows[i] == (if i in b.done then b.done[i] else t.rows[i])
      && t'.tries[i] == (if i in b.done && i in b.tried then t.tries[i] + [b.tried[i]] else t.tries[i])
  {
  }

  lemma CommittedRowOk(t: Table, r: RelayId, t': Table, i: EventId)
    requires RowsOk(t) && r in t.batches && BatchOk(t, t.batches[r]) && t' == CommitRows(t, r) && i in t.rows
    ensures i in t'.rows && i in t'.tries && RowOk(t'.rows[i], t'.tries[i], i in t.accepted)
  {
    CommittedRow(t, r, t', i);
    CommitKeepsRow(t, t.batches[r], i);
  }

  lemma CommitKeepsKeys(t: Table, r: RelayId, t': Table)
    requires RowsOk(t) && r in t.batches && BatchOk(t, t.batches[r]) && t' == CommitRows(t, r)
    ensures t'.rows.Keys == t.rows.Keys && t'.tries.Keys == t.rows.Keys && t'.accepted == t.accepted
  {
    CommitKeys(t, t.batches[r]);
  }

  lemma CommitKeepsRows(t: Table, r: RelayId, t': Table)
    requires RowsOk(t) && r in t.batches && BatchOk(t, t.batches[r]) && t' == CommitRows(t, r)
    ensures RowsOk(t')
  {
    CommitKeepsKeys(t, r, t');
    forall i | i in t.rows ensures i in t'.rows && i in t'.tries && RowOk(t'.rows[i], t'.tries[i], i in t.accepted) {
      CommittedRowOk(t, r, t', i);
    }
  }

  lemma CommitKeepsInv(t: Table, r: RelayId)
    requires Inv(t) && r in t.batches
    ensures Inv(CommitRows(t, r))
  {
    var t' := CommitRows(t, r);
    CommitKeepsRows(t, r, t');
    var b := t.batches[r];
    forall q | q in t'.batches ensures BatchOk(t', t'.batches[q]) {
      forall i | Locks(t.batches[q], i) ensures i in t'.rows && t'.rows[i] == t.rows[i] {
        assert i in b.done ==> Locks(b, i);
      }
      BatchFrame(t, t', t.batches[q]);
    }
  }

  lemma DropKeepsInv(t: Table, r: RelayId)
    requires Inv(t)
    ensures Inv(DropBatch(t, r))
  {
    var t' := DropBatch(t, r);
    forall q | q in t'.batches ensures BatchOk(t', t'.batches[q]) {
      BatchFrame(t, t', t.batches[q]);
    }
  }

  lemma StepKeepsInv(t: Table, step: Step, t': Table)
    requires Inv(t) && Next(t, step, t')
    ensures Inv(t')
  {
    match step
    case Lock(r, now, size, ids) => LockKeepsInv(t, r, now, size, ids);
    case Attempt(r, at, outcome) => AttemptKeepsInv(t, r, at, outcome);
    case Commit(r) => CommitKeepsInv(t, r);
    case Crash(r) => DropKeepsInv(t, r);
  }

  lemma CommitEvolves(t: Table, b: Batch)
    requires BatchOk(t, b)
    ensures RowsEvolve(t, t.(rows := t.rows + b.done))
  {
    assert forall i :: i in b.done ==> Locks(b, i);
  }

  lemma StepEvolves(t: Table, step: Step, t': Table)
    requires Inv(t) && Next(t, step, t')
    ensures Evolves(t, t')
    ensures t'.rows.Keys == t.rows.Keys
  {
    if step.Commit? {
      var b := t.batches[step.relay];
      assert BatchOk(t, b);
      CommitKeys(t, b);
      CommitEvolves(t, b);
    }
  }

  // --------------------------------------------------------------------- runs

  datatype Action =
    | Write(id: EventId, event: Event, occurredAt: Time, availableAt: Time)
    | Relay(step: Step)

  ghost predicate Act(t: Table, a: Action, t': Table) {
    match a
    case Write(id, event, occurredAt, availableAt) =>
      id !in t.rows && t' == Append(t, id, event, occurredAt, availableAt)
    case Relay(step) => Next(t, step, t')
  }

  /** A run of one table: any interleaving of writers and relays from empty. */
  ghost predicate IsRun(tables: seq<Table>, actions: seq<Action>) {
    && |tables| == |actions| + 1
    && tables[0] == EmptyTable(tables[0].clock)
    && forall k :: 0 <= k < |actions| ==> ActAt(tables, actions, k)
  }

  ghost predicate ActAt(tables: seq<Table>, actions: seq<Action>, k: int)
    requires |tables| == |actions| + 1 && 0 <= k < |actions|
  {
    Act(tables[k], actions[k], tables[k + 1])
  }

  lemma AppendEvolves(t: Table, id: EventId, event: Event, occurredAt: Time, availableAt: Time, t': Table)
    requires id !in t.rows && t.tries.Keys == t.rows.Keys && t' == Append(t, id, event, occurredAt, availableAt)
    ensures Evolves(t, t')
  {
  }

  lemma ActKeeps(t: Table, a: Action, t': Table)
    requires Inv(t) && Act(t, a, t')
    ensures Inv(t') && Evolves(t, t')
  {
    match a
    case Write(id, event, occurredAt, availableAt) =>
      AppendKeepsInv(t, id, event, occurredAt, availableAt);
      AppendEvolves(t, id, event, occurredAt, availableAt, t');
    case Relay(step) =>
      StepKeepsInv(t, step, t');
      StepEvolves(t, step, t');
  }

  lemma {:induction false} RunInv(tables: seq<Table>, actions: seq<Action>, k: nat)
    requires IsRun(tables, actions) && k < |tables|
    ensures Inv(tables[k])
  {
    if k > 0 {
      RunInv(tables, actions, k - 1);
      assert ActAt(tables, actions, k - 1);
      ActKeeps(tables[k - 1], actions[k - 1], tables[k]);
    }
  }

  lemma {:induction false} RunEvolves(tables: seq<Table>, actions: seq<Action>, j: nat, k: nat)
    requires IsRun(tables, actions) && j <= k < |tables|
    ensures Evolves(tables[j], tables[k])
  {
    if j < k {
      RunEvolves(tables, actions, j, k - 1);
      RunInv(tables, actions, k - 1);
      assert ActAt(tables, actions, k - 1);
      ActKeeps(tables[k - 1], actions[k - 1], tables[k]);
      EvolvesTransitive(tables[j], tables[k - 1], tables[k]);
    }
  }

  /** Relay safety, in every run with any number of relays and crashes: at every
      moment no row is locked twice; a published row was confirmed by the broker
      and is final from then on; whatever the broker holds is the event of a
      committed row; no attempt and no row is ever lost. */
  lemma RelaySafety(tables: seq<Table>, actions: seq<Action>, j: nat, k: nat)
    requires IsRun(tables, actions) && j <= k < |tables|
    ensures Disjoint(tables[k])
    ensures forall i :: i in tables[j].rows && tables[j].rows[i].status == Published ==>
              i in tables[j].accepted && i in tables[k].rows && tables[k].rows[i] == tables[j].rows[i]
    ensures tables[k].accepted <= tables[k].rows.Keys
    ensures forall i :: i in tables[j].rows ==> i in tables[k].rows && tables[k].rows[i].event == tables[j].rows[i].event
  {
    RunInv(tables, actions, j);
    RunInv(tables, actions, k);
    RunEvolves(tables, actions, j, k);
    assert forall i :: i in tables[j].rows ==> RowOk(tables[j].rows[i], tables[j].tries[i], i in tables[j].accepted);
  }

  // ------------------------------------------------------------------ backoff

  /** The sum, in seconds, of the delays before a row's n-th attempt. */
  function Earliest(n: nat): int
    requires n >= 1
  {
    if n <= 6 then Pow2(n) - 2 else 62 + 60 * (n - 6)
  }

  lemma EarliestStep(n: nat)
    requires n >= 1
    ensures Earliest(n + 1) == Earliest(n) + Delay(n)
  {
    assert Pow2(6) == 64 by {
      assert Pow2(3) == 8;
    }
    if n >= 6 {
      assert Delay(n) == 60;
    } else {
      assert Pow2(n) <= 32 by {
        assert Pow2(2) == 4 && Pow2(3) == 8 && Pow2(4) == 16 && Pow2(5) == 32;
      }
    }
  }

  lemma {:induction false} SpacedDistance(tries: seq<Try>, n: nat)
    requires Spaced(tries) && 1 <= n <= |tries|
    ensures tries[n - 1].reading - tries[0].reading >= Seconds(Earliest(n))
  {
    if n == 1 {
      assert Pow2(1) == 2;
    } else {
      SpacedDistance(tries, n - 1);
      EarliestStep(n - 1);
      assert tries[n - 1].reading >= tries[n - 2].reading + Seconds(Delay(n - 1));
    }
  }

  /** How long after the clock reading of its pass an attempt was made. */
  function Lag(x: Try): Time {
    x.at - x.reading
  }

  /** Backoff, in every run: the pass of a row's n-th committed attempt begins at
      least 2^n - 2 seconds (n <= 6) or 62 + 60 (n - 6) seconds after the pass of its
      first; so the n-th attempt itself comes at least that long, less the lag of the
      first attempt within its pass, after the first attempt. */
  lemma Backoff(tables: seq<Table>, actions: seq<Action>, k: nat, i: EventId, n: nat)
    requires IsRun(tables, actions) && k < |tables| && i in tables[k].rows
    requires i in tables[k].tries && 1 <= n <= |tables[k].tries[i]|
    ensures |tables[k].tries[i]| == tables[k].rows[i].attempts
    ensures var first, nth := tables[k].tries[i][0], tables[k].tries[i][n - 1];
      && 0 <= Lag(first)
      && (n <= 6 ==> nth.reading - first.reading >= Seconds(Pow2(n) - 2))
      && (n >= 6 ==> nth.reading - first.reading >= Seconds(62 + 60 * (n - 6)))
      && nth.at - first.at >= Seconds(Earliest(n)) - Lag(first)
  {
    RunInv(tables, actions, k);
    assert RowOk(tables[k].rows[i], tables[k].tries[i], i in tables[k].accepted);
    SpacedDistance(tables[k].tries[i], n);
    assert Pow2(3) == 8;
    assert Pow2(6) == 64;
  }

  // ----------------------------------------------------------------- progress

  /** The rows after one undisturbed pass over the batch `ids`. */
  function PassRows(rows: map<EventId, Row>, now: Time, ids: seq<EventId>, outcomes: map<EventId, Outcome>): map<EventId, Row>
    requires forall i :: i in ids ==> i in outcomes
  {
    map i | i in rows :: if i in ids then AfterAttempt(rows[i], now, outcomes[i]) else rows[i]
  }

  ghost function DueRows(rows: map<EventId, Row>, now: Time): set<EventId> {
    set i | i in rows && DueRow(rows[i], now)
  }

  datatype Pass = Pass(ids: seq<EventId>, outcomes: map<EventId, Outcome>)

  ghost predicate IsPass(rows: map<EventId, Row>, now: Time, size: nat, p: Pass, rows': map<EventId, Row>) {
    && IsBatch(rows, DueRows(rows, now), size, p.ids)
    && (forall i :: i in p.ids ==> i in p.outcomes)
    && rows' == PassRows(rows, now, p.ids, p.outcomes)
  }

  /** Successive passes of one relay while the clock stands and nobody writes. */
  ghost predicate ArePasses(states: seq<map<EventId, Row>>, passes: seq<Pass>, now: Time, size: nat) {
    && |states| == |passes| + 1
    && forall k :: 0 <= k < |passes| ==> IsPass(states[k], now, size, passes[k], states[k + 1])
  }

  function Attempts(passes: seq<Pass>): seq<EventId> {
    if passes == [] then [] else Attempts(passes[..|passes| - 1]) + passes[|passes| - 1].ids
  }

  lemma PassLeavesDue(rows: map<EventId, Row>, now: Time, size: nat, p: Pass, rows': map<EventId, Row>)
    requires IsPass(rows, now, size, p, rows')
    ensures DueRows(rows', now) == DueRows(rows, now) - Elements(p.ids)
  {
    forall i | i in p.ids && i in rows ensures !DueRow(rows'[i], now) {
      assert Delay(rows[i].attempts + 1) >= 1;
    }
  }

  lemma PassShrinks(rows: map<EventId, Row>, now: Time, size: nat, p: Pass)
    requires IsBatch(rows, DueRows(rows, now), size, p.ids)
    ensures |DueRows(rows, now) - Elements(p.ids)| == Max(0, |DueRows(rows, now)| - size)
  {
    NoDupCard(p.ids);
    var due := DueRows(rows, now);
    assert due == (due - Elements(p.ids)) + Elements(p.ids);
    assert (due - Elements(p.ids)) !! Elements(p.ids);
  }

  lemma PassExtends(tried: seq<EventId>, ids: seq<EventId>, due: set<EventId>)
    requires NoDup(tried) && NoDup(ids) && Elements(ids) <= due && Elements(tried) !! due
    ensures NoDup(tried + ids)
    ensures Elements(tried + ids) == Elements(tried) + Elements(ids)
    ensures Elements(tried + ids) !! due - Elements(ids)
    ensures Elements(tried + ids) + (due - Elements(ids)) == Elements(tried) + due
  {
    assert forall i :: i in ids ==> i in Elements(ids);
    assert forall i :: i in tried ==> i in Elements(tried);
    var all := tried + ids;
    forall i, j | 0 <= i < j < |all| ensures all[i] != all[j] {
      assert i < |tried| ==> all[i] in tried;
      assert j >= |tried| ==> all[j] in ids;
    }
  }

  /** `tried` and what is still due split what was due at first, and every pass so
      far took a full batch or all there was. */
  ghost predicate Covered(tried: seq<EventId>, due0: set<EventId>, due: set<EventId>, room: int) {
    && NoDup(tried)
    && Elements(tried) !! due
    && Elements(tried) + due == due0
    && |due| == Max(0, |due0| - room)
  }

  lemma CoverStep(rows: map<EventId, Row>, now: Time, size: nat, p: Pass, rows': map<EventId, Row>,
                  tried: seq<EventId>, due0: set<EventId>, room: nat)
    requires IsPass(rows, now, size, p, rows')
    requires Covered(tried, due0, DueRows(rows, now), room)
    ensures Covered(tried + p.ids, due0, DueRows(rows', now), room + size)
  {
    PassLeavesDue(rows, now, size, p, rows');
    PassShrinks(rows, now, size, p);
    PassExtends(tried, p.ids, DueRows(rows, now));
  }

  lemma {:induction false} PassesCover(states: seq<map<EventId, Row>>, passes: seq<Pass>, now: Time, size: nat, n: nat)
    requires ArePasses(states, passes, now, size) && n <= |passes|
    ensures Covered(Attempts(passes[..n]), DueRows(states[0], now), DueRows(states[n], now), n * size)
  {
    if n > 0 {
      PassesCover(states, passes, now, size, n - 1);
      CoverStep(states[n - 1], now, size, passes[n - 1], states[n],
                Attempts(passes[..n - 1]), DueRows(states[0], now), (n - 1) * size);
      AttemptsSnoc(passes, n);
    }
  }

  lemma AttemptsSnoc(passes: seq<Pass>, n: nat)
    requires 0 < n <= |passes|
    ensures Attempts(passes[..n]) == Attempts(passes[..n - 1]) + passes[n - 1].ids
  {
    assert passes[..n][..n - 1] == passes[..n - 1];
  }

  // ------------------------------------------------------------ oldest first

  ghost predicate SameAges(rows: map<EventId, Row>, rows': map<EventId, Row>) {
    rows.Keys == rows'.Keys && forall i :: i in rows ==> rows'[i].occurredAt == rows[i].occurredAt
  }

  /** The rows `tried` come oldest first, and none after a row that is still due. */
  ghost predicate OldestFirst(rows: map<EventId, Row>, tried: seq<EventId>, due: set<EventId>) {
    && (forall i :: i in tried ==> i in rows)
    && (forall i, j :: 0 <= i < j < |tried| ==> rows[tried[i]].occurredAt <= rows[tried[j]].occurredAt)
    && (forall i, d :: i in tried && d in due && d in rows ==> rows[i].occurredAt <= rows[d].occurredAt)
  }

  lemma PassKeepsAges(rows: map<EventId, Row>, now: Time, size: nat, p: Pass, rows': map<EventId, Row>)
    requires IsPass(rows, now, size, p, rows')
    ensures SameAges(rows, rows')
  {
  }

  lemma PassTakesOldest(rows: map<EventId, Row>, tried: seq<EventId>, ids: seq<EventId>, due: set<EventId>, size: nat)
    requires OldestFirst(rows, tried, due) && due <= rows.Keys && IsBatch(rows, due, size, ids)
    ensures OldestFirst(rows, tried + ids, due - Elements(ids))
  {
    assert forall i :: i in ids ==> i in Elements(ids);
    var all := tried + ids;
    forall i, j | 0 <= i < j < |all| ensures rows[all[i]].occurredAt <= rows[all[j]].occurredAt {
      assert i < |tried| ==> all[i] in tried;
      assert j >= |tried| ==> all[j] in ids;
    }
    forall i, d | i in all && d in due - Elements(ids) && d in rows ensures rows[i].occurredAt <= rows[d].occurredAt {
      assert i in tried || i in ids;
    }
  }

  lemma BatchFollowsAges(rows0: map<EventId, Row>, rows: map<EventId, Row>, due: set<EventId>, size: nat, ids: seq<EventId>)
    requires SameAges(rows0, rows) && due <= rows.Keys && IsBatch(rows, due, size, ids)
    ensures IsBatch(rows0, due, size, ids)
  {
    assert forall i :: i in ids ==> i in Elements(ids);
  }

  lemma {:induction false} PassesTakeOldest(states: seq<map<EventId, Row>>, passes: seq<Pass>, now: Time, size: nat, n: nat)
    requires ArePasses(states, passes, now, size) && n <= |passes|
    ensures SameAges(states[0], states[n])
    ensures OldestFirst(states[0], Attempts(passes[..n]), DueRows(states[n], now))
  {
    if n > 0 {
      PassesTakeOldest(states, passes, now, size, n - 1);
      var rows, p := states[n - 1], passes[n - 1];
      PassKeepsAges(rows, now, size, p, states[n]);
      PassLeavesDue(rows, now, size, p, states[n]);
      BatchFollowsAges(states[0], rows, DueRows(rows, now), size, p.ids);
      PassTakesOldest(states[0], Attempts(passes[..n - 1]), p.ids, DueRows(rows, now), size);
      AttemptsSnoc(passes, n);
    }
  }

  /** Progress: while the clock stands and nobody writes, any number of passes
      with room for every due row attempts each due row exactly once and nothing
      else, oldest first, whatever each publish did, and leaves nothing due. */
  lemma EveryDueRowOnce(states: seq<map<EventId, Row>>, passes: seq<Pass>, now: Time, size: nat)
    requires ArePasses(states, passes, now, size)
    requires |passes| * size >= |DueRows(states[0], now)|
    ensures NoDup(Attempts(passes))
    ensures Elements(Attempts(passes)) == DueRows(states[0], now)
    ensures DueRows(states[|passes|], now) == {}
    ensures var tried := Attempts(passes); forall i, j :: 0 <= i < j < |tried| ==>
      && tried[i] in states[0]
      && tried[j] in states[0]
      && states[0][tried[i]].occurredAt <= states[0][tried[j]].occurredAt
  {
    PassesCover(states, passes, now, size, |passes|);
    PassesTakeOldest(states, passes, now, size, |passes|);
    assert passes[..|passes|] == passes;
  }

  // ------------------------------------------------- the pass, as it is coded

  /** The rows of a batch whose publish was confirmed. */
  ghost function ConfirmedIds(ids: seq<EventId>, outcomes: map<EventId, Outcome>): set<EventId>
    requires forall i :: i in ids ==> i in outcomes
  {
    set i | i in ids && outcomes[i].Confirmed?
  }

  lemma PassSnoc(rows: map<EventId, Row>, now: Time, ids: seq<EventId>, outcomes: map<EventId, Outcome>, k: nat)
    requires NoDup(ids) && k < |ids| && ids[k] in rows && forall i :: i in ids ==> i in outcomes
    ensures ids[k] in PassRows(rows, now, ids[..k], outcomes)
    ensures PassRows(rows, now, ids[..k], outcomes)[ids[k]] == rows[ids[k]]
    ensures PassRows(rows, now, ids[..k + 1], outcomes)
         == PassRows(rows, now, ids[..k], outcomes)[ids[k] := AfterAttempt(rows[ids[k]], now, outcomes[ids[k]])]
  {
    assert ids[..k + 1] == ids[..k] + [ids[k]];
  }

  lemma ConfirmedSnoc(ids: seq<EventId>, outcomes: map<EventId, Outcome>, k: nat)
    requires NoDup(ids) && k < |ids| && forall i :: i in ids ==> i in outcomes
    ensures |ConfirmedIds(ids[..k + 1], outcomes)| == |ConfirmedIds(ids[..k], outcomes)| + if outcomes[ids[k]].Confirmed? then 1 else 0
  {
    assert ids[..k + 1] == ids[..k] + [ids[k]];
    assert ConfirmedIds(ids[..k + 1], outcomes) ==
           ConfirmedIds(ids[..k], outcomes) + if outcomes[ids[k]].Confirmed? then {ids[k]} else {};
  }

  /** The relay's working copy of the outbox rows of one open transaction. */
  class OutboxRelay {
    var records: map<EventId, Row>

    constructor (records: map<EventId, Row>)
      ensures this.records == records
    {
      this.records := records;
    }

    /** Counts the attempt and records what the publisher did. */
    static method Attempt(record: Row, now: Time, outcome: Outcome) returns (updated: Row, confirmed: bool)
      ensures updated == AfterAttempt(record, now, outcome)
      ensures confirmed <==> outcome.Confirmed?
      ensures updated.event == record.event && updated.occurredAt == record.occurredAt && updated.attempts == record.attempts + 1
      ensures confirmed ==>
        && updated.status == Published
        && updated.publishedAt == Some(outcome.at)
        && updated.lastError == None
        && updated.availableAt == record.availableAt
      ensures !confirmed ==>
        && updated.status == record.status
        && updated.publishedAt == record.publishedAt
        && updated.lastError == Some(outcome.error[..Min(|outcome.error|, 2000)])
        && updated.availableAt == now + Seconds(if updated.attempts < 6 then Pow2(updated.attempts) else 60)
    {
      updated := record.(attempts := record.attempts + 1);
      confirmed := outcome.Confirmed?;
      if confirmed {
        updated := updated.(status := Published, publishedAt := Some(outcome.at), lastError := None);
      } else {
        updated := updated.(lastError := Some(outcome.error[..Min(|outcome.error|, MAX_ERROR)]));
        updated := updated.(availableAt := now + Seconds(Delay(updated.attempts)));
      }
    }

    /** Publishes one batch. `batch` is the answer to the row query and
        `outcomes` what the publisher does with each row. */
    method PublishPending(now: Time, ghost size: nat, batch: seq<EventId>, outcomes: map<EventId, Outcome>)
      returns (published: nat)
      requires IsBatch(records, DueRows(records, now), size, batch)
      requires forall i :: i in batch ==> i in outcomes
      modifies this
      ensures records == PassRows(old(records), now, batch, outcomes)
      ensures records.Keys == old(records).Keys && forall i :: i in records && i !in batch ==> records[i] == old(records)[i]
      ensures forall i :: i in batch ==> i in records && (records[i].status == Published <==> outcomes[i].Confirmed?)
      ensures published == |set i | i in batch && outcomes[i].Confirmed?|
    {
      ghost var before := records;
      assert forall i :: i in batch ==> i in Elements(batch);
      assert NoDup(batch) && forall i :: i in batch ==> i in before;
      published := 0;
      for k := 0 to |batch|
        invariant records == PassRows(before, now, batch[..k], outcomes)
        invariant published == |ConfirmedIds(batch[..k], outcomes)|
      {
        var id := batch[k];
        PassSnoc(before, now, batch, outcomes, k);
        ConfirmedSnoc(batch, outcomes, k);
        var updated, confirmed := Attempt(records[id], now, outcomes[id]);
        records := records[id := updated];
        published := published + if confirmed then 1 else 0;
      }
      assert batch[..|batch|] == batch;
      assert ConfirmedIds(batch, outcomes) == set i | i in batch && outcomes[i].Confirmed?;
    }
  }

  /** A relay that nobody disturbs: lock, attempt each row in turn, commit. */
  ghost predicate IsSolo(tables: seq<Table>, r: RelayId, now: Time, size: nat, p: Pass, ats: seq<Time>) {
    var n := |p.ids|;
    && (forall i :: i in p.ids ==> i in p.outcomes)
    && |tables| == n + 3
    && |ats| == n
    && Next(tables[0], Lock(r, now, size, p.ids), tables[1])
    && (forall k :: 0 <= k < n ==> Next(tables[k + 1], Attempt(r, ats[k], p.outcomes[p.ids[k]]), tables[k + 2]))
    && Next(tables[n + 1], Commit(r), tables[n + 2])
  }

  /** The open batch after `k` undisturbed attempts. */
  ghost predicate SoloBatch(t: Table, b: Batch, now: Time, p: Pass, k: nat)
    requires k <= |p.ids| && forall i :: i in p.ids ==> i in p.outcomes
  {
    && b.now == now
    && b.todo == p.ids[k..]
    && b.done.Keys == Elements(p.ids[..k])
    && forall i :: i in b.done ==> i in t.rows && b.done[i] == AfterAttempt(t.rows[i], now, p.outcomes[i])
  }

  lemma SoloAttempt(t: Table, b: Batch, now: Time, p: Pass, k: nat, at: Time)
    requires k < |p.ids| && (forall i :: i in p.ids ==> i in p.outcomes)
    requires SoloBatch(t, b, now, p, k) && p.ids[k] in t.rows
    ensures SoloBatch(t, Tried(b, at, p.outcomes[p.ids[k]], AfterAttempt(t.rows[p.ids[k]], now, p.outcomes[p.ids[k]])), now, p, k + 1)
  {
    assert p.ids[..k + 1] == p.ids[..k] + [p.ids[k]];
  }

  lemma {:induction false} SoloProgress(tables: seq<Table>, r: RelayId, now: Time, size: nat, p: Pass, ats: seq<Time>, k: nat)
    requires IsSolo(tables, r, now, size, p, ats) && k <= |p.ids|
    requires tables[0].batches == map[]
    ensures tables[k + 1].rows == tables[0].rows
    ensures tables[k + 1].batches.Keys == {r}
    ensures SoloBatch(tables[0], tables[k + 1].batches[r], now, p, k)
  {
    if k > 0 {
      SoloProgress(tables, r, now, size, p, ats, k - 1);
      assert Next(tables[k], Attempt(r, ats[k - 1], p.outcomes[p.ids[k - 1]]), tables[k + 1]);
      SoloAttempt(tables[0], tables[k].batches[r], now, p, k - 1, ats[k - 1]);
    }
  }

  /** Committing the fully attempted batch is the pass. */
  lemma SoloCommit(t: Table, b: Batch, now: Time, p: Pass)
    requires (forall i :: i in p.ids ==> i in p.outcomes) && SoloBatch(t, b, now, p, |p.ids|)
    ensures t.rows + b.done == PassRows(t.rows, now, p.ids, p.outcomes)
  {
    assert p.ids[..|p.ids|] == p.ids;
  }

  /** The coded pass is what the interleaved steps do when one relay works alone. */
  lemma SoloIsPass(tables: seq<Table>, r: RelayId, now: Time, size: nat, p: Pass, ats: seq<Time>)
    requires IsSolo(tables, r, now, size, p, ats)
    requires tables[0].batches == map[]
    ensures IsPass(tables[0].rows, now, size, p, tables[|p.ids| + 2].rows)
    ensures tables[|p.ids| + 2].batches == map[]
  {
    var n := |p.ids|;
    SoloProgress(tables, r, now, size, p, ats, n);
    SoloCommit(tables[0], tables[n + 1].batches[r], now, p);
    assert Due(tables[0], now) == DueRows(tables[0].rows, now);
  }
}
