/** Debits across crashes: the durable store and its recovery pass.

    A governed attempt commits its intent before the call (the first durable
    write) and its outcome after it (the second); each write also replaces the
    saved protection projection by the running governor's. A crash loses the
    governor in memory. Recovery classifies the rows left open and settles each
    one conservatively, charging the saved projection where the debit had been
    deferred.
 */
module CrashRecovery {
  import opened Clock
  import opened Policy
  import opened Ledger
  import opened Retention
  import opened Lane

  datatype Status = Planned | Prepared | Running | Uncertain | Completed | Failed | Canceled | Reconciled | HumanReview

  datatype Row = Row(status: Status, receiptAware: bool, task: Id, preparedAt: Time)

  // The attempt rows and the saved projection. `marks` names the attempt
  // behind each entry of the saved ledger and `debits` counts every debit ever
  // saved.
  datatype Durable = Durable(rows: map<nat, Row>, saved: Persisted, marks: seq<nat>, debits: multiset<nat>)

  const EMPTY := Durable(map[], Project(FRESH), [], multiset{})

  // ----- Recovery -----

  datatype Class = Done | Conservative | NeedsHuman

  function Classify(status: Status): Class {
    match status
    case Completed => Done
    case Failed => Done
    case Reconciled => Done
    case Canceled => Done
    case HumanReview => NeedsHuman
    case _ => Conservative
  }

  predicate Open(row: Row) {
    Classify(row.status).Conservative?
  }

  // An attempt whose debit was deferred to its receipts and never happened.
  predicate Owes(row: Row) {
    row.receiptAware && !row.status.Uncertain?
  }

  function DebitAt(row: Row, now: Time): Time {
    if row.preparedAt == ZERO then now else row.preparedAt
  }

  function CountOf(tasks: map<Id, Task>, task: Id): Task {
    if task in tasks then tasks[task] else Task(0, 0, ZERO)
  }

  // The debit the store itself puts on the saved projection, dated back to the
  // start of the attempt; the task's retries are not touched.
  function ConservativeDebit(saved: Persisted, task: Id, at: Time): Persisted {
    var available := saved.telemetry.available;
    saved.(telemetry := saved.telemetry.(unsafe := true,
                                         available := if available.Some? && available.value > 0 then Some(available.value - 1) else available),
           lastStart := at,
           tasks := saved.tasks[task := CountOf(saved.tasks, task).(attempts := CountOf(saved.tasks, task).attempts + 1, lastTouched := at)],
           rolling := saved.rolling + [Event(at, task)])
  }

  // One reconciliation, in one transaction.
  function Reconcile(d: Durable, id: nat, now: Time): (r: Durable)
    requires id in d.rows
    ensures r.rows.Keys == d.rows.Keys
  {
    var row := d.rows[id];
    if !Open(row) then d
    else
      var settled := d.(rows := d.rows[id := row.(status := Reconciled)]);
      if Owes(row) then
        settled.(saved := ConservativeDebit(d.saved, row.task, DebitAt(row, now)), marks := d.marks + [id], debits := d.debits + multiset{id})
      else settled
  }

  // No attempt of the task is left open.
  predicate SettledFor(rows: map<nat, Row>, task: Id) {
    forall id :: id in rows && rows[id].task == task ==> !Open(rows[id])
  }

  function ReconcileAll(d: Durable, ids: seq<nat>, now: Time): (r: Durable)
    requires forall id :: id in ids ==> id in d.rows
    ensures r.rows.Keys == d.rows.Keys
    decreases |ids|
  {
    if ids == [] then d else ReconcileAll(Reconcile(d, ids[0], now), ids[1..], now)
  }

  // The rows that wait for a human, as the pass meets them.
  function Reviewed(d: Durable, ids: seq<nat>, now: Time): seq<nat>
    requires forall id :: id in ids ==> id in d.rows
    decreases |ids|
  {
    if ids == [] then []
    else (if d.rows[ids[0]].status.HumanReview? then [ids[0]] else []) + Reviewed(Reconcile(d, ids[0], now), ids[1..], now)
  }

  // The debit a row still owes, and the attempt it is for.
  function Debtor(row: Row, id: nat): seq<nat> {
    if Open(row) && Owes(row) then [id] else []
  }

  function Debt(row: Row, now: Time): seq<Event> {
    if Open(row) && Owes(row) then [Event(DebitAt(row, now), row.task)] else []
  }

  // The same over the listed rows.
  function Debtors(rows: map<nat, Row>, ids: seq<nat>): seq<nat>
    requires forall id :: id in ids ==> id in rows
  {
    if ids == [] then [] else Debtor(rows[ids[0]], ids[0]) + Debtors(rows, ids[1..])
  }

  function Debts(rows: map<nat, Row>, ids: seq<nat>, now: Time): seq<Event>
    requires forall id :: id in ids ==> id in rows
  {
    if ids == [] then [] else Debt(rows[ids[0]], now) + Debts(rows, ids[1..], now)
  }

  function OfTask(events: seq<Event>, task: Id): nat {
    if events == [] then 0 else (if events[0].task == task then 1 else 0) + OfTask(events[1..], task)
  }

  predicate Unique(ids: seq<nat>) {
    forall i, j :: 0 <= i < j < |ids| ==> ids[i] != ids[j]
  }

  lemma {:induction false} DebtsElsewhere(rows: map<nat, Row>, rows': map<nat, Row>, ids: seq<nat>, now: Time)
    requires forall id :: id in ids ==> id in rows && id in rows' && rows'[id] == rows[id]
    ensures Debtors(rows', ids) == Debtors(rows, ids) && Debts(rows', ids, now) == Debts(rows, ids, now)
  {
    if ids != [] {
      DebtsElsewhere(rows, rows', ids[1..], now);
    }
  }

  // What a recovery pass makes of a row.
  function Passed(row: Row, listed: bool): Row {
    if listed && Open(row) then row.(status := Reconciled) else row
  }

  // What one reconciliation charges.
  lemma ReconcilingCharges(d: Durable, id: nat, now: Time)
    requires id in d.rows
    ensures var row, r := d.rows[id], Reconcile(d, id, now);
            if Open(row) && Owes(row) then
              && r.marks == d.marks + [id] && r.debits == d.debits + multiset{id}
              && r.saved.rolling == d.saved.rolling + [Event(DebitAt(row, now), row.task)] && r.saved.telemetry.unsafe
              && (forall task :: CountOf(r.saved.tasks, task).attempts == CountOf(d.saved.tasks, task).attempts + (if task == row.task then 1 else 0))
            else r == d.(rows := r.rows)
    ensures var r := Reconcile(d, id, now);
            r.rows.Keys == d.rows.Keys && forall x :: x in d.rows ==> r.rows[x] == Passed(d.rows[x], x == id)
    ensures !Open(Passed(d.rows[id], true))
  {
  }

  lemma PassedOnce(row: Row, first: bool, second: bool)
    ensures Passed(Passed(row, first), second) == Passed(row, first || second)
  {
  }

  lemma {:induction false} RowsPassed(d: Durable, ids: seq<nat>, now: Time)
    requires (forall id :: id in ids ==> id in d.rows) && Unique(ids)
    ensures var r := ReconcileAll(d, ids, now); forall id :: id in d.rows ==> r.rows[id] == Passed(d.rows[id], id in ids)
    decreases |ids|
  {
    hide Reconcile, Passed;
    if ids == [] {
      forall id | id in d.rows
        ensures d.rows[id] == Passed(d.rows[id], false)
      {
        UnlistedPasses(d.rows[id]);
      }
    } else {
      var d1 := Reconcile(d, ids[0], now);
      ReconcilingCharges(d, ids[0], now);
      RowsPassed(d1, ids[1..], now);
      forall id | id in d.rows
        ensures ReconcileAll(d, ids, now).rows[id] == Passed(d.rows[id], id in ids)
      {
        assert id in ids <==> id == ids[0] || id in ids[1..];
        PassedOnce(d.rows[id], id == ids[0], id in ids[1..]);
      }
    }
  }

  lemma UnlistedPasses(row: Row)
    ensures Passed(row, false) == row
  {
  }

  // From `d` to `r` the store was charged for `marks`.
  predicate Charged(d: Durable, r: Durable, marks: seq<nat>, events: seq<Event>) {
    && r.marks == d.marks + marks && r.debits == d.debits + multiset(marks)
    && r.saved.rolling == d.saved.rolling + events
    && (r.saved.telemetry.unsafe <==> d.saved.telemetry.unsafe || marks != [])
  }

  lemma ChargedTwice(d: Durable, d1: Durable, r: Durable, m1: seq<nat>, e1: seq<Event>, m2: seq<nat>, e2: seq<Event>)
    requires Charged(d, d1, m1, e1) && Charged(d1, r, m2, e2)
    ensures Charged(d, r, m1 + m2, e1 + e2)
  {
    assert d.marks + m1 + m2 == d.marks + (m1 + m2) && d.saved.rolling + e1 + e2 == d.saved.rolling + (e1 + e2);
  }

  lemma ReconcilingIsCharged(d: Durable, id: nat, now: Time)
    requires id in d.rows
    ensures Charged(d, Reconcile(d, id, now), Debtor(d.rows[id], id), Debt(d.rows[id], now))
  {
    ReconcilingCharges(d, id, now);
  }

  lemma {:induction false} LedgerCharged(d: Durable, ids: seq<nat>, now: Time)
    requires (forall id :: id in ids ==> id in d.rows) && Unique(ids)
    ensures Charged(d, ReconcileAll(d, ids, now), Debtors(d.rows, ids), Debts(d.rows, ids, now))
    decreases |ids|
  {
    if ids != [] {
      hide Reconcile, Passed, Charged, Debtor, Debt;
      var d1 := Reconcile(d, ids[0], now);
      assert ids[0] !in ids[1..];
      ReconcilingCharges(d, ids[0], now);
      ReconcilingIsCharged(d, ids[0], now);
      SparedRows(d, d1, ids);
      LedgerCharged(d1, ids[1..], now);
      DebtsElsewhere(d.rows, d1.rows, ids[1..], now);
      ChargedTwice(d, d1, ReconcileAll(d, ids, now), Debtor(d.rows[ids[0]], ids[0]), Debt(d.rows[ids[0]], now),
                   Debtors(d.rows, ids[1..]), Debts(d.rows, ids[1..], now));
    }
  }

  lemma {:induction false} TasksCharged(d: Durable, ids: seq<nat>, now: Time)
    requires (forall id :: id in ids ==> id in d.rows) && Unique(ids)
    ensures var r := ReconcileAll(d, ids, now);
            forall task :: CountOf(r.saved.tasks, task).attempts
                        == CountOf(d.saved.tasks, task).attempts + OfTask(Debts(d.rows, ids, now), task)
    decreases |ids|
  {
    hide Open, Owes, Reconcile, Passed, CountOf, DebitAt;
    if ids != [] {
      var d1, row := Reconcile(d, ids[0], now), d.rows[ids[0]];
      assert ids[0] !in ids[1..];
      ReconcilingCharges(d, ids[0], now);
      SparedRows(d, d1, ids);
      TasksCharged(d1, ids[1..], now);
      DebtsElsewhere(d.rows, d1.rows, ids[1..], now);
      FirstOfTask(Debt(row, now), Debts(d.rows, ids[1..], now));
    }
  }

  /** One recovery pass: every listed row that is planned, prepared, running or
      uncertain ends reconciled and no other row changes; the saved ledger gains exactly one entry for each open row whose
      debit was deferred, dated back to its start, and the row's task one
      attempt; the projection becomes unsafe when there is any. */
  lemma RecoverySettles(d: Durable, ids: seq<nat>, now: Time)
    requires (forall id :: id in ids ==> id in d.rows) && Unique(ids)
    ensures var r := ReconcileAll(d, ids, now);
            && r.marks == d.marks + Debtors(d.rows, ids)
            && r.debits == d.debits + multiset(Debtors(d.rows, ids))
            && r.saved.rolling == d.saved.rolling + Debts(d.rows, ids, now)
            && (r.saved.telemetry.unsafe <==> d.saved.telemetry.unsafe || Debtors(d.rows, ids) != [])
    ensures var r := ReconcileAll(d, ids, now);
            forall id :: id in d.rows ==>
              r.rows[id] == if id in ids && d.rows[id].status in {Planned, Prepared, Running, Status.Uncertain} then d.rows[id].(status := Reconciled)
                            else d.rows[id]
    ensures var r := ReconcileAll(d, ids, now);
            forall task :: CountOf(r.saved.tasks, task).attempts
                        == CountOf(d.saved.tasks, task).attempts + OfTask(Debts(d.rows, ids, now), task)
  {
    hide ReconcileAll, Debtors, Debts, OfTask, CountOf;
    RowsPassed(d, ids, now);
    LedgerCharged(d, ids, now);
    TasksCharged(d, ids, now);
  }

  // The row was left open by a receipt-aware call whose outcome was never
  // recorded, so nobody has been debited for it.
  predicate LeftUnpaid(row: Row) {
    row.receiptAware && row.status in {Planned, Prepared, Running}
  }

  // An instant as the row dates it: its own start, or `now` for want of one.
  predicate DatedBy(row: Row, at: Time, now: Time) {
    (row.preparedAt != ZERO ==> at == row.preparedAt) && (row.preparedAt == ZERO ==> at == now)
  }

  // The listed rows left unpaid, in the order listed.
  function UnpaidOf(rows: map<nat, Row>, ids: seq<nat>): (unpaid: seq<nat>)
    requires forall id :: id in ids ==> id in rows
    ensures forall id :: id in unpaid <==> id in ids && LeftUnpaid(rows[id])
  {
    if ids == [] then []
    else (if LeftUnpaid(rows[ids[0]]) then [ids[0]] else []) + UnpaidOf(rows, ids[1..])
  }

  // What a recovery does to the projection when it finds `unpaid`.
  ghost predicate PaidBack(rows: map<nat, Row>, saved: Persisted, saved': Persisted, unpaid: seq<nat>, now: Time)
    requires forall id :: id in unpaid ==> id in rows
  {
    && |saved'.rolling| == |saved.rolling| + |unpaid| && saved'.rolling[..|saved.rolling|] == saved.rolling
    && (forall k :: 0 <= k < |unpaid| ==>
          saved'.rolling[|saved.rolling| + k].task == rows[unpaid[k]].task
          && DatedBy(rows[unpaid[k]], saved'.rolling[|saved.rolling| + k].at, now))
    && (if unpaid == [] then saved'.lastStart == saved.lastStart else DatedBy(rows[unpaid[|unpaid| - 1]], saved'.lastStart, now))
    && saved'.telemetry.available == Lowered(saved.telemetry.available, |unpaid|)
    && forall task :: TaskPaidBack(rows, saved, saved', unpaid, now, task)
  }

  // Each debit takes one from a known remaining count, down to none.
  function Lowered(available: Option<int>, debits: nat): Option<int> {
    if available.Some? && available.value > 0 then Some(Max(0, available.value - debits)) else available
  }

  // A task's retries stay; it was last seen when the last call of it that is
  // paid for now had started.
  ghost predicate TaskPaidBack(rows: map<nat, Row>, saved: Persisted, saved': Persisted, unpaid: seq<nat>, now: Time, task: Id)
    requires forall id :: id in unpaid ==> id in rows
  {
    && CountOf(saved'.tasks, task).retries == CountOf(saved.tasks, task).retries
    && ((forall id :: id in unpaid ==> rows[id].task != task) ==> CountOf(saved'.tasks, task) == CountOf(saved.tasks, task))
    && (forall k :: 0 <= k < |unpaid| && rows[unpaid[k]].task == task && (forall j :: k < j < |unpaid| ==> rows[unpaid[j]].task != task) ==>
          DatedBy(rows[unpaid[k]], CountOf(saved'.tasks, task).lastTouched, now))
  }

  lemma OnePaidBack(d: Durable, id: nat, now: Time)
    requires id in d.rows
    ensures PaidBack(d.rows, d.saved, Reconcile(d, id, now).saved, if LeftUnpaid(d.rows[id]) then [id] else [], now)
  {
  }

  lemma PaidBackTwice(rows: map<nat, Row>, s: Persisted, s1: Persisted, s2: Persisted, first: seq<nat>, rest: seq<nat>, now: Time)
    requires forall id :: id in first + rest ==> id in rows
    requires (forall id :: id in first ==> id in rows) && (forall id :: id in rest ==> id in rows) && |first| <= 1
    requires PaidBack(rows, s, s1, first, now) && PaidBack(rows, s1, s2, rest, now)
    ensures PaidBack(rows, s, s2, first + rest, now)
  {
    var all, n := first + rest, |s.rolling|;
    assert s2.rolling[..n] == s1.rolling[..n];
    forall k | 0 <= k < |all|
      ensures s2.rolling[n + k].task == rows[all[k]].task && DatedBy(rows[all[k]], s2.rolling[n + k].at, now)
    {
      if k < |first| {
        assert s2.rolling[n + k] == s2.rolling[..|s1.rolling|][n + k] == s1.rolling[n + k];
      } else {
        assert n + k == |s1.rolling| + (k - |first|) && all[k] == rest[k - |first|];
      }
    }
    forall task
      ensures TaskPaidBack(rows, s, s2, all, now, task)
    {
      TaskPaidBackTwice(rows, s, s1, s2, first, rest, now, task);
    }
  }

  lemma TaskPaidBackTwice(rows: map<nat, Row>, s: Persisted, s1: Persisted, s2: Persisted, first: seq<nat>, rest: seq<nat>, now: Time, task: Id)
    requires forall id :: id in first + rest ==> id in rows
    requires (forall id :: id in first ==> id in rows) && (forall id :: id in rest ==> id in rows)
    requires TaskPaidBack(rows, s, s1, first, now, task) && TaskPaidBack(rows, s1, s2, rest, now, task)
    ensures TaskPaidBack(rows, s, s2, first + rest, now, task)
  {
    var all := first + rest;
    forall k | 0 <= k < |all| && rows[all[k]].task == task && (forall j :: k < j < |all| ==> rows[all[j]].task != task)
      ensures DatedBy(rows[all[k]], CountOf(s2.tasks, task).lastTouched, now)
    {
      forall j | 0 <= j < |rest| && j > k - |first|
        ensures rows[rest[j]].task != task
      {
        assert all[|first| + j] == rest[j];
      }
      if k < |first| {
        assert forall id :: id in rest ==> rows[id].task != task;
        assert forall j :: k < j < |first| ==> first[j] == all[j];
      } else {
        assert all[k] == rest[k - |first|];
      }
    }
  }

  /** A recovery pass dates every debit back: for each open receipt-aware row
      whose outcome was never recorded, the ledger entry bears the start the
      row was prepared with, and so do the lane's last start and the task's
      last sight, by the last such row; only a row without a start is dated by
      the recovery itself. Nothing else about a task changes but its attempts,
      and a known remaining count goes down by one for each. */
  lemma {:induction false} RecoveryIsDated(d: Durable, ids: seq<nat>, now: Time)
    requires (forall id :: id in ids ==> id in d.rows) && Unique(ids)
    ensures PaidBack(d.rows, d.saved, ReconcileAll(d, ids, now).saved, UnpaidOf(d.rows, ids), now)
    decreases |ids|
  {
    hide PaidBack, Reconcile, Passed, LeftUnpaid;
    if ids == [] {
      NothingPaidBack(d, now);
    } else {
      var d1, id := Reconcile(d, ids[0], now), ids[0];
      assert id !in ids[1..];
      ReconcilingCharges(d, id, now);
      SparedRows(d, d1, ids);
      OnePaidBack(d, id, now);
      RecoveryIsDated(d1, ids[1..], now);
      var first, rest := if LeftUnpaid(d.rows[id]) then [id] else [], UnpaidOf(d.rows, ids[1..]);
      UnpaidElsewhere(d.rows, d1.rows, ids[1..]);
      PaidBackElsewhere(d.rows, d1.rows, d1.saved, ReconcileAll(d, ids, now).saved, rest, now);
      PaidBackTwice(d.rows, d.saved, d1.saved, ReconcileAll(d, ids, now).saved, first, rest, now);
    }
  }

  lemma NothingPaidBack(d: Durable, now: Time)
    ensures PaidBack(d.rows, d.saved, d.saved, [], now)
  {
    assert d.saved.rolling[..|d.saved.rolling|] == d.saved.rolling;
  }

  lemma {:induction false} UnpaidElsewhere(rows: map<nat, Row>, rows': map<nat, Row>, ids: seq<nat>)
    requires forall id :: id in ids ==> id in rows && id in rows' && rows'[id] == rows[id]
    ensures UnpaidOf(rows', ids) == UnpaidOf(rows, ids)
  {
    if ids != [] {
      UnpaidElsewhere(rows, rows', ids[1..]);
    }
  }

  lemma PaidBackElsewhere(rows: map<nat, Row>, rows': map<nat, Row>, s: Persisted, s': Persisted, unpaid: seq<nat>, now: Time)
    requires forall id :: id in unpaid ==> id in rows && id in rows' && rows'[id] == rows[id]
    requires PaidBack(rows', s, s', unpaid, now)
    ensures PaidBack(rows, s, s', unpaid, now)
  {
    forall task
      ensures TaskPaidBack(rows, s, s', unpaid, now, task)
    {
      assert TaskPaidBack(rows', s, s', unpaid, now, task);
    }
  }

  /** Those left to a human are the listed rows that already wait for one, in the
      order listed. */
  lemma {:induction false} ReviewedExactly(d: Durable, ids: seq<nat>, now: Time, id: nat)
    requires (forall x :: x in ids ==> x in d.rows) && Unique(ids)
    ensures multiset(Reviewed(d, ids, now))[id] == (if id in ids && d.rows[id].status == HumanReview then 1 else 0)
    ensures Reviewed(d, ids, now) != [] ==> Reviewed(d, ids, now)[0] in ids
    decreases |ids|
  {
    hide Reconcile, Passed;
    if ids != [] {
      var d1 := Reconcile(d, ids[0], now);
      assert ids[0] !in ids[1..];
      ReconcilingCharges(d, ids[0], now);
      SparedRows(d, d1, ids);
      ReviewedExactly(d1, ids[1..], now, id);
      assert id in ids <==> id == ids[0] || id in ids[1..];
    }
  }

  lemma SparedRows(d: Durable, d1: Durable, ids: seq<nat>)
    requires ids != [] && (forall id :: id in ids ==> id in d.rows) && ids[0] !in ids[1..]
    requires d1.rows.Keys == d.rows.Keys && forall x :: x in d.rows ==> d1.rows[x] == Passed(d.rows[x], x == ids[0])
    ensures forall id :: id in ids[1..] ==> id in d1.rows && d1.rows[id] == d.rows[id]
  {
  }

  lemma FirstOfTask(first: seq<Event>, rest: seq<Event>)
    requires |first| <= 1
    ensures forall task :: OfTask(first + rest, task) == OfTask(first, task) + OfTask(rest, task)
  {
    if first == [] {
      assert first + rest == rest;
    } else {
      assert (first + rest)[1..] == rest;
    }
  }

  lemma {:induction false} OwedAtMostOnce(rows: map<nat, Row>, ids: seq<nat>, id: nat)
    requires (forall x :: x in ids ==> x in rows) && Unique(ids)
    ensures multiset(Debtors(rows, ids))[id] == (if id in ids && Open(rows[id]) && Owes(rows[id]) then 1 else 0)
  {
    if ids != [] {
      OwedAtMostOnce(rows, ids[1..], id);
      assert ids[0] !in ids[1..];
      assert id in ids <==> id == ids[0] || id in ids[1..];
    }
  }

  // The pass that began on `before` has come to `d` after its first `i` rows.
  ghost predicate SoFar(before: Durable, d: Durable, ids: seq<nat>, i: nat, reviewed: seq<nat>, now: Time)
    requires forall id :: id in ids ==> id in before.rows
  {
    && i <= |ids| && d.rows.Keys == before.rows.Keys
    && ReconcileAll(before, ids, now) == ReconcileAll(d, ids[i..], now)
    && Reviewed(before, ids, now) == reviewed + Reviewed(d, ids[i..], now)
  }

  lemma PassBegins(d: Durable, ids: seq<nat>, now: Time)
    requires forall id :: id in ids ==> id in d.rows
    ensures SoFar(d, d, ids, 0, [], now)
  {
    assert ids[0..] == ids;
  }

  lemma PassGoesOn(before: Durable, d: Durable, ids: seq<nat>, i: nat, reviewed: seq<nat>, now: Time)
    requires (forall id :: id in ids ==> id in before.rows) && SoFar(before, d, ids, i, reviewed, now) && i < |ids|
    ensures SoFar(before, Reconcile(d, ids[i], now), ids, i + 1,
                  if d.rows[ids[i]].status.HumanReview? then reviewed + [ids[i]] else reviewed, now)
  {
    hide Reconcile;
    assert ids[i..][1..] == ids[i + 1..];
  }

  lemma PassEnds(before: Durable, d: Durable, ids: seq<nat>, reviewed: seq<nat>, now: Time)
    requires (forall id :: id in ids ==> id in before.rows) && SoFar(before, d, ids, |ids|, reviewed, now)
    ensures d == ReconcileAll(before, ids, now) && reviewed == Reviewed(before, ids, now)
  {
  }

  class Store {
    var rows: map<nat, Row>
    var saved: Persisted
    var marks: seq<nat>
    var debits: multiset<nat>

    function View(): Durable
      reads this
    {
      Durable(rows, saved, marks, debits)
    }

    constructor ()
      ensures View() == EMPTY
    {
      rows, saved, marks, debits := map[], Project(FRESH), [], multiset{};
    }

    // Charges the saved projection for an attempt that may have reached the
    // upstream without a debit.
    method ApplyConservativeDebit(id: nat, task: Id, at: Time)
      modifies this
      ensures rows == old(rows) && saved == ConservativeDebit(old(saved), task, at)
      ensures marks == old(marks) + [id] && debits == old(debits) + multiset{id}
    {
      var telemetry := saved.telemetry.(unsafe := true);
      if telemetry.available.Some? && telemetry.available.value > 0 {
        telemetry := telemetry.(available := Some(telemetry.available.value - 1));
      }
      var counts := if task in saved.tasks then saved.tasks[task] else Task(0, 0, ZERO);
      saved := saved.(telemetry := telemetry,
                      lastStart := at,
                      tasks := saved.tasks[task := Task(counts.attempts + 1, counts.retries, at)],
                      rolling := saved.rolling + [Event(at, task)]);
      marks, debits := marks + [id], debits + multiset{id};
    }

    method ReconcileAttempt(id: nat, now: Time)
      requires id in rows && Open(rows[id])
      modifies this
      ensures View() == Reconcile(old(View()), id, now)
    {
      var row := rows[id];
      rows := rows[id := row.(status := Reconciled)];
      if Owes(row) {
        ApplyConservativeDebit(id, row.task, DebitAt(row, now));
      }
    }

    // Settles one row if it is open; says whether it waits for a human.
    method Visit(id: nat, now: Time) returns (needsHuman: bool)
      requires id in rows
      modifies this
      ensures View() == Reconcile(old(View()), id, now)
      ensures needsHuman == old(rows)[id].status.HumanReview?
    {
      needsHuman := false;
      match Classify(rows[id].status) {
        case Done =>
        case NeedsHuman => needsHuman := true;
        case Conservative => ReconcileAttempt(id, now);
      }
    }

    // A recovery pass over a snapshot of the rows.
    method Resume(snapshot: seq<nat>, now: Time) returns (humanReview: seq<nat>)
      requires forall id :: id in snapshot ==> id in rows
      modifies this
      ensures View() == ReconcileAll(old(View()), snapshot, now)
      ensures humanReview == Reviewed(old(View()), snapshot, now)
    {
      hide SoFar, Reconcile, ReconcileAll, Reviewed;
      humanReview := [];
      var i := 0;
      ghost var before := View();
      PassBegins(before, snapshot, now);
      while i < |snapshot|
        invariant 0 <= i <= |snapshot| && rows.Keys == before.rows.Keys
        invariant SoFar(before, View(), snapshot, i, humanReview, now)
      {
        PassGoesOn(before, View(), snapshot, i, humanReview, now);
        var needsHuman := Visit(snapshot[i], now);
        if needsHuman {
          humanReview := humanReview + [snapshot[i]];
        }
        i := i + 1;
      }
      PassEnds(before, View(), snapshot, humanReview, now);
    }
  }
}
