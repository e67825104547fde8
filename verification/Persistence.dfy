/** A restart does not show: a governor restored from its saved projection
    answers every later section as the original would have.
 */
module Persistence {
  import opened Clock
  import opened Policy
  import opened Ledger
  import opened Retention
  import opened AttemptReceipts
  import opened Lane
  import opened Runs
  import opened SingleLane
  import opened Genuine

  // ----- Saving and restoring -----

  // A lane with nobody in it and no refresh under way.
  predicate Idle(s: State) {
    !s.closed && !s.inFlight && s.activeTask == "" && s.queue == [] && !s.circuit.refreshInFlight
  }

  predicate Restorable(s: State) {
    Idle(s) && Readable(s)
  }

  function Saved(c: Config, s: State, now: Time, choice: Choice): State {
    Lane.Expire(c, s, now, choice)
  }

  function Restarted(s: State, now: Time, choice: Choice): State {
    Restore(FRESH, Project(s), now, choice)
  }

  // ----- What the original and the restored governor share -----

  // The restored circuit may already have closed a window that has passed.
  predicate SameCircuit(a: Circuit, b: Circuit, now: Time) {
    a == b || (a.state.OpenUntil? && a.openUntil != ZERO && a.openUntil <= now && b == Transition(a, Closed, Unclassified, ZERO))
  }

  // The same requests wait, under whatever tickets.
  predicate SameQueue(a: State, b: State) {
    |a.queue| == |b.queue| && forall i :: 0 <= i < |a.queue| ==> a.queue[i].request == b.queue[i].request
  }

  // All that decides an answer agrees, the circuit and the request ids aside;
  // whose turn it was is not remembered.
  predicate Alike(a: State, b: State) {
    && a.closed == b.closed && SameQueue(a, b)
    && a.inFlight == b.inFlight && a.activeTask == b.activeTask
    && a.lastStart == b.lastStart && a.nextAttempt == b.nextAttempt
    && a.ledger == b.ledger && a.tasks == b.tasks && a.attemptIDs == b.attemptIDs
    && a.cooldownUntil == b.cooldownUntil && a.telemetry == b.telemetry
  }

  predicate Twin(a: State, b: State) {
    Alike(a, b) && a.circuit == b.circuit
  }

  // While a call is in flight the circuits agree exactly.
  predicate Matched(a: State, b: State, now: Time) {
    Alike(a, b) && SameCircuit(a.circuit, b.circuit, now) && (a.inFlight ==> a.circuit == b.circuit)
  }

  lemma {:induction false} DatedKeepsAll(events: seq<Event>)
    requires forall i :: 0 <= i < |events| ==> events[i].at != ZERO
    ensures Dated(events) == events
  {
    if events != [] {
      DatedKeepsAll(events[1..]);
      assert events == [events[0]] + events[1..];
    }
  }

  lemma NothingScanned(ids: map<Id, Record>, now: Time)
    ensures PruneRequests([], ids, now) == ([], ids)
  {
  }

  lemma YoungTwice(tasks: map<Id, Task>, now: Time, later: Time)
    requires now <= later
    ensures YoungTasks(YoungTasks(tasks, {}, now), {}, later) == YoungTasks(tasks, {}, later)
  {
  }

  lemma YoungAttemptsTwice(attempts: map<Id, Time>, now: Time, later: Time)
    requires now <= later
    ensures YoungAttempts(YoungAttempts(attempts, now), later) == YoungAttempts(attempts, later)
  {
  }

  // After an expiry the tasks and identities fit their caps.
  lemma ExpiredFits(c: Config, s: State, now: Time, choice: Choice)
    requires Restorable(s) && Fits(s, now, choice)
    ensures var s' := Lane.Expire(c, s, now, choice);
            |s'.tasks| <= MAX_TASKS && |s'.attemptIDs| <= MAX_ATTEMPT_IDS
  {
    hide PruneRequests, RecentRates, ExpireTelemetry;
    assert Protected(s) == {};
    var young := YoungTasks(s.tasks, {}, now);
    var attempts := YoungAttempts(s.attemptIDs, now);
    EvictedFits(young, choice.tasks, Ages(young), MAX_TASKS);
    EvictedFits(attempts, choice.attempts, attempts, MAX_ATTEMPT_IDS);
  }

  lemma EvictedFits<V>(all: map<Id, V>, evicted: set<Id>, ages: map<Id, Time>, cap: nat)
    requires ages.Keys == all.Keys && OldestFirst(ages, all.Keys - {}, cap, evicted)
    ensures |all - evicted| <= cap
  {
    assert (all - evicted).Keys == all.Keys - evicted;
    assert |all| == |all.Keys| && |ages| == |ages.Keys|;
    assert |all.Keys - evicted| == |all.Keys| - |evicted| by {
      assert all.Keys == (all.Keys - evicted) + evicted;
    }
    assert |all - evicted| == |(all - evicted).Keys|;
  }

  lemma FewEvicted<V>(all: map<Id, V>, kept: map<Id, V>, evicted: set<Id>, ages: map<Id, Time>, cap: nat)
    requires |all| <= cap && kept.Keys <= all.Keys && ages.Keys == kept.Keys && OldestFirst(ages, kept.Keys - {}, cap, evicted)
    ensures evicted == {}
  {
    assert all.Keys == kept.Keys + (all.Keys - kept.Keys);
    assert |all| == |all.Keys| && |ages| == |kept.Keys|;
  }

  lemma NothingMerged(seen: map<Id, Time>)
    requires forall id :: id in seen ==> seen[id] != ZERO
    ensures MergeSeen(map[], seen) == seen
  {
  }

  function Reloaded(s: State, now: Time): State {
    FRESH.(nextAttempt := s.nextAttempt, lastStart := s.lastStart, cooldownUntil := s.cooldownUntil, telemetry := s.telemetry,
           circuit := RestoreCircuit(FRESH_CIRCUIT, Project(s), now), ledger := s.ledger,
           tasks := s.tasks, attemptIDs := s.attemptIDs, requestIDs := s.requestIDs)
  }

  lemma MergedIs(s: State, now: Time)
    requires Restorable(s)
    ensures Merge(FRESH, Project(s), now) == Reloaded(s, now)
  {
    hide RestoreCircuit, MergeSeen, Dated;
    DatedKeepsAll(s.ledger);
    NothingMerged(s.attemptIDs);
    assert [] + s.ledger == s.ledger;
    assert map[] + s.tasks == s.tasks && map[] + s.requestIDs == s.requestIDs;
  }

  // What a restart leaves of a saved state: only what pruning forgets and the
  // circuit window that has passed.
  lemma RestartIs(s: State, now: Time, choice: Choice)
    requires Restorable(s) && |s.tasks| <= MAX_TASKS && |s.attemptIDs| <= MAX_ATTEMPT_IDS
    requires Fits(Merge(FRESH, Project(s), now), now, choice)
    ensures Restarted(s, now, choice)
         == Reloaded(s, now).(tasks := YoungTasks(s.tasks, {}, now), attemptIDs := YoungAttempts(s.attemptIDs, now))
  {
    hide Merge, Project, RestoreCircuit, YoungTasks, YoungAttempts, PruneRequests, OldestFirst, TasksFit, AttemptsFit;
    MergedIs(s, now);
    var merged := Reloaded(s, now);
    NothingScanned(s.requestIDs, now);
    assert Protected(merged) == {};
    TasksKept(merged.tasks, now, choice.tasks);
    AttemptsKept(merged.attemptIDs, now, choice.attempts);
  }

  lemma TasksKept(tasks: map<Id, Task>, now: Time, evicted: set<Id>)
    requires |tasks| <= MAX_TASKS && TasksFit(tasks, {}, now, evicted)
    ensures YoungTasks(tasks, {}, now) - evicted == YoungTasks(tasks, {}, now)
  {
    hide OldestFirst;
    var young := YoungTasks(tasks, {}, now);
    assert young.Keys - {} == young.Keys;
    FewEvicted(tasks, young, evicted, Ages(young), MAX_TASKS);
    assert young - {} == young;
  }

  lemma AttemptsKept(attempts: map<Id, Time>, now: Time, evicted: set<Id>)
    requires |attempts| <= MAX_ATTEMPT_IDS && AttemptsFit(attempts, now, evicted)
    ensures YoungAttempts(attempts, now) - evicted == YoungAttempts(attempts, now)
  {
    hide OldestFirst;
    var young := YoungAttempts(attempts, now);
    assert young.Keys - {} == young.Keys;
    FewEvicted(attempts, young, evicted, young, MAX_ATTEMPT_IDS);
    assert young - {} == young;
  }

  // ----- The first section after the restart -----

  lemma ExpiryHidesTheRestart(c: Config, s: State, restart: Time, restored: Choice, now: Time, choice: Choice)
    requires Restorable(s) && |s.tasks| <= MAX_TASKS && |s.attemptIDs| <= MAX_ATTEMPT_IDS && restart <= now
    requires Fits(Merge(FRESH, Project(s), restart), restart, restored)
    ensures Matched(Lane.Expire(c, s, now, choice), Lane.Expire(c, Restarted(s, restart, restored), now, choice), now)
  {
    hide PruneRequests, RecentRates, ExpireTelemetry, YoungTasks, YoungAttempts, Restore, OldestFirst;
    RestartIs(s, restart, restored);
    YoungTwice(s.tasks, restart, now);
    YoungAttemptsTwice(s.attemptIDs, restart, now);
    var r := Restarted(s, restart, restored);
    assert Protected(s) == {} && Protected(r) == {};
  }

  // ----- Sections answer alike -----

  lemma ProtectedAlike(a: State, b: State)
    requires Alike(a, b)
    ensures Protected(a) == Protected(b)
  {
    var tasksOfA, tasksOfB := set w | w in a.queue :: w.request.task, set w | w in b.queue :: w.request.task;
    forall task | task in tasksOfA
      ensures task in tasksOfB
    {
      var i :| 0 <= i < |a.queue| && a.queue[i].request.task == task;
      assert b.queue[i] in b.queue;
    }
    forall task | task in tasksOfB
      ensures task in tasksOfA
    {
      var i :| 0 <= i < |b.queue| && b.queue[i].request.task == task;
      assert a.queue[i] in a.queue;
    }
    assert tasksOfA == tasksOfB;
  }

  lemma ExpireAlike(c: Config, a: State, b: State, now: Time, choice: Choice)
    requires Alike(a, b)
    ensures Alike(Lane.Expire(c, a, now, choice), Lane.Expire(c, b, now, choice))
    ensures Lane.Expire(c, a, now, choice).inFlight == a.inFlight
    ensures Lane.Expire(c, a, now, choice).circuit == a.circuit.(rateEvents := RecentRates(c, a.circuit.rateEvents, now))
    ensures Lane.Expire(c, b, now, choice).circuit == b.circuit.(rateEvents := RecentRates(c, b.circuit.rateEvents, now))
  {
    hide PruneRequests, RecentRates, ExpireTelemetry, YoungTasks, YoungAttempts, Keepers;
    ProtectedAlike(a, b);
  }

  lemma SameCircuitStill(a: Circuit, b: Circuit, since: Time, rates: seq<Time>)
    requires SameCircuit(a, b, since)
    ensures a.rateEvents == b.rateEvents && SameCircuit(a.(rateEvents := rates), b.(rateEvents := rates), since)
  {
  }

  lemma ExpireMatched(c: Config, a: State, b: State, since: Time, now: Time, choice: Choice)
    requires Matched(a, b, since)
    ensures Matched(Lane.Expire(c, a, now, choice), Lane.Expire(c, b, now, choice), since)
  {
    hide Lane.Expire, RecentRates, SameCircuit;
    ExpireAlike(c, a, b, now, choice);
    SameCircuitStill(a.circuit, b.circuit, since, RecentRates(c, a.circuit.rateEvents, now));
  }

  lemma SurveyMatched(c: Config, a: State, b: State, since: Time, task: Id, now: Time, choice: Choice)
    requires Matched(a, b, since)
    ensures Matched(Survey(c, a, task, now, choice), Survey(c, b, task, now, choice), since)
  {
    hide Lane.Expire, SameCircuit;
    ExpireMatched(c, a, b, since, now, choice);
  }

  lemma SurveyTwin(c: Config, a: State, b: State, task: Id, now: Time, choice: Choice)
    requires Twin(a, b)
    ensures Twin(Survey(c, a, task, now, choice), Survey(c, b, task, now, choice))
  {
    hide Lane.Expire;
    ExpireAlike(c, a, b, now, choice);
  }

  lemma VerdictsMatch(c: Config, a: State, b: State, since: Time, now: Time)
    requires Matched(a, b, since) && since <= now
    ensures GateVerdict(c, a, now) == GateVerdict(c, b, now)
    ensures SameCircuit(CircuitChecked(a, now), CircuitChecked(b, now), since)
    ensures CircuitVerdict(a, now).Pass? ==> CircuitChecked(a, now) == CircuitChecked(b, now)
    ensures a.inFlight ==> CircuitChecked(a, now) == CircuitChecked(b, now)
  {
    hide UpstreamVerdict, SameQueue;
  }

  /** For every later instant and request, a check answers the restored governor
      as it would have answered the original: same code, same retry instant. */
  lemma CheckMatches(c: Config, a: State, b: State, since: Time, request: Request, now: Time, at: Time, choice: Choice)
    requires Matched(a, b, since) && since <= now
    ensures Check(c, a, request, now, at, choice).1 == Check(c, b, request, now, at, choice).1
    ensures Matched(Check(c, a, request, now, at, choice).0, Check(c, b, request, now, at, choice).0, since)
    ensures Check(c, a, request, now, at, choice).1.Pass? ==> Twin(Check(c, a, request, now, at, choice).0, Check(c, b, request, now, at, choice).0)
  {
    hide Lane.Expire, CircuitChecked, GateVerdict, SameCircuit, Touched, SameQueue;
    var a1, b1 := Lane.Expire(c, a, now, choice), Lane.Expire(c, b, now, choice);
    ExpireMatched(c, a, b, since, now, choice);
    VerdictsMatch(c, a1, b1, since, now);
    if GateVerdict(c, a1, now).Pass? {
      PassingCircuit(c, a1, now);
    }
    QueueAfterCheck(c, a, request, now, at, choice);
    QueueAfterCheck(c, b, request, now, at, choice);
    QueueKept(Lane.Expire(c, a, now, choice), Lane.Expire(c, b, now, choice), Check(c, a, request, now, at, choice).0, Check(c, b, request, now, at, choice).0);
  }

  lemma QueueAfterCheck(c: Config, s: State, request: Request, now: Time, at: Time, choice: Choice)
    ensures Check(c, s, request, now, at, choice).0.queue == Lane.Expire(c, s, now, choice).queue == s.queue
  {
    hide PruneRequests, YoungTasks, YoungAttempts, Keepers, RecentRates, ExpireTelemetry, CircuitChecked, GateVerdict;
  }

  lemma QueueKept(a: State, b: State, a': State, b': State)
    requires SameQueue(a, b) && a'.queue == a.queue && b'.queue == b.queue
    ensures SameQueue(a', b')
  {
  }

  lemma PassingCircuit(c: Config, s: State, now: Time)
    requires GateVerdict(c, s, now).Pass?
    ensures CircuitVerdict(s, now).Pass?
  {
  }

  lemma AdmitMatches(c: Config, a: State, b: State, since: Time, request: Request, at: Time, observed: Option<TelemetrySnapshot>,
                     cancelled: bool, pruned: Choice, checked: Choice)
    requires Matched(a, b, since) && since <= at
    requires request.id !in a.requestIDs && request.id !in b.requestIDs
    ensures var (a', admissionA) := TryAdmit(c, a, request, at, observed, cancelled, pruned, checked);
            var (b', admissionB) := TryAdmit(c, b, request, at, observed, cancelled, pruned, checked);
            admissionA == admissionB && Matched(a', b', since)
  {
    hide Check, Prune, Observe, SameCircuit, Matched, SameQueue;
    var a1, b1 := Prune(a, at, pruned), Prune(b, at, pruned);
    PruneMatched(a, b, since, at, pruned);
    PruneForgetsOnlyIds(a, at, pruned, request.id);
    PruneForgetsOnlyIds(b, at, pruned, request.id);
    var a2, b2 := Observe(c, a1, observed, at), Observe(c, b1, observed, at);
    ObserveMatched(c, a1, b1, observed, since, at);
    CheckMatches(c, a2, b2, since, request, at, at, checked);
    MatchedMeans(a1, b1, since);
    MatchedMeans(a, b, since);
    QueuesAlike(a1, b1);
    if Check(c, a2, request, at, at, checked).1.Pass? {
      GrantsMatch(Check(c, a2, request, at, at, checked).0, Check(c, b2, request, at, at, checked).0, request, since);
    }
  }

  lemma QueuesAlike(a: State, b: State)
    requires Alike(a, b)
    ensures |a.queue| == |b.queue| && (a.queue == [] <==> b.queue == [])
  {
  }

  lemma GrantsMatch(a: State, b: State, request: Request, since: Time)
    requires Twin(a, b)
    ensures Matched(Grant(Reserve(a, request.id), request), Grant(Reserve(b, request.id), request), since)
  {
  }

  lemma JoinMatches(c: Config, a: State, b: State, since: Time, request: Request, at: Time, pruned: Choice)
    requires Matched(a, b, since) && request.id !in a.requestIDs && request.id !in b.requestIDs
    ensures var (a', refusalA) := Enqueue(c, a, request, at, pruned);
            var (b', refusalB) := Enqueue(c, b, request, at, pruned);
            refusalA == refusalB && Matched(a', b', since)
  {
    hide Prune, SameCircuit, Matched, SameQueue, Joined;
    var a1, b1 := Prune(a, at, pruned), Prune(b, at, pruned);
    PruneMatched(a, b, since, at, pruned);
    PruneForgetsOnlyIds(a, at, pruned, request.id);
    PruneForgetsOnlyIds(b, at, pruned, request.id);
    MatchedMeans(a, b, since);
    MatchedMeans(a1, b1, since);
    QueuesAlike(a1, b1);
    JoinedMatch(a1, b1, request, since);
  }

  lemma JoinedMatch(a: State, b: State, request: Request, since: Time)
    requires Matched(a, b, since)
    ensures Matched(Joined(a, request), Joined(b, request), since)
  {
  }

  lemma LeavingMatches(a: State, b: State, index: nat, since: Time)
    requires index < |a.queue| && index < |b.queue|
    ensures Matched(a, b, since) ==> Matched(WithoutWaiter(a, index), WithoutWaiter(b, index), since)
    ensures Twin(a, b) ==> Twin(WithoutWaiter(a, index), WithoutWaiter(b, index))
  {
  }

  // A waiter is answered alike wherever it looks from the same place.
  lemma LookMatches(c: Config, a: State, b: State, since: Time, index: nat, now: Time, at: Time, observed: Option<TelemetrySnapshot>,
                    cancelled: bool, checked: Choice)
    requires Matched(a, b, since) && since <= now && index < |a.queue| && index < |b.queue|
    ensures var (a', admissionA) := QueueCheck(c, a, index, now, at, observed, cancelled, checked);
            var (b', admissionB) := QueueCheck(c, b, index, now, at, observed, cancelled, checked);
            admissionA == admissionB && Matched(a', b', since)
  {
    hide Check, Observe, SameCircuit, Matched, WithoutWaiter, Twin, Grant, Reserve;
    MatchedMeans(a, b, since);
    var request := a.queue[index].request;
    assert b.queue[index].request == request;
    var a1, b1 := Observe(c, a, observed, now), Observe(c, b, observed, now);
    ObserveMatched(c, a, b, observed, since, now);
    QueueAfterObserve(c, a, observed, now);
    QueueAfterObserve(c, b, observed, now);
    LeavingMatches(a1, b1, index, since);
    CheckMatches(c, a1, b1, since, request, now, at, checked);
    var a2, b2 := Check(c, a1, request, now, at, checked).0, Check(c, b1, request, now, at, checked).0;
    QueueAfterCheck(c, a1, request, now, at, checked);
    QueueAfterCheck(c, b1, request, now, at, checked);
    LeavingMatches(a2, b2, index, since);
    if !cancelled && Check(c, a1, request, now, at, checked).1.Pass? {
      GrantsMatch(WithoutWaiter(a2, index), WithoutWaiter(b2, index), request, since);
    }
  }

  lemma QueueAfterObserve(c: Config, s: State, observed: Option<TelemetrySnapshot>, now: Time)
    ensures Observe(c, s, observed, now).queue == s.queue
  {
    hide TelemetryAfter, CircuitAfter, CooldownAfter;
  }

  lemma MatchedMeans(a: State, b: State, now: Time)
    requires Matched(a, b, now)
    ensures Alike(a, b)
  {
  }

  lemma TwinsMatch(a: State, b: State, now: Time)
    requires Twin(a, b)
    ensures Matched(a, b, now)
  {
  }

  lemma PruneMatched(a: State, b: State, since: Time, now: Time, choice: Choice)
    requires Matched(a, b, since)
    ensures Matched(Prune(a, now, choice), Prune(b, now, choice), since)
  {
    hide PruneRequests, YoungTasks, YoungAttempts, Keepers;
    ProtectedAlike(a, b);
  }

  lemma PruneForgetsOnlyIds(s: State, now: Time, choice: Choice, id: Id)
    requires id !in s.requestIDs
    ensures id !in Prune(s, now, choice).requestIDs
  {
    hide PruneRequests, YoungTasks, YoungAttempts, Keepers;
    PruneForgetsOnlyCompleted(s.completed, s.requestIDs, now);
  }

  lemma ObserveMatched(c: Config, a: State, b: State, observed: Option<TelemetrySnapshot>, since: Time, now: Time)
    requires Matched(a, b, since)
    ensures Matched(Observe(c, a, observed, now), Observe(c, b, observed, now), since)
  {
    hide TelemetryAfter, CooldownAfter, SameQueue;
    QueueAfterObserve(c, a, observed, now);
    QueueAfterObserve(c, b, observed, now);
    if SameQueue(a, b) {
      QueueKept(a, b, Observe(c, a, observed, now), Observe(c, b, observed, now));
    }
  }

  // ----- Calls -----

  lemma MarkTwin(a: State, b: State, request: Request)
    requires Twin(a, b)
    ensures Twin(TakeTurn(MarkActive(a, request.id), request.task), TakeTurn(MarkActive(b, request.id), request.task))
  {
  }

  lemma DebitTwin(c: Config, a: State, b: State, task: Id, retried: bool, at: Time, now: Time)
    requires Twin(a, b)
    ensures Twin(Debit(c, a, task, retried, at, now), Debit(c, b, task, retried, at, now))
  {
    hide Spend;
  }

  lemma StartTwin(c: Config, a: State, b: State, p: Permit, receiptAware: bool, at: Time, choice: Choice)
    requires Twin(a, b)
    ensures var (a', pa, errorA) := Start(c, a, p, receiptAware, at, choice);
            var (b', pb, errorB) := Start(c, b, p, receiptAware, at, choice);
            Twin(a', b') && pa == pb && errorA == errorB
  {
    hide Survey, MarkActive, TakeTurn, Debit;
    SurveyTwin(c, a, b, p.request.task, at, choice);
    var a1, b1 := Survey(c, a, p.request.task, at, choice), Survey(c, b, p.request.task, at, choice);
    var a2, b2 := a1.(nextAttempt := a1.nextAttempt + 1), b1.(nextAttempt := b1.nextAttempt + 1);
    MarkTwin(a2, b2, p.request);
    StampedMark(a2, p.request.id, at);
    StampedMark(b2, p.request.id, at);
    MarkTwin(a2.(lastStart := at), b2.(lastStart := at), p.request);
    DebitTwin(c, TakeTurn(MarkActive(a2.(lastStart := at), p.request.id), p.request.task),
              TakeTurn(MarkActive(b2.(lastStart := at), p.request.id), p.request.task), p.request.task, p.request.retry, at, at);
  }

  lemma StampedMark(s: State, id: Id, at: Time)
    ensures MarkActive(s, id).(lastStart := at) == MarkActive(s.(lastStart := at), id)
  {
  }

  lemma CompleteTwin(a: State, b: State, id: Id, now: Time)
    requires Twin(a, b)
    ensures Twin(Vacate(Complete(a, id, now)), Vacate(Complete(b, id, now)))
  {
  }

  lemma RecordOutcomeTwin(c: Config, a: State, b: State, task: Id, now: Time, outcome: Outcome, draw: Draw)
    requires Twin(a, b)
    ensures RecordOutcome(c, a, task, now, outcome, draw).1 == RecordOutcome(c, b, task, now, outcome, draw).1
    ensures Twin(RecordOutcome(c, a, task, now, outcome, draw).0, RecordOutcome(c, b, task, now, outcome, draw).0)
  {
    hide Lane.Expire, RateResponse, SelectedBackoff, OtherResponse, AsRecorded, Recoverable, SameQueue;
    var a1, b1 := Lane.Expire(c, a, now, draw.choice), Lane.Expire(c, b, now, draw.choice);
    ExpireAlike(c, a, b, now, draw.choice);
    var rated := AsRecorded(outcome).class_.RateCapacity?;
    QueueKept(if rated then a1 else a, if rated then b1 else b,
              RecordOutcome(c, a, task, now, outcome, draw).0, RecordOutcome(c, b, task, now, outcome, draw).0);
  }

  lemma FinishTwin(c: Config, a: State, b: State, p: Permit, outcome: Outcome, at: Time, surveyed: Choice, draw: Draw)
    requires Twin(a, b)
    ensures var (a', pa, resultA) := Lane.Finish(c, a, p, outcome, at, surveyed, draw);
            var (b', pb, resultB) := Lane.Finish(c, b, p, outcome, at, surveyed, draw);
            Twin(a', b') && pa == pb && resultA == resultB
  {
    hide Survey, RecordOutcome, Complete, Vacate, Twin;
    var task := p.request.task;
    var a1, b1 := Survey(c, a, task, at, surveyed), Survey(c, b, task, at, surveyed);
    SurveyTwin(c, a, b, task, at, surveyed);
    RecordOutcomeTwin(c, a1, b1, task, at, outcome, draw);
    CompleteTwin(RecordOutcome(c, a1, task, at, outcome, draw).0, RecordOutcome(c, b1, task, at, outcome, draw).0, p.request.id, at);
  }

  lemma {:induction false} RecordAllTwin(c: Config, a: State, b: State, task: Id, now: Time, outcomes: seq<Outcome>, draws: seq<Draw>)
    requires |draws| == |outcomes| && Twin(a, b)
    ensures Twin(RecordAll(c, a, task, now, outcomes, draws).0, RecordAll(c, b, task, now, outcomes, draws).0)
    ensures RecordAll(c, a, task, now, outcomes, draws).1 == RecordAll(c, b, task, now, outcomes, draws).1
  {
    hide RecordOutcome, Twin;
    if outcomes != [] {
      var last := |outcomes| - 1;
      RecordAllTwin(c, a, b, task, now, outcomes[..last], draws[..last]);
      RecordOutcomeTwin(c, RecordAll(c, a, task, now, outcomes[..last], draws[..last]).0,
                        RecordAll(c, b, task, now, outcomes[..last], draws[..last]).0, task, now, outcomes[last], draws[last]);
    }
  }

  lemma {:induction false} DebitReceiptsTwin(c: Config, a: State, b: State, p: Permit, receipts: seq<Receipt>, now: Time)
    requires Twin(a, b)
    ensures Twin(DebitReceipts(c, a, p, receipts, now), DebitReceipts(c, b, p, receipts, now))
    decreases receipts
  {
    hide Normalized, Spend;
    if receipts != [] {
      DebitReceiptsTwin(c, DebitReceipt(c, a, p, receipts[0], now), DebitReceipt(c, b, p, receipts[0], now), p, receipts[1..], now);
    }
  }

  lemma FailureTwin(c: Config, a: State, b: State, p: Permit, error: PermitError, debit: bool, delivery: Delivery, now: Time, choice: Choice)
    requires Twin(a, b)
    ensures var (a', pa, resultA) := ReceiptFailure(c, a, p, error, debit, delivery, now, choice);
            var (b', pb, resultB) := ReceiptFailure(c, b, p, error, debit, delivery, now, choice);
            Twin(a', b') && pa == pb && resultA == resultB
  {
    hide Survey, Complete, Vacate, Spend;
    var a1 := Survey(c, Distrusted(a), p.request.task, now, choice);
    var b1 := Survey(c, Distrusted(b), p.request.task, now, choice);
    SurveyTwin(c, Distrusted(a), Distrusted(b), p.request.task, now, choice);
    CompleteTwin(if debit then DebitUncertain(c, a1, p.request, p.startedAt, now) else a1,
                 if debit then DebitUncertain(c, b1, p.request, p.startedAt, now) else b1, p.request.id, now);
  }

  lemma ReconciledTwin(c: Config, a: State, b: State, p: Permit, outcome: Outcome, receipts: seq<Receipt>, novel: seq<Receipt>,
                       error: Option<PermitError>, now: Time, surveyed: Choice, draws: seq<Draw>)
    requires Twin(a, b) && novel != [] && |draws| == |OutcomesToRecord(novel, CallOutcome(outcome))|
    ensures var (a', pa, resultA) := FinishReconciled(c, a, p, outcome, receipts, novel, error, now, surveyed, draws);
            var (b', pb, resultB) := FinishReconciled(c, b, p, outcome, receipts, novel, error, now, surveyed, draws);
            Twin(a', b') && pa == pb && resultA == resultB
  {
    hide Survey, Remember, DebitReceipts, RecordAll, OutcomesToRecord, CallOutcome, LatestStart, SettledClass, Complete, Vacate, Recoverable;
    var task := p.request.task;
    var ra, rb := a.(attemptIDs := Remember(a.attemptIDs, novel, now)), b.(attemptIDs := Remember(b.attemptIDs, novel, now));
    SurveyTwin(c, ra, rb, task, now, surveyed);
    DebitReceiptsTwin(c, Survey(c, ra, task, now, surveyed), Survey(c, rb, task, now, surveyed), p, novel, now);
    var plan := OutcomesToRecord(novel, CallOutcome(outcome));
    var a2, b2 := Reconciled(c, a, p, novel, now, surveyed), Reconciled(c, b, p, novel, now, surveyed);
    RecordAllTwin(c, a2, b2, task, now, plan, draws);
    var a3, b3 := RecordAll(c, a2, task, now, plan, draws).0, RecordAll(c, b2, task, now, plan, draws).0;
    var latest := LatestStart(novel, p.startedAt, now);
    var a4 := (if error.Some? then Distrusted(a3) else a3).(lastStart := Max(a3.lastStart, latest));
    var b4 := (if error.Some? then Distrusted(b3) else b3).(lastStart := Max(b3.lastStart, latest));
    CompleteTwin(a4, b4, p.request.id, now);
  }

  lemma ReceiptsTwin(c: Config, a: State, b: State, p: Permit, outcome: Outcome, set_: Option<ReceiptSet>, now: Time, draws: Draws)
    requires Twin(a, b)
    requires Settles(c, a, p, outcome, set_, now, draws.evicted) ==>
      |draws.outcomes| == |OutcomesToRecord(NewReceipts(a, set_.value, now, draws.evicted), CallOutcome(outcome))|
    ensures var (a', pa, resultA) := FinishReceipts(c, a, p, outcome, set_, now, draws);
            var (b', pb, resultB) := FinishReceipts(c, b, p, outcome, set_, now, draws);
            Twin(a', b') && pa == pb && resultA == resultB
  {
    hide Rejection, ReceiptFailure, FinishReconciled, PolicyError, OutcomesToRecord, CallOutcome, YoungAttempts, Unseen;
    if FinishError(p).None? && p.receiptAware {
      if set_.None? || Rejection(set_.value, Expected(c, p, now)).Some? {
        FailureTwin(c, a, b, p, ReceiptsInvalid, true, outcome.delivery, now, draws.surveyed);
      } else {
        var pa := a.(attemptIDs := YoungAttempts(a.attemptIDs, now) - draws.evicted);
        var pb := b.(attemptIDs := YoungAttempts(b.attemptIDs, now) - draws.evicted);
        var novel := NewReceipts(a, set_.value, now, draws.evicted);
        var policy := PolicyError(c, set_.value, p, now, |novel| < |set_.value.receipts|);
        if novel == [] {
          FailureTwin(c, pa, pb, p, if policy.Some? then policy.value else ReceiptReplayed, false, outcome.delivery, now, draws.surveyed);
        } else {
          ReconciledTwin(c, pa, pb, p, outcome, set_.value.receipts, novel, policy, now, draws.surveyed, draws.outcomes);
        }
      }
    }
  }

  // ----- Runs -----

  ghost predicate Mirrored(w: World, w': World, since: Time) {
    && OneLane(w)
    && Matched(w.gov, w'.gov, since) && since <= w.clock
    && w'.permits == w.permits && w'.refreshes == w.refreshes && w'.clock == w.clock
  }

  // A section that reuses no request id either governor knows and acts on no
  // clock reading from before `since`.
  predicate Comparable(w: World, w': World, step: Label, since: Time) {
    && (step.Admit? || step.Join? ==> step.request.id !in w.gov.requestIDs && step.request.id !in w'.gov.requestIDs)
    && (step.Look? ==> since <= step.now)
  }

  lemma AskingStepMirrors(c: Config, w: World, w': World, step: Label, since: Time)
    requires Mirrored(w, w', since) && Enabled(c, w, step) && Comparable(w, w', step, since) && (step.Admit? || step.Join? || step.Look?)
    ensures Enabled(c, w', step) && Mirrored(Step(c, w, step), Step(c, w', step), since)
  {
    hide TryAdmit, Enqueue, QueueCheck, Matched, OneLane;
    StepKeepsOneLane(c, w, step);
    MatchedMeans(w.gov, w'.gov, since);
    QueuesAlike(w.gov, w'.gov);
    match step {
      case Admit(request, at, observed, cancelled, pruned, checked) =>
        AdmitMatches(c, w.gov, w'.gov, since, request, at, observed, cancelled, pruned, checked);
      case Join(request, at, pruned) => JoinMatches(c, w.gov, w'.gov, since, request, at, pruned);
      case Look(index, now, at, observed, cancelled, checked) =>
        LookMatches(c, w.gov, w'.gov, since, index, now, at, observed, cancelled, checked);
    }
  }

  // A live permit's sections run on circuits that agree; those of a completed
  // permit do nothing on either side.
  lemma PermitStepMirrors(c: Config, w: World, w': World, step: Label, since: Time)
    requires Mirrored(w, w', since) && Enabled(c, w, step)
    requires step.Begin? || step.Abandon? || step.Abort? || step.Finish? || step.FinishWithReceipts?
    ensures Enabled(c, w', step) && Mirrored(Step(c, w, step), Step(c, w', step), since)
  {
    hide Lane.Start, Lane.Finish, FinishReceipts, Complete, Vacate, NewSightings, SameQueue;
    StepKeepsOneLane(c, w, step);
    assert Enabled(c, w', step);
    if w.permits[step.permit].completed {
      CompletedForGood(c, w, step, step.permit);
      CompletedForGood(c, w', step, step.permit);
    } else {
      LivePermitMirrors(c, w, w', step, since);
    }
  }

  lemma LivePermitMirrors(c: Config, w: World, w': World, step: Label, since: Time)
    requires Mirrored(w, w', since) && Enabled(c, w, step) && Enabled(c, w', step)
    requires step.Begin? || step.Abandon? || step.Abort? || step.Finish? || step.FinishWithReceipts?
    requires !w.permits[step.permit].completed
    ensures Matched(Step(c, w, step).gov, Step(c, w', step).gov, since)
    ensures var (u, u') := (Step(c, w, step), Step(c, w', step));
            u.permits == u'.permits && u.refreshes == u'.refreshes && u.clock == u'.clock
  {
    hide Lane.Start, Lane.Finish, FinishReceipts, Complete, Vacate, NewSightings, Matched;
    var a, b, p := w.gov, w'.gov, w.permits[step.permit];
    InFlightMeansTwin(a, b, since);
    match step {
      case Begin(_, receiptAware, at, surveyed) => StartTwin(c, a, b, p, receiptAware, at, surveyed);
      case Finish(_, outcome, at, surveyed, draw) => FinishTwin(c, a, b, p, outcome, at, surveyed, draw);
      case FinishWithReceipts(_, outcome, set_, at, draws) => ReceiptsTwin(c, a, b, p, outcome, set_, at, draws);
      case Abort(_, at) => CompleteTwin(a, b, p.request.id, at);
      case Abandon(_) => AbandonTwin(a, b, p);
    }
    TwinsMatch(Step(c, w, step).gov, Step(c, w', step).gov, since);
  }

  lemma InFlightMeansTwin(a: State, b: State, since: Time)
    requires Matched(a, b, since) && a.inFlight
    ensures Twin(a, b)
  {
  }

  lemma AbandonTwin(a: State, b: State, p: Permit)
    requires Twin(a, b)
    ensures Twin(CancelBeforeStart(a, p).0, CancelBeforeStart(b, p).0) && CancelBeforeStart(a, p).1 == CancelBeforeStart(b, p).1
  {
  }

  lemma OtherStepMirrors(c: Config, w: World, w': World, step: Label, since: Time)
    requires Mirrored(w, w', since) && Enabled(c, w, step)
    requires step.BeginRefresh? || step.FinishRefresh? || step.Acknowledge? || step.Save? || step.Emit? || step.Leave? || step.Shut?
    ensures Enabled(c, w', step) && Mirrored(Step(c, w, step), Step(c, w', step), since)
  {
    hide Lane.Expire, OneLane;
    StepKeepsOneLane(c, w, step);
    if step.Save? {
      ExpireMatched(c, w.gov, w'.gov, since, step.at, step.pruned);
    } else if step.Emit? {
      SurveyMatched(c, w.gov, w'.gov, since, step.task, step.at, step.surveyed);
    } else if step.Leave? {
      LeavingMatches(w.gov, w'.gov, step.index, since);
    }
  }

  lemma StepMirrors(c: Config, w: World, w': World, step: Label, since: Time)
    requires Mirrored(w, w', since) && Enabled(c, w, step) && Comparable(w, w', step, since)
    ensures Enabled(c, w', step) && Mirrored(Step(c, w, step), Step(c, w', step), since)
  {
    hide Step, Mirrored, Enabled;
    if step.Admit? || step.Join? || step.Look? {
      AskingStepMirrors(c, w, w', step, since);
    } else if step.Begin? || step.Abandon? || step.Abort? || step.Finish? || step.FinishWithReceipts? {
      PermitStepMirrors(c, w, w', step, since);
    } else {
      OtherStepMirrors(c, w, w', step, since);
    }
  }

  // A run of such sections, started in both worlds.
  predicate ComparableRun(c: Config, w: World, w': World, steps: seq<Label>, since: Time)
    requires Runnable(c, w, steps)
    decreases |steps|
  {
    steps == [] ||
    (Comparable(w, w', steps[0], since) &&
     (Enabled(c, w', steps[0]) ==> ComparableRun(c, Step(c, w, steps[0]), Step(c, w', steps[0]), steps[1..], since)))
  }

  lemma {:induction false} RunMirrors(c: Config, w: World, w': World, steps: seq<Label>, since: Time)
    requires Mirrored(w, w', since) && Runnable(c, w, steps) && ComparableRun(c, w, w', steps, since)
    ensures Runnable(c, w', steps) && Mirrored(Run(c, w, steps), Run(c, w', steps), since)
    decreases |steps|
  {
    hide Step, Mirrored, Enabled, Comparable;
    if steps != [] {
      StepMirrors(c, w, w', steps[0], since);
      RunMirrors(c, Step(c, w, steps[0]), Step(c, w', steps[0]), steps[1..], since);
    }
  }

  // ----- The restart is invisible -----

  lemma ExpireKeepsRestorable(c: Config, s: State, now: Time, choice: Choice)
    requires Restorable(s)
    ensures Restorable(Lane.Expire(c, s, now, choice))
  {
    hide PruneRequests, RecentRates, ExpireTelemetry, YoungTasks, Keepers;
  }

  lemma MatchedExpiryMatchesChecks(c: Config, a: State, b: State, request: Request, now: Time, at: Time, choice: Choice)
    requires Matched(Lane.Expire(c, a, now, choice), Lane.Expire(c, b, now, choice), now)
    ensures Check(c, a, request, now, at, choice).1 == Check(c, b, request, now, at, choice).1
  {
    hide Lane.Expire, CircuitChecked, GateVerdict, Touched, Matched;
    var a1, b1 := Lane.Expire(c, a, now, choice), Lane.Expire(c, b, now, choice);
    VerdictsMatch(c, a1, b1, now, now);
    MatchedMeans(a1, b1, now);
  }

  /** Straight after the restart of an idle governor, every check gets the
      verdict the original would have given, at every later instant and for
      every request. */
  lemma RestartedChecksAlike(c: Config, clock: Time, history: seq<Label>, s: State, saveAt: Time, saving: Choice, restart: Time,
                             restoring: Choice, request: Request, now: Time, at: Time, choice: Choice)
    requires ZERO < clock && Runnable(c, Initially(clock), history) && s == Run(c, Initially(clock), history).gov
    requires Idle(s) && Fits(s, saveAt, saving) && restart <= now
    requires var saved := Saved(c, s, saveAt, saving); Fits(Merge(FRESH, Project(saved), restart), restart, restoring)
    ensures var saved := Saved(c, s, saveAt, saving);
            Check(c, saved, request, now, at, choice).1 == Check(c, Restarted(saved, restart, restoring), request, now, at, choice).1
  {
    hide Lane.Expire, Restarted, ChoiceFits, Readable, Merge, Project, Matched, Check, Run, Runnable, Real;
    ReachedIsReal(c, clock, history);
    var saved := Saved(c, s, saveAt, saving);
    ExpireKeepsRestorable(c, s, saveAt, saving);
    ExpiredFits(c, s, saveAt, saving);
    ExpiryHidesTheRestart(c, saved, restart, restoring, now, choice);
    MatchedExpiryMatchesChecks(c, saved, Restarted(saved, restart, restoring), request, now, at, choice);
  }

  // The world that carries on from a save, and the one restored from it, once
  // the first section has let what is old expire.
  function Original(c: Config, w: World, saveAt: Time, saving: Choice, now: Time, choice: Choice): World {
    w.(gov := Lane.Expire(c, Saved(c, w.gov, saveAt, saving), now, choice), clock := now)
  }

  function Successor(c: Config, w: World, saveAt: Time, saving: Choice, restart: Time, restoring: Choice, now: Time, choice: Choice): World {
    w.(gov := Lane.Expire(c, Restarted(Saved(c, w.gov, saveAt, saving), restart, restoring), now, choice), clock := now)
  }

  lemma RestartMirrors(c: Config, w: World, saveAt: Time, saving: Choice, restart: Time, restoring: Choice, now: Time, choice: Choice)
    requires OneLane(w) && Restorable(w.gov) && w.clock <= saveAt <= restart <= now && Fits(w.gov, saveAt, saving)
    requires var saved := Saved(c, w.gov, saveAt, saving); Fits(Merge(FRESH, Project(saved), restart), restart, restoring)
    ensures Mirrored(Original(c, w, saveAt, saving, now, choice), Successor(c, w, saveAt, saving, restart, restoring, now, choice), now)
  {
    hide Lane.Expire, Restarted, ChoiceFits, Restorable, Merge, Project, Matched;
    var saved := Saved(c, w.gov, saveAt, saving);
    ExpireKeepsRestorable(c, w.gov, saveAt, saving);
    ExpiredFits(c, w.gov, saveAt, saving);
    ExpiryHidesTheRestart(c, saved, restart, restoring, now, choice);
    LaneStaysIdle(c, w, saveAt, saving, now, choice);
  }

  /** Over whole runs: an idle governor, whatever it has been through, is saved,
      time passes, and either it carries on or a fresh one restored from the
      projection takes its place.
      From the next section on, every run (callers queueing or not, plain or
      with receipts, with refreshes, acknowledgements and a shutdown) that is
      possible for the original is possible for the restored governor, answers
      every caller alike, grants the same permits at the same sequence numbers
      and leaves the same protections behind. */
  lemma RestartIsInvisible(c: Config, clock: Time, history: seq<Label>, w: World, saveAt: Time, saving: Choice, restart: Time,
                           restoring: Choice, now: Time, choice: Choice, steps: seq<Label>)
    requires ZERO < clock && Runnable(c, Initially(clock), history) && w == Run(c, Initially(clock), history)
    requires Idle(w.gov) && w.refreshes == 0 && w.clock <= saveAt <= restart <= now && Fits(w.gov, saveAt, saving)
    requires var saved := Saved(c, w.gov, saveAt, saving); Fits(Merge(FRESH, Project(saved), restart), restart, restoring)
    requires var original := Original(c, w, saveAt, saving, now, choice);
             Runnable(c, original, steps)
             && ComparableRun(c, original, Successor(c, w, saveAt, saving, restart, restoring, now, choice), steps, now)
    ensures var original := Original(c, w, saveAt, saving, now, choice);
            var successor := Successor(c, w, saveAt, saving, restart, restoring, now, choice);
            && Runnable(c, successor, steps)
            && Run(c, successor, steps).permits == Run(c, original, steps).permits
            && Matched(Run(c, original, steps).gov, Run(c, successor, steps).gov, now)
  {
    hide Lane.Expire, Restarted, ChoiceFits, Idle, Readable, Real, Merge, Project, Matched, Runnable, Run, ComparableRun, Original, Successor;
    ReachedIsReal(c, clock, history);
    RestartMirrors(c, w, saveAt, saving, restart, restoring, now, choice);
    RunMirrors(c, Original(c, w, saveAt, saving, now, choice), Successor(c, w, saveAt, saving, restart, restoring, now, choice), steps, now);
  }

  lemma LaneStaysIdle(c: Config, w: World, saveAt: Time, saving: Choice, now: Time, choice: Choice)
    requires OneLane(w)
    ensures OneLane(Original(c, w, saveAt, saving, now, choice))
  {
    hide PruneRequests, RecentRates, ExpireTelemetry, YoungTasks, YoungAttempts, Keepers;
  }

  // ----- Restoring on any governor -----

  lemma {:induction false} DatedIs(events: seq<Event>, e: Event)
    ensures multiset(Dated(events))[e] == if e.at == ZERO then 0 else multiset(events)[e]
  {
    if events != [] {
      DatedIs(events[1..], e);
      assert events == [events[0]] + events[1..];
    }
  }

  /** A restore, of whatever projection on whatever governor: saved debits that
      have a date join those in memory, saved identities that have one replace
      them, the next sequence number never falls, a remaining count not saved
      stays, and the saved circuit comes back unless its window has passed, when
      it comes back closed. */
  lemma RestoreMerges(s: State, saved: Persisted, now: Time, pruned: Choice, e: Event)
    ensures var s' := Restore(s, saved, now, pruned);
            && |s.ledger| <= |s'.ledger| && s'.ledger[..|s.ledger|] == s.ledger
            && multiset(s'.ledger)[e] == multiset(s.ledger)[e] + (if e.at == ZERO then 0 else multiset(saved.rolling)[e])
            && s'.nextAttempt in {s.nextAttempt, saved.nextAttempt} && s.nextAttempt <= s'.nextAttempt && saved.nextAttempt <= s'.nextAttempt
            && s'.telemetry.available == (if saved.telemetry.available == None then s.telemetry.available else saved.telemetry.available)
            && s'.telemetry.(available := None) == saved.telemetry.(available := None)
            && s'.lastStart == saved.lastStart && s'.cooldownUntil == saved.cooldownUntil
            && s'.circuit.rateEvents == saved.rateEvents && s'.circuit.lastRateReset == saved.lastRateReset
            && (forall id :: id in s'.attemptIDs ==>
                  if id in saved.attemptIDs && saved.attemptIDs[id] != ZERO then s'.attemptIDs[id] == saved.attemptIDs[id]
                  else id in s.attemptIDs && s'.attemptIDs[id] == s.attemptIDs[id])
    ensures saved.circuit.Some? ==>
              var kept, back := saved.circuit.value, Restore(s, saved, now, pruned).circuit;
              if kept.state.OpenUntil? && kept.openUntil != ZERO && kept.openUntil <= now then
                back.state == Closed && back.reason == Unclassified && back.openUntil == ZERO && back.refreshRequired == kept.refreshRequired
              else Snapshot(back) == kept
  {
    hide PruneRequests, YoungTasks, Keepers, Dated;
    DatedIs(saved.rolling, e);
    assert multiset(s.ledger + Dated(saved.rolling)) == multiset(s.ledger) + multiset(Dated(saved.rolling));
  }

  // ----- Restoring twice -----

  /** Restoring a second time is no restart: on a governor that already holds
      the projection it doubles the number of debits in every window. */
  lemma SecondRestoreDoubles(c: Config, clock: Time, history: seq<Label>, s: State, restart: Time, restoring: Choice, again: Time, choice: Choice, cutoff: Time)
    requires ZERO < clock && Runnable(c, Initially(clock), history) && s == Run(c, Initially(clock), history).gov
    ensures var once := Restarted(s, restart, restoring);
            && CountAfter(once.ledger, cutoff) == CountAfter(s.ledger, cutoff)
            && CountAfter(Restore(once, Project(s), again, choice).ledger, cutoff) == 2 * CountAfter(s.ledger, cutoff)
  {
    hide Prune, RestoreCircuit, MergeSeen, Dated, Run, Runnable;
    ReachedIsReal(c, clock, history);
    DatedKeepsAll(s.ledger);
    var once := Restarted(s, restart, restoring);
    PruneSparesLedger(Merge(FRESH, Project(s), restart), restart, restoring);
    PruneSparesLedger(Merge(once, Project(s), again), again, choice);
    assert [] + s.ledger == s.ledger;
    CountAfterConcat(s.ledger, s.ledger, cutoff);
  }

  lemma PruneSparesLedger(s: State, now: Time, choice: Choice)
    ensures Prune(s, now, choice).ledger == s.ledger
  {
    hide PruneRequests, YoungTasks, YoungAttempts, Keepers;
  }
}
