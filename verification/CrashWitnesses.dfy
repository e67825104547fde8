/** Two histories of the attempt protocol, run on the governor itself: one that
    settles a call without a debit because its receipts were all replayed, and
    one that debits a call twice because the projection is restored twice.
 */
module CrashWitnesses {
  import opened Clock
  import opened Policy
  import opened Ledger
  import opened Retention
  import opened AttemptReceipts
  import opened Lane
  import opened Runs
  import opened CrashRecovery
  import opened CrashRuns
  import opened CrashEvictions
  import DeliverySafety

  const POLICY := Config(UnlimitedText, 0, 0, 0, 0, 5, 1, 1, 1, SECOND, true, 2, TEN_MINUTES, SECOND, "p", "m", "h")
  const NOON: Time := YEAR_2000
  const LATER: Time := YEAR_2000 + MINUTE
  const NONE := Choice({}, {})
  const FIRST := Request("task", "one", false)
  const SECOND_ONE := Request("task", "two", false)

  const ATTEMPT := "attempt"
  const SERVED := Outcome(Success, 0, ZERO, Delivered)
  const DRAWN := Draw(0, NONE)
  const ONE_DRAW := Draws({}, NONE, [DRAWN])

  // Both calls are answered with the same attempt.
  function Answer(request: Request): Receipt {
    Receipt(1, ATTEMPT, request.id, 1, "p", "m", "h", NOON, NOON, Ok, Initial, true)
  }

  function Answers(request: Request): ReceiptSet {
    ReceiptSet(1, request.id, true, [Answer(request)], 500)
  }

  // What the first call leaves on the ledger.
  const ENTRY := Event(NOON, "task")

  const TASKS: set<Id> := {"task", ""}
  const IDS: set<Id> := {ATTEMPT}

  predicate AllBare(acts: seq<Act>) {
    forall i :: 0 <= i < |acts| ==> BareAct(acts[i], TASKS, IDS)
  }

  // ----- A lane on which nothing has gone wrong -----

  // Nobody waits, nothing holds the lane back, and only the ids in `known` are
  // recorded.
  predicate Quiet(s: State, known: set<Id>, most: nat) {
    && !s.closed && s.queue == []
    && s.circuit == FRESH_CIRCUIT && s.cooldownUntil == ZERO && s.telemetry == FRESH_TELEMETRY
    && (s.lastStart == ZERO || s.lastStart <= NOON)
    && (forall task :: task in s.tasks ==> s.tasks[task].attempts <= most)
    && s.requestIDs.Keys <= known
  }

  lemma PruneKeepsQuiet(s: State, known: set<Id>, most: nat, at: Time)
    requires Quiet(s, known, most)
    ensures Quiet(Prune(s, at, NONE), known, most)
    ensures Prune(s, at, NONE).attemptIDs == YoungAttempts(s.attemptIDs, at)
  {
    hide YoungAttempts, Keepers;
    Retention.PruneForgetsOnlyCompleted(s.completed, s.requestIDs, at);
    assert YoungAttempts(s.attemptIDs, at) - {} == YoungAttempts(s.attemptIDs, at);
  }

  lemma ExpireKeepsQuiet(s: State, known: set<Id>, most: nat, at: Time)
    requires Quiet(s, known, most)
    ensures var s' := Lane.Expire(POLICY, s, at, NONE);
            && Quiet(s', known, most) && s'.attemptIDs == YoungAttempts(s.attemptIDs, at)
            && s'.inFlight == s.inFlight && s'.activeTask == s.activeTask && s'.ledger == DropExpired(s.ledger, at - THREE_HOURS)
  {
    hide Prune, DropExpired;
    PruneKeepsQuiet(s, known, most, at);
    PruneKeepsLane(s, at);
  }

  lemma PruneKeepsLane(s: State, at: Time)
    ensures var s' := Prune(s, at, NONE); s'.inFlight == s.inFlight && s'.activeTask == s.activeTask && s'.ledger == s.ledger
  {
    hide PruneRequests, YoungTasks, YoungAttempts, Keepers;
  }

  lemma TouchKeepsQuiet(s: State, known: set<Id>, most: nat, task: Id, at: Time)
    requires Quiet(s, known, most)
    ensures Quiet(s.(tasks := Touched(s.tasks, task, at)), known, most)
  {
  }

  // An idle quiet lane grants a fresh request.
  lemma QuietGrants(s: State, known: set<Id>, most: nat, request: Request, at: Time)
    requires Quiet(s, known, most) && !s.inFlight && request.id !in known && !request.retry
    requires ZERO < at && most < 5 && (s.lastStart == ZERO || NOON + SECOND <= at)
    ensures var (s', admission) := TryAdmit(POLICY, s, request, at, None, false, NONE, NONE);
            && admission == Granted(Fresh(request))
            && Quiet(s', known + {request.id}, most) && s'.inFlight && s'.activeTask == request.task
            && s'.attemptIDs == YoungAttempts(YoungAttempts(s.attemptIDs, at), at)
            && s'.ledger == DropExpired(s.ledger, at - THREE_HOURS)
            && s'.lastStart == s.lastStart
  {
    hide Prune, Lane.Expire, Touched, YoungAttempts, DropExpired;
    var s1 := Prune(s, at, NONE);
    PruneKeepsQuiet(s, known, most, at);
    PruneKeepsLane(s, at);
    KeepsLastStart(s, at);
    var s2 := Lane.Expire(POLICY, s1, at, NONE);
    ExpireKeepsQuiet(s1, known, most, at);
    KeepsLastStart(s1, at);
    TouchKeepsQuiet(s2, known, most, request.task, at);
    TouchedCount(s2.tasks, most, request.task, at);
    assert Check(POLICY, s1, request, at, at, NONE) == (s2.(tasks := Touched(s2.tasks, request.task, at)), Verdict.Pass);
  }

  lemma TouchedCount(tasks: map<Id, Task>, most: nat, task: Id, at: Time)
    requires forall t :: t in tasks ==> tasks[t].attempts <= most
    ensures task in Touched(tasks, task, at) && Touched(tasks, task, at)[task].attempts <= most
  {
  }

  lemma KeepsLastStart(s: State, at: Time)
    ensures Prune(s, at, NONE).lastStart == s.lastStart && Lane.Expire(POLICY, s, at, NONE).lastStart == s.lastStart
  {
    hide PruneRequests, YoungTasks, YoungAttempts, Keepers, RecentRates, ExpireTelemetry, DropExpired;
  }

  // The attempt named by the receipts is remembered from the first call on.
  predicate Retains(s: State) {
    ATTEMPT in s.attemptIDs && s.attemptIDs[ATTEMPT] == NOON
  }

  lemma YoungRetained(seen: map<Id, Time>, at: Time)
    requires at <= NOON + HOUR
    ensures ATTEMPT in seen && seen[ATTEMPT] == NOON ==> ATTEMPT in YoungAttempts(seen, at) && YoungAttempts(seen, at)[ATTEMPT] == NOON
    ensures seen == map[] ==> YoungAttempts(seen, at) == map[]
  {
  }

  lemma YoungEntry(at: Time)
    requires at <= NOON + HOUR
    ensures DropExpired([ENTRY], at - THREE_HOURS) == [ENTRY] && DropExpired([], at - THREE_HOURS) == [] && Dated([ENTRY]) == [ENTRY]
  {
    assert [ENTRY][1..] == [];
  }

  lemma SurveyKeepsQuiet(s: State, known: set<Id>, most: nat, task: Id, at: Time)
    requires Quiet(s, known, most)
    ensures var s' := Survey(POLICY, s, task, at, NONE);
            && Quiet(s', known, most) && s'.attemptIDs == YoungAttempts(s.attemptIDs, at)
            && s'.inFlight == s.inFlight && s'.activeTask == s.activeTask && s'.ledger == DropExpired(s.ledger, at - THREE_HOURS)
            && s'.nextAttempt == s.nextAttempt
  {
    hide Lane.Expire, DropExpired, YoungAttempts;
    ExpireKeepsQuiet(s, known, most, at);
    TouchKeepsQuiet(Lane.Expire(POLICY, s, at, NONE), known, most, task, at);
    KeepsNextAttempt(s, at);
  }

  lemma KeepsNextAttempt(s: State, at: Time)
    ensures Lane.Expire(POLICY, s, at, NONE).nextAttempt == s.nextAttempt
  {
    hide PruneRequests, YoungTasks, YoungAttempts, Keepers, RecentRates, ExpireTelemetry, DropExpired;
  }

  lemma AwareStart(s: State, known: set<Id>, most: nat, request: Request, at: Time)
    requires Quiet(s, known, most) && s.inFlight && request.id in known
    ensures var (s', p', error) := Lane.Start(POLICY, s, Lane.Fresh(request), true, at, NONE);
            && error.None? && p' == Permit(request, true, false, true, at, s.nextAttempt)
            && Quiet(s', known, most) && s'.inFlight && s'.activeTask == s.activeTask
            && s'.attemptIDs == YoungAttempts(s.attemptIDs, at)
            && s'.ledger == DropExpired(s.ledger, at - THREE_HOURS)
  {
    hide Survey, YoungAttempts, DropExpired;
    SurveyKeepsQuiet(s, known, most, request.task, at);
    assert StartError(s, Lane.Fresh(request)).None?;
  }

  lemma AnswersAreAccepted(p: Permit, at: Time)
    requires p.request in {FIRST, SECOND_ONE} && NOON <= p.startedAt <= LATER && NOON <= at <= LATER
    ensures Rejection(Answers(p.request), Expected(POLICY, p, at)).None?
  {
    AcceptsExactlyWellFormed(Answers(p.request), Expected(POLICY, p, at));
  }

  lemma RecordingKeepsQuiet(s: State, known: set<Id>, most: nat, task: Id, at: Time)
    requires Quiet(s, known, most)
    ensures var s' := RecordOutcome(POLICY, s, task, at, SERVED, DRAWN).0;
            && Quiet(s', known, most) && s'.attemptIDs == s.attemptIDs && s'.ledger == s.ledger
            && s'.inFlight == s.inFlight && s'.nextAttempt == s.nextAttempt
  {
    TouchKeepsQuiet(s, known, most, task, at);
  }

  // A receipt repeats the call's own outcome without its delivery.
  lemma RecordedAlike(s: State, task: Id, at: Time)
    ensures RecordOutcome(POLICY, s, task, at, Outcome(Success, 0, ZERO, Unobserved), DRAWN).0 == RecordOutcome(POLICY, s, task, at, SERVED, DRAWN).0
  {
  }

  lemma CompletingKeepsQuiet(s: State, known: set<Id>, most: nat, id: Id, at: Time)
    requires Quiet(s, known, most) && id in known
    ensures var s' := Vacate(Complete(s, id, at));
            Quiet(s', known, most) && !s'.inFlight && s'.attemptIDs == s.attemptIDs && s'.ledger == s.ledger
  {
  }

  lemma AwareFinish(s: State, known: set<Id>, most: nat, p: Permit)
    requires Quiet(s, known, most) && FIRST.id in known && s.attemptIDs == map[] && s.ledger == []
    requires p == Permit(FIRST, true, false, true, NOON, p.attemptSequence)
    ensures NewReceipts(s, Answers(FIRST), NOON, {}) == [Answer(FIRST)]
    ensures |OutcomesToRecord([Answer(FIRST)], CallOutcome(SERVED))| == 1
    ensures var (s', p', result) := FinishReceipts(POLICY, s, p, SERVED, Some(Answers(FIRST)), NOON, ONE_DRAW);
            && Quiet(s', known, most + 1) && !s'.inFlight && Retains(s') && p' == p.(completed := true)
            && s'.ledger == [ENTRY] && result.debited == 1 && result.outcome.Success?
  {
    hide Complaints, Survey, Complete, Vacate, RecordOutcome, DropExpired, YoungAttempts, IdentifierValid, SettledClass, Quiet, Normalized;
    YoungEntry(NOON);
    ServedSettles();
    var r := Answer(FIRST);
    AnswersAreAccepted(p, NOON);
    YoungRetained(map[], NOON);
    DeliverySafety.OneUnseen(r, map[]);
    assert YoungAttempts(s.attemptIDs, NOON) - {} == map[] && s.(attemptIDs := map[]) == s;
    assert map[][ATTEMPT := NOON] == Remember(map[], [r], NOON) by {
      assert [r][1..] == [];
    }
    var remembered := s.(attemptIDs := map[ATTEMPT := NOON]);
    RememberingKeepsQuiet(s, known, most);
    SurveyKeepsQuiet(remembered, known, most, "task", NOON);
    YoungRetained(remembered.attemptIDs, NOON);
    var s1 := Survey(POLICY, remembered, "task", NOON, NONE);
    var s2 := DebitReceipt(POLICY, s1, p, r, NOON);
    assert DebitReceipts(POLICY, s1, p, [r], NOON) == s2 by {
      assert [r][1..] == [];
    }
    DebitKeepsQuiet(s1, known, most, p, r);
    var outcome := Outcome(Success, 0, ZERO, Unobserved);
    assert OutcomesToRecord([r], SERVED) == [outcome];
    assert RecordAll(POLICY, s2, "task", NOON, [outcome][..0], [DRAWN][..0]) == (s2, 0);
    RecordedAlike(s2, "task", NOON);
    var s3 := RecordOutcome(POLICY, s2, "task", NOON, SERVED, DRAWN).0;
    assert RecordAll(POLICY, s2, "task", NOON, [outcome], [DRAWN]).0 == s3;
    RecordingKeepsQuiet(s2, known, most + 1, "task", NOON);
    LatestIsNoon(p, r);
    var s4 := s3.(lastStart := Max(s3.lastStart, NOON));
    LaterStartKeepsQuiet(s3, known, most + 1);
    CompletingKeepsQuiet(s4, known, most + 1, FIRST.id, NOON);
  }

  lemma ServedSettles()
    ensures SettledClass(SERVED, [Answer(FIRST)], [Answer(FIRST)]) == Success
  {
    assert [Answer(FIRST)][..0] == [];
    assert Aggregate(Success, [Answer(FIRST)]) == Success;
  }

  lemma RememberingKeepsQuiet(s: State, known: set<Id>, most: nat)
    requires Quiet(s, known, most)
    ensures Quiet(s.(attemptIDs := map[ATTEMPT := NOON]), known, most)
  {
  }

  lemma LatestIsNoon(p: Permit, r: Receipt)
    requires p.startedAt == NOON && r.startedAt == NOON
    ensures LatestStart([r], p.startedAt, NOON) == NOON
  {
    assert LatestStart([r][..0], p.startedAt, NOON) == ZERO;
  }

  lemma LaterStartKeepsQuiet(s: State, known: set<Id>, most: nat)
    requires Quiet(s, known, most)
    ensures Quiet(s.(lastStart := Max(s.lastStart, NOON)), known, most)
  {
  }

  lemma DebitKeepsQuiet(s: State, known: set<Id>, most: nat, p: Permit, r: Receipt)
    requires Quiet(s, known, most) && r.sequence == 1
    requires p.startedAt == NOON && r.startedAt == NOON && p.request.task == "task"
    ensures var s' := DebitReceipt(POLICY, s, p, r, NOON);
            Quiet(s', known, most + 1) && s'.attemptIDs == s.attemptIDs && s'.ledger == s.ledger + [ENTRY]
  {
  }

  // ----- Acts -----

  lemma {:induction false} Then(s: System, acts: seq<Act>, a: Act)
    requires Feasible(POLICY, s, acts) && Possible(POLICY, CrashRuns.History(POLICY, s, acts), a)
    ensures Feasible(POLICY, s, acts + [a])
    ensures CrashRuns.History(POLICY, s, acts + [a]) == CrashRuns.Next(POLICY, CrashRuns.History(POLICY, s, acts), a)
    decreases |acts|
  {
    hide CrashRuns.Next, Possible;
    if acts == [] {
      assert [] + [a] == [a] && [a][1..] == [];
    } else {
      assert (acts + [a])[1..] == acts[1..] + [a];
      Then(CrashRuns.Next(POLICY, s, acts[0]), acts[1..], a);
    }
  }

  // What an act leaves of the store and the history.
  predicate Alongside(s: System, s': System) {
    s'.durable == s.durable && s'.next == s.next && s'.reached == s.reached && s'.replayed == s.replayed
  }

  // Memory and store before the first debit, and once it is made.
  predicate Unspent(s: System) {
    s.world.gov.ledger == [] && s.marks == []
  }

  predicate SpentOn(s: System, id: nat) {
    s.world.gov.ledger == [ENTRY] && s.marks == [id]
  }

  // Every row belongs to the one task there is.
  predicate OneTask(d: Durable) {
    forall id :: id in d.rows ==> d.rows[id].task == "task"
  }

  lemma UnspentStays(s: System, at: Time)
    requires at <= NOON + HOUR && Unspent(s)
    ensures DropExpired(s.world.gov.ledger, at - THREE_HOURS) == [] && Trail(s.marks, [], 0) == []
  {
    hide DropExpired, FirstAfter;
    YoungEntry(at);
    assert s.marks + [] == s.marks;
  }

  lemma SpentStays(s: System, id: nat)
    requires SpentOn(s, id)
    ensures DropExpired(s.world.gov.ledger, NOON - THREE_HOURS) == [ENTRY] && Trail(s.marks, [], 1) == [id]
  {
    hide DropExpired, FirstAfter;
    YoungEntry(NOON);
    assert s.marks + [] == s.marks;
  }

  function Asks(request: Request, at: Time): Label {
    Admit(request, at, None, false, NONE, NONE)
  }

  lemma AdmitAct(s: System, known: set<Id>, most: nat, request: Request, at: Time)
    requires s.phase == Phase.Ready && s.world.clock <= at && Quiet(s.world.gov, known, most) && !s.world.gov.inFlight
    requires request.id !in known && !request.retry && ZERO < at <= NOON + HOUR && most < 5 && (s.world.gov.lastStart == ZERO || NOON + SECOND <= at)
    ensures Possible(POLICY, s, Turn(Asks(request, at)))
    ensures var s' := CrashRuns.Next(POLICY, s, Turn(Asks(request, at)));
            && Alongside(s, s') && s'.phase == Phase.Ready && s'.world.clock == at
            && s'.world.permits == s.world.permits + [Lane.Fresh(request)]
            && Quiet(s'.world.gov, known + {request.id}, most) && s'.world.gov.inFlight
            && s'.world.gov.attemptIDs == YoungAttempts(YoungAttempts(s.world.gov.attemptIDs, at), at)
            && (Unspent(s) ==> Unspent(s'))
  {
    hide Lane.TryAdmit, Quiet, YoungAttempts, DropExpired, Trail;
    if Unspent(s) {
      UnspentStays(s, at);
    }
    QuietGrants(s.world.gov, known, most, request, at);
  }

  lemma SaveStep(w: World, known: set<Id>, most: nat, at: Time)
    requires w.clock <= at && Quiet(w.gov, known, most)
    ensures Enabled(POLICY, w, Save(at, NONE))
    ensures var w' := Step(POLICY, w, Save(at, NONE));
            && w'.permits == w.permits && w'.clock == at && Quiet(w'.gov, known, most) && w'.gov.inFlight == w.gov.inFlight
            && w'.gov.attemptIDs == YoungAttempts(w.gov.attemptIDs, at)
            && w'.gov.ledger == DropExpired(w.gov.ledger, at - THREE_HOURS)
  {
    hide Lane.Expire, Quiet, YoungAttempts, DropExpired;
    ExpireKeepsQuiet(w.gov, known, most, at);
  }

  // Memory between the acts of one call at `at`.
  predicate During(s: System, known: set<Id>, most: nat, permit: Permit, at: Time) {
    && s.world.clock == at && Quiet(s.world.gov, known, most) && permit.request.id in known
    && s.world.permits != [] && s.world.permits[|s.world.permits| - 1] == permit
  }

  lemma StartAct(s: System, known: set<Id>, most: nat, request: Request, at: Time)
    requires s.phase == Phase.Ready && During(s, known, most, Lane.Fresh(request), at) && s.world.gov.inFlight && at <= NOON + HOUR
    ensures var index := |s.world.permits| - 1;
            var a := Start(Begin(index, true, at, NONE));
            && Possible(POLICY, s, a)
            && var s' := CrashRuns.Next(POLICY, s, a);
               && s'.phase == Phase.Started(s.next, index) && |s'.world.permits| == |s.world.permits|
               && During(s', known, most, Permit(request, true, false, true, at, s.world.gov.nextAttempt), at)
               && s'.durable == s.durable && s'.next == s.next + 1 && s'.reached == s.reached && s'.replayed == s.replayed
               && s'.world.gov.attemptIDs == YoungAttempts(s.world.gov.attemptIDs, at)
               && (Unspent(s) ==> Unspent(s'))
  {
    hide Lane.Start, Quiet, YoungAttempts, DropExpired, Lane.Expire, Trail;
    if Unspent(s) {
      UnspentStays(s, at);
    }
    AwareStart(s.world.gov, known, most, request, at);
    assert StartError(s.world.gov, Lane.Fresh(request)).None?;
  }

  lemma IntendAct(s: System, known: set<Id>, most: nat, permit: Permit, at: Time)
    requires s.phase.Started? && s.phase.permit == |s.world.permits| - 1 && During(s, known, most, permit, at) && at <= NOON + HOUR
    requires permit.request.task == "task"
    ensures var a := Intend(Save(at, NONE));
            && Possible(POLICY, s, a)
            && var s' := CrashRuns.Next(POLICY, s, a);
               && s'.phase == Intended(s.phase.id, s.phase.permit) && |s'.world.permits| == |s.world.permits|
               && During(s', known, most, permit, at)
               && s'.next == s.next && s'.reached == s.reached && s'.replayed == s.replayed
               && s'.durable.rows.Keys == s.durable.rows.Keys + {s.phase.id}
               && s'.world.gov.attemptIDs == YoungAttempts(s.world.gov.attemptIDs, at)
               && (Unspent(s) ==> Unspent(s')) && (OneTask(s.durable) ==> OneTask(s'.durable))
  {
    hide Step, Enabled, Quiet, YoungAttempts, DropExpired, Trail, Project;
    if Unspent(s) {
      UnspentStays(s, at);
    }
    SaveStep(s.world, known, most, at);
  }

  // From the grant to the call of a receipt-aware attempt.
  lemma AwareOpening(s: System, known: set<Id>, most: nat, request: Request, at: Time) returns (end: System, acts: seq<Act>)
    requires s.phase == Phase.Ready && During(s, known, most, Lane.Fresh(request), at) && s.world.gov.inFlight
    requires at <= NOON + HOUR && request.task == "task" && OneTask(s.durable)
    ensures Feasible(POLICY, s, acts) && CrashRuns.History(POLICY, s, acts) == end
    ensures AllBare(acts)
    ensures During(end, known, most, Permit(request, true, false, true, at, s.world.gov.nextAttempt), at)
    ensures end.phase == InCall(s.next, |end.world.permits| - 1)
    ensures end.world.gov.attemptIDs == YoungAttempts(YoungAttempts(s.world.gov.attemptIDs, at), at)
    ensures end.next == s.next + 1 && end.reached == s.reached + {s.next} && end.replayed == s.replayed
    ensures end.durable.rows.Keys == s.durable.rows.Keys + {s.next} && OneTask(end.durable) && (Unspent(s) ==> Unspent(end))
  {
    hide Quiet, YoungAttempts, DropExpired, Trail, Feasible, CrashRuns.History, CrashRuns.Next, Possible, BareAct, AllBare;
    var permit := Permit(request, true, false, true, at, s.world.gov.nextAttempt);
    var start := Start(Begin(|s.world.permits| - 1, true, at, NONE));
    var intend := Intend(Save(at, NONE));
    StartAct(s, known, most, request, at);
    var s1 := CrashRuns.Next(POLICY, s, start);
    IntendAct(s1, known, most, permit, at);
    var s2 := CrashRuns.Next(POLICY, s1, intend);
    CallAct(s2);
    end := CrashRuns.Next(POLICY, s2, Call);
    acts := [start, intend, Call];
    ThreeActs(s, acts);
    BareOpening(start, intend);
  }

  lemma BareOpening(start: Act, intend: Act)
    requires start.Start? && start.step.Begin? && start.step.surveyed == NONE && intend.Intend? && intend.step.Save? && intend.step.pruned == NONE
    ensures AllBare([start, intend, Call])
  {
  }

  lemma CallAct(s: System)
    requires s.phase.Intended?
    ensures Possible(POLICY, s, Call)
    ensures CrashRuns.Next(POLICY, s, Call) == s.(phase := InCall(s.phase.id, s.phase.permit), reached := s.reached + {s.phase.id})
  {
  }

  lemma ThreeActs(s: System, acts: seq<Act>)
    requires |acts| == 3 && Possible(POLICY, s, acts[0])
    requires var s1 := CrashRuns.Next(POLICY, s, acts[0]); Possible(POLICY, s1, acts[1]) && Possible(POLICY, CrashRuns.Next(POLICY, s1, acts[1]), acts[2])
    ensures Feasible(POLICY, s, acts)
    ensures CrashRuns.History(POLICY, s, acts) == CrashRuns.Next(POLICY, CrashRuns.Next(POLICY, CrashRuns.Next(POLICY, s, acts[0]), acts[1]), acts[2])
  {
    hide CrashRuns.Next, Possible;
    Nothing(s);
    Then(s, [], acts[0]);
    Then(s, [] + [acts[0]], acts[1]);
    Then(s, [] + [acts[0]] + [acts[1]], acts[2]);
    assert acts == [] + [acts[0]] + [acts[1]] + [acts[2]];
  }

  lemma Nothing(s: System)
    ensures Feasible(POLICY, s, []) && CrashRuns.History(POLICY, s, []) == s
  {
  }

  // ----- The replayed call -----

  function FirstFinish(index: nat): Act {
    Act.Finish(FinishWithReceipts(index, SERVED, Some(Answers(FIRST)), NOON, ONE_DRAW))
  }

  lemma FirstFinishAct(s: System, known: set<Id>, most: nat, permit: Permit)
    requires s.phase.InCall? && s.phase.permit == |s.world.permits| - 1 && During(s, known, most, permit, NOON)
    requires permit == Permit(FIRST, true, false, true, NOON, permit.attemptSequence) && s.world.gov.attemptIDs == map[] && Unspent(s)
    ensures var a := FirstFinish(s.phase.permit);
            && Possible(POLICY, s, a)
            && var s' := CrashRuns.Next(POLICY, s, a);
               && s'.phase.Ended? && s'.phase.id == s.phase.id && s'.phase.result.outcome.Success?
               && Alongside(s, s') && s'.world.clock == NOON && SpentOn(s', s.phase.id)
               && Quiet(s'.world.gov, known, most + 1) && !s'.world.gov.inFlight && Retains(s'.world.gov)
  {
    hide FinishReceipts, Quiet, OutcomesToRecord, NewReceipts, Rejection, YoungAttempts;
    AwareFinish(s.world.gov, known, most, permit);
    OneMark(s);
  }

  lemma OneMark(s: System)
    requires s.marks == [] && s.phase.InCall?
    ensures Trail(s.marks, seq(1, _ => s.phase.id), 1) == [s.phase.id]
  {
    assert seq(1, _ => s.phase.id) == [s.phase.id];
  }

  function SecondFinish(index: nat): Act {
    Act.Finish(FinishWithReceipts(index, SERVED, Some(Answers(SECOND_ONE)), LATER, Draws({}, NONE, [])))
  }

  lemma SecondFinishAct(s: System, known: set<Id>, most: nat, permit: Permit)
    requires s.phase.InCall? && s.phase.permit == |s.world.permits| - 1 && During(s, known, most, permit, LATER)
    requires permit == Permit(SECOND_ONE, true, false, true, LATER, permit.attemptSequence) && Retains(s.world.gov)
    ensures var a := SecondFinish(s.phase.permit);
            && Possible(POLICY, s, a)
            && var s' := CrashRuns.Next(POLICY, s, a);
               s'.phase.Ended? && s'.phase.id == s.phase.id && s'.phase.replayed && Alongside(s, s') && s'.world.clock == LATER
  {
    hide FinishReceipts, Quiet, Rejection, Trail, YoungAttempts;
    AnswersAreAccepted(permit, LATER);
    YoungRetained(s.world.gov.attemptIDs, LATER);
    DeliverySafety.OneUnseen(Answer(SECOND_ONE), YoungAttempts(s.world.gov.attemptIDs, LATER) - {});
  }

  lemma RecordAct(s: System, at: Time)
    requires s.phase.Ended? && s.world.clock <= at
    ensures var a := Record(Save(at, NONE));
            && Possible(POLICY, s, a)
            && var s' := CrashRuns.Next(POLICY, s, a);
               && s'.phase == Phase.Ready && s'.world == Step(POLICY, s.world, Save(at, NONE))
               && s'.next == s.next && s'.reached == s.reached
               && s'.replayed == (if s.phase.replayed then s.replayed + {s.phase.id} else s.replayed)
               && s'.durable.rows.Keys == s.durable.rows.Keys && (OneTask(s.durable) ==> OneTask(s'.durable))
               && (s.phase.id in s.durable.rows ==> s'.durable.rows[s.phase.id].status == AttemptStatus(s.phase.result.outcome))
               && s'.durable.saved == Project(s'.world.gov)
               && s'.durable.marks == Trail(s.marks, [], |s'.world.gov.ledger|)
  {
    hide Lane.Expire, Trail, Project;
  }

  // The store once the first call, in row `id`, is recorded.
  predicate RecordedOnce(d: Durable, id: nat) {
    && d.rows.Keys == {id} && d.rows[id].status == Status.Completed && OneTask(d)
    && d.saved.rolling == [ENTRY] && d.marks == [id] && !d.saved.telemetry.unsafe
  }

  // From the first answer to the second durable write.
  lemma FirstClosing(s: System, permit: Permit)
    requires s.phase.InCall? && s.phase.permit == |s.world.permits| - 1 && During(s, {FIRST.id}, 0, permit, NOON)
    requires permit == Permit(FIRST, true, false, true, NOON, permit.attemptSequence) && s.world.gov.attemptIDs == map[] && Unspent(s)
    requires s.durable.rows.Keys == {s.phase.id} && OneTask(s.durable)
    ensures var finish, record := FirstFinish(s.phase.permit), Record(Save(NOON, NONE));
            && Possible(POLICY, s, finish) && Possible(POLICY, CrashRuns.Next(POLICY, s, finish), record)
            && var end := CrashRuns.Next(POLICY, CrashRuns.Next(POLICY, s, finish), record);
               && end.phase == Phase.Ready && end.world.clock == NOON && Quiet(end.world.gov, {FIRST.id}, 1) && !end.world.gov.inFlight
               && Retains(end.world.gov) && end.next == s.next && end.reached == s.reached && RecordedOnce(end.durable, s.phase.id)
  {
    hide Quiet, YoungAttempts, CrashRuns.Next, Possible, During, DropExpired, Step, Enabled, Project, Trail, OneTask;
    FirstFinishAct(s, {FIRST.id}, 0, permit);
    var s1 := CrashRuns.Next(POLICY, s, FirstFinish(s.phase.permit));
    RecordAct(s1, NOON);
    SaveStep(s1.world, {FIRST.id}, 1, NOON);
    SpentStays(s1, s.phase.id);
    QuietIsTrusted(Step(POLICY, s1.world, Save(NOON, NONE)).gov, {FIRST.id}, 1);
    YoungRetained(s1.world.gov.attemptIDs, NOON);
  }

  // The first call: granted, started, answered, recorded.
  lemma FirstCall(s: System) returns (end: System, acts: seq<Act>)
    requires s.phase == Phase.Ready && s.world.clock <= NOON && Quiet(s.world.gov, {}, 0) && !s.world.gov.inFlight
    requires s.world.gov.lastStart == ZERO && s.world.gov.attemptIDs == map[] && Unspent(s) && s.durable.rows == map[]
    ensures Feasible(POLICY, s, acts) && CrashRuns.History(POLICY, s, acts) == end
    ensures AllBare(acts)
    ensures end.phase == Phase.Ready && end.world.clock == NOON && Quiet(end.world.gov, {FIRST.id}, 1) && !end.world.gov.inFlight
    ensures Retains(end.world.gov) && end.next == s.next + 1 && end.reached == s.reached + {s.next}
    ensures RecordedOnce(end.durable, s.next)
  {
    hide Quiet, YoungAttempts, Feasible, CrashRuns.History, CrashRuns.Next, Possible, During, DropExpired, Step, AllBare, BareAct;
    var admit := Turn(Asks(FIRST, NOON));
    AdmitAct(s, {}, 0, FIRST, NOON);
    var s1 := CrashRuns.Next(POLICY, s, admit);
    YoungRetained(map[], NOON);
    assert {} + {FIRST.id} == {FIRST.id};
    GrantIsDuring(s1, {FIRST.id}, 0, FIRST, NOON);
    var s2, opening := AwareOpening(s1, {FIRST.id}, 0, FIRST, NOON);
    var finish, record := FirstFinish(s2.phase.permit), Record(Save(NOON, NONE));
    FirstClosing(s2, Permit(FIRST, true, false, true, NOON, s1.world.gov.nextAttempt));
    end := CrashRuns.Next(POLICY, CrashRuns.Next(POLICY, s2, finish), record);
    acts := CallActs(admit, opening, finish, record);
    CallRuns(s, admit, opening, finish, record);
    BareParts(s2.phase.permit);
    BareCall(admit, opening, finish, record);
  }

  lemma QuietIsTrusted(s: State, known: set<Id>, most: nat)
    requires Quiet(s, known, most)
    ensures !Project(s).telemetry.unsafe && Project(s).rolling == s.ledger
  {
  }

  lemma GrantIsDuring(s: System, known: set<Id>, most: nat, request: Request, at: Time)
    requires s.world.clock == at && Quiet(s.world.gov, known, most) && request.id in known
    requires s.world.permits != [] && s.world.permits[|s.world.permits| - 1] == Lane.Fresh(request)
    ensures During(s, known, most, Lane.Fresh(request), at)
  {
  }

  lemma BareCall(admit: Act, opening: seq<Act>, finish: Act, record: Act)
    requires BareAct(admit, TASKS, IDS) && AllBare(opening) && BareAct(finish, TASKS, IDS) && BareAct(record, TASKS, IDS)
    ensures AllBare(CallActs(admit, opening, finish, record))
  {
    hide BareAct;
  }

  lemma BareParts(index: nat)
    ensures BareAct(Turn(Asks(FIRST, NOON)), TASKS, IDS) && BareAct(Turn(Asks(SECOND_ONE, LATER)), TASKS, IDS)
    ensures BareAct(FirstFinish(index), TASKS, IDS) && BareAct(SecondFinish(index), TASKS, IDS)
    ensures BareAct(Record(Save(NOON, NONE)), TASKS, IDS) && BareAct(Record(Save(LATER, NONE)), TASKS, IDS)
  {
  }

  function CallActs(admit: Act, opening: seq<Act>, finish: Act, record: Act): seq<Act> {
    [admit] + opening + [finish] + [record]
  }

  lemma {:induction false} Joined(s: System, first: seq<Act>, second: seq<Act>)
    requires Feasible(POLICY, s, first) && Feasible(POLICY, CrashRuns.History(POLICY, s, first), second)
    ensures Feasible(POLICY, s, first + second)
    ensures CrashRuns.History(POLICY, s, first + second) == CrashRuns.History(POLICY, CrashRuns.History(POLICY, s, first), second)
    decreases |first|
  {
    hide CrashRuns.Next, Possible;
    if first == [] {
      assert first + second == second;
    } else {
      assert (first + second)[1..] == first[1..] + second;
      Joined(CrashRuns.Next(POLICY, s, first[0]), first[1..], second);
    }
  }

  lemma CallRuns(s: System, admit: Act, opening: seq<Act>, finish: Act, record: Act)
    requires Possible(POLICY, s, admit)
    requires var s1 := CrashRuns.Next(POLICY, s, admit);
             && Feasible(POLICY, s1, opening)
             && var s2 := CrashRuns.History(POLICY, s1, opening);
                Possible(POLICY, s2, finish) && Possible(POLICY, CrashRuns.Next(POLICY, s2, finish), record)
    ensures Feasible(POLICY, s, CallActs(admit, opening, finish, record))
    ensures var s2 := CrashRuns.History(POLICY, CrashRuns.Next(POLICY, s, admit), opening);
            CrashRuns.History(POLICY, s, CallActs(admit, opening, finish, record)) == CrashRuns.Next(POLICY, CrashRuns.Next(POLICY, s2, finish), record)
  {
    hide CrashRuns.Next, Possible;
    Nothing(s);
    Then(s, [], admit);
    assert [] + [admit] == [admit];
    Joined(s, [admit], opening);
    Then(s, [admit] + opening, finish);
    Then(s, [admit] + opening + [finish], record);
  }

  // The second call, answered with the first one's attempt.
  lemma ReplayedCall(s: System) returns (end: System, acts: seq<Act>)
    requires s.phase == Phase.Ready && s.world.clock == NOON && Quiet(s.world.gov, {FIRST.id}, 1) && !s.world.gov.inFlight
    requires Retains(s.world.gov) && OneTask(s.durable)
    ensures Feasible(POLICY, s, acts) && CrashRuns.History(POLICY, s, acts) == end
    ensures AllBare(acts)
    ensures end.world.clock == LATER && end.durable.rows.Keys == s.durable.rows.Keys + {s.next} && OneTask(end.durable)
    ensures end.reached == s.reached + {s.next} && end.replayed == s.replayed + {s.next}
  {
    hide Quiet, YoungAttempts, Feasible, CrashRuns.History, CrashRuns.Next, Possible, During, DropExpired, Step, AllBare, BareAct;
    var admit := Turn(Asks(SECOND_ONE, LATER));
    AdmitAct(s, {FIRST.id}, 1, SECOND_ONE, LATER);
    var s1 := CrashRuns.Next(POLICY, s, admit);
    YoungRetained(s.world.gov.attemptIDs, LATER);
    YoungRetained(YoungAttempts(s.world.gov.attemptIDs, LATER), LATER);
    YoungRetained(s1.world.gov.attemptIDs, LATER);
    YoungRetained(YoungAttempts(s1.world.gov.attemptIDs, LATER), LATER);
    var known := {FIRST.id} + {SECOND_ONE.id};
    GrantIsDuring(s1, known, 1, SECOND_ONE, LATER);
    var s2, opening := AwareOpening(s1, known, 1, SECOND_ONE, LATER);
    var permit := Permit(SECOND_ONE, true, false, true, LATER, s1.world.gov.nextAttempt);
    SecondFinishAct(s2, known, 1, permit);
    var finish := SecondFinish(s2.phase.permit);
    var s3 := CrashRuns.Next(POLICY, s2, finish);
    RecordAct(s3, LATER);
    var record := Record(Save(LATER, NONE));
    end := CrashRuns.Next(POLICY, s3, record);
    SaveClock(s3.world, LATER);
    acts := CallActs(admit, opening, finish, record);
    CallRuns(s, admit, opening, finish, record);
    BareParts(s2.phase.permit);
    BareCall(admit, opening, finish, record);
  }

  lemma SaveClock(w: World, at: Time)
    requires w.clock <= at
    ensures Enabled(POLICY, w, Save(at, NONE)) && Step(POLICY, w, Save(at, NONE)).clock == at
  {
  }

  lemma BootAct()
    ensures var s := Beginning(NOON);
            && Possible(POLICY, s, Boot(NOON, NONE))
            && var s' := CrashRuns.Next(POLICY, s, Boot(NOON, NONE));
               && Alongside(s, s') && s'.phase == Phase.Ready && s'.world.clock == NOON && s'.marks == []
               && Quiet(s'.world.gov, {}, 0) && !s'.world.gov.inFlight && s'.world.gov.lastStart == ZERO
               && s'.world.gov.attemptIDs == map[] && s'.world.gov.ledger == []
  {
    RestoredFresh();
  }

  lemma RestoredFresh()
    ensures var g := Restore(FRESH, Project(FRESH), NOON, NONE);
            Quiet(g, {}, 0) && !g.inFlight && g.lastStart == ZERO && g.attemptIDs == map[] && g.ledger == []
  {
    var merged := Merge(FRESH, Project(FRESH), NOON);
    assert merged.attemptIDs == map[] && merged.tasks == map[] && merged.requestIDs == map[] && merged.ledger == [];
    assert Quiet(merged, {}, 0);
    PruneKeepsQuiet(merged, {}, 0, NOON);
    PruneKeepsLane(merged, NOON);
    KeepsLastStart(merged, NOON);
    YoungRetained(map[], NOON);
  }

  // Settles `id` if it is open.
  lemma SettleOne(s: System, id: nat) returns (end: System, acts: seq<Act>)
    requires s.phase.Resuming? && id in s.durable.rows && s.phase.task == "task" && OneTask(s.durable)
    ensures Feasible(POLICY, s, acts) && CrashRuns.History(POLICY, s, acts) == end
    ensures AllBare(acts)
    ensures end.phase.Resuming? && end.phase.task == "task" && OneTask(end.durable)
    ensures end.reached == s.reached && end.replayed == s.replayed
    ensures end.durable.rows.Keys == s.durable.rows.Keys && !Open(end.durable.rows[id])
    ensures forall x :: x in s.durable.rows && x != id ==> end.durable.rows[x] == s.durable.rows[x]
  {
    Nothing(s);
    if Open(s.durable.rows[id]) {
      ReconcilingCharges(s.durable, id, LATER);
      end := CrashRuns.Next(POLICY, s, Settle(id, LATER));
      Then(s, [], Settle(id, LATER));
      acts := [] + [Settle(id, LATER)];
    } else {
      end, acts := s, [];
    }
  }

  lemma CrashAct(s: System)
    ensures Possible(POLICY, s, Crash) && CrashRuns.Next(POLICY, s, Crash) == s.(phase := Down)
  {
  }

  const RESUME := Resume("task", LATER, NONE)

  lemma ResumeAct(s: System)
    requires s.phase.Down? && s.world.clock <= LATER
    ensures var s' := CrashRuns.Next(POLICY, s, RESUME);
            && Possible(POLICY, s, RESUME)
            && s'.phase == Resuming("task", SettledFor(s.durable.rows, "task"), false) && s'.world.clock == LATER && s'.durable == s.durable
            && s'.reached == s.reached && s'.replayed == s.replayed
            && s'.world.gov.ledger == Dated(s.durable.saved.rolling) && s'.marks == SavedMarks(s.durable)
  {
    hide Restore, Dated, SavedMarks, SettledFor;
    RestoreKeepsLedger(FRESH, s.durable.saved, LATER, NONE);
    assert [] + Dated(s.durable.saved.rolling) == Dated(s.durable.saved.rolling);
  }

  // The process dies and the next one resumes the task.
  lemma Resumed(s: System) returns (end: System, acts: seq<Act>)
    requires s.world.clock <= LATER
    ensures Feasible(POLICY, s, acts) && CrashRuns.History(POLICY, s, acts) == end && AllBare(acts)
    ensures end.phase == Resuming("task", SettledFor(s.durable.rows, "task"), false) && end.world.clock == LATER && end.durable == s.durable
    ensures end.reached == s.reached && end.replayed == s.replayed
    ensures end.world.gov.ledger == Dated(s.durable.saved.rolling) && end.marks == SavedMarks(s.durable)
  {
    hide CrashRuns.Next, Possible, Feasible, CrashRuns.History, Dated, SavedMarks, SettledFor;
    CrashAct(s);
    var s1 := CrashRuns.Next(POLICY, s, Crash);
    ResumeAct(s1);
    end := CrashRuns.Next(POLICY, s1, RESUME);
    Nothing(s);
    Then(s, [], Crash);
    Then(s, [] + [Crash], RESUME);
    acts := [] + [Crash] + [RESUME];
  }

  // The process dies and the next one recovers both rows.
  lemma Recovered(s: System) returns (end: System, acts: seq<Act>)
    requires s.world.clock == LATER && s.durable.rows.Keys == {0, 1} && OneTask(s.durable)
    ensures Feasible(POLICY, s, acts) && CrashRuns.History(POLICY, s, acts) == end
    ensures AllBare(acts)
    ensures AllSettled(end.durable) && end.reached == s.reached && end.replayed == s.replayed
  {
    hide Feasible, CrashRuns.History, CrashRuns.Next, Possible, Open, OneTask, BareAct;
    var s2, resuming := Resumed(s);
    var s3, first := SettleOne(s2, 0);
    var s4, second := SettleOne(s3, 1);
    Joined(s, resuming, first);
    Joined(s, resuming + first, second);
    assert forall id :: id in s4.durable.rows ==> id == 0 || id == 1;
    end, acts := s4, resuming + first + second;
  }

  predicate AllSettled(d: Durable) {
    forall id :: id in d.rows ==> !Open(d.rows[id])
  }

  // Both histories begin with a first process that makes and records one call.
  lemma RecordedFirst() returns (end: System, acts: seq<Act>)
    ensures Feasible(POLICY, Beginning(NOON), acts) && CrashRuns.History(POLICY, Beginning(NOON), acts) == end && AllBare(acts)
    ensures end.phase == Phase.Ready && end.world.clock == NOON && Quiet(end.world.gov, {FIRST.id}, 1) && !end.world.gov.inFlight
    ensures Retains(end.world.gov) && end.next == 1 && end.reached == {0} && RecordedOnce(end.durable, 0)
  {
    hide Feasible, CrashRuns.History, CrashRuns.Next, Possible, Quiet, BareAct;
    var s0, boot := Beginning(NOON), Boot(NOON, NONE);
    BootAct();
    var s1 := CrashRuns.Next(POLICY, s0, boot);
    Nothing(s0);
    Then(s0, [], boot);
    var s2, call := FirstCall(s1);
    Joined(s0, [] + [boot], call);
    NobodyAbout();
    end, acts := s2, [] + [boot] + call;
  }

  /** The exception is real: in this history a second call is answered with the
      first one's attempt, every check accepts the receipts, and once recovery
      has settled all rows the call that reached the upstream has no debit. */
  lemma ReplayedCallIsNeverPaid() returns (acts: seq<Act>)
    ensures POLICY.Valid() && Feasible(POLICY, Beginning(NOON), acts) && FittingHistory(POLICY, Beginning(NOON), acts)
    ensures var s := CrashRuns.History(POLICY, Beginning(NOON), acts);
            AllSettled(s.durable) && 1 in s.reached && 1 !in s.durable.debits
  {
    hide Feasible, CrashRuns.History, CrashRuns.Next, Possible, Quiet, Open, FittingHistory, BareAct, FewInSystem;
    var s0 := Beginning(NOON);
    var s1, first := RecordedFirst();
    var s2, second := ReplayedCall(s1);
    Joined(s0, first, second);
    var s3, third := Recovered(s2);
    Joined(s0, first + second, third);
    acts := first + second + third;
    NobodyAbout();
    BareHistoryFits(POLICY, s0, acts, TASKS, IDS);
    SettledIsPaidUnlessReplayed(POLICY, NOON, acts, 1);
  }

  // ----- The call restored twice -----

  lemma ReloadAct(s: System)
    requires s.phase == Resuming("task", true, false) && s.world.clock == LATER
    requires SettledFor(s.durable.rows, "task") && !s.durable.saved.telemetry.unsafe
    ensures var s' := CrashRuns.Next(POLICY, s, Reload(LATER, NONE));
            && Possible(POLICY, s, Reload(LATER, NONE))
            && s'.phase == Phase.Ready && s'.durable == s.durable
            && s'.world.gov.ledger == s.world.gov.ledger + Dated(s.durable.saved.rolling) && s'.marks == s.marks + SavedMarks(s.durable)
  {
    hide Restore, Dated, SavedMarks, SettledFor;
    RestoreKeepsLedger(s.world.gov, s.durable.saved, LATER, NONE);
  }

  lemma StoreOfOne(d: Durable)
    requires RecordedOnce(d, 0)
    ensures SettledFor(d.rows, "task") && SavedMarks(d) == [0] && Dated(d.saved.rolling) == [ENTRY]
  {
    YoungEntry(NOON);
    assert forall id :: id in d.rows ==> id in d.rows.Keys;
    assert DatedMarks([ENTRY][1..], [0][1..]) == [];
    assert DatedMarks([ENTRY], [0]) == [0];
  }

  /** A second restore overcharges: in this history one call is recorded, the
      process dies, recovery finds nothing open, and the governor that goes on
      counts the call twice. */
  lemma SecondRestoreChargesTwice() returns (acts: seq<Act>)
    ensures POLICY.Valid() && Feasible(POLICY, Beginning(NOON), acts) && FittingHistory(POLICY, Beginning(NOON), acts)
    ensures var s := CrashRuns.History(POLICY, Beginning(NOON), acts);
            && s.phase == Phase.Ready && s.durable.rows.Keys == {0}
            && |s.world.gov.ledger| == 2 && s.marks == [0, 0]
  {
    hide Feasible, CrashRuns.History, CrashRuns.Next, Possible, Quiet, FittingHistory, BareAct, FewInSystem, Dated, SavedMarks, SettledFor;
    var s0, reload := Beginning(NOON), Reload(LATER, NONE);
    var s1, first := RecordedFirst();
    StoreOfOne(s1.durable);
    var s2, second := Resumed(s1);
    Joined(s0, first, second);
    ReloadAct(s2);
    Then(s0, first + second, reload);
    acts := first + second + [reload];
    NobodyAbout();
    BareHistoryFits(POLICY, s0, acts, TASKS, IDS);
  }

  lemma NobodyAbout()
    ensures FewInSystem(Beginning(NOON), TASKS, IDS) && Evictions.Room(TASKS, IDS)
    ensures BareAct(Boot(NOON, NONE), TASKS, IDS) && BareAct(Reload(LATER, NONE), TASKS, IDS)
  {
  }
}
