/** The agent's executor: one logical call is one governed attempt plus however
    many retries the governor marks eligible, and the loop above it makes one
    logical call a turn.

    What the world decides (when each section runs, what telemetry and the
    call said, whether the durable writes and the waits succeeded) is a `Turn`
    per attempt. The executor is alone on its lane.
 */
module AgentExecutor {
  import opened Clock
  import opened Policy
  import opened Ledger
  import opened Retention
  import opened Lane
  import opened BudgetRuns
  import opened DeliverySafety
  import opened AccountGovernor
  import RetryInstants
  import TaskSight

  datatype Reading = Reading(now: Time, at: Time, observed: Option<TelemetrySnapshot>, cancelled: bool)

  datatype Turn = Turn(
    joinAt: Time,
    readings: seq<Reading>,
    cancelled: bool,
    startAt: Time,
    prepared: bool,
    outcome: Outcome,
    finishAt: Time,
    jitter: Duration,
    recorded: bool,
    observationFailed: bool,
    waited: bool)

  // What the executor sees of one governed attempt: whether it was admitted,
  // whether the upstream was called, and how it finished.
  datatype Execution = Execution(admitted: bool, sent: bool, completion: FinishResult, persistFailed: bool)

  predicate Ordered(turn: Turn) {
    forall i :: 0 <= i < |turn.readings| ==> turn.readings[i].now <= turn.readings[i].at
  }

  const NOT_ADMITTED := Execution(false, false, Refused(PermitNotHeld), false)

  // ----- One caller on the lane -----

  // The task table has room for `task`, so no cap evicts anything.
  ghost predicate Roomy(s: State, task: Id, keys: set<Id>) {
    s.tasks.Keys <= keys && task in keys && |keys| <= MAX_TASKS
  }

  predicate Vacant(s: State) {
    !s.inFlight && s.queue == []
  }

  predicate Taken(s: State, task: Id) {
    s.inFlight && s.activeTask == task && s.queue == []
  }

  lemma NothingEvicted(s: State, now: Time, choice: Choice, task: Id, keys: set<Id>)
    requires Roomy(s, task, keys) && Fits(s, now, choice)
    ensures choice.tasks == {}
  {
    hide AttemptsFit, Keepers;
    var young := YoungTasks(s.tasks, Protected(s), now);
    SubsetSize(young.Keys, keys);
    assert |Ages(young)| == |Ages(young).Keys| && Ages(young).Keys == young.Keys;
  }

  lemma PruneKeepsRoom(s: State, now: Time, choice: Choice, task: Id, keys: set<Id>)
    requires Roomy(s, task, keys)
    ensures Roomy(Prune(s, now, choice), task, keys)
  {
    hide PruneRequests, YoungAttempts, Keepers;
  }

  lemma ExpireKeepsRoom(c: Config, s: State, now: Time, choice: Choice, task: Id, keys: set<Id>)
    requires Roomy(s, task, keys)
    ensures Roomy(Lane.Expire(c, s, now, choice), task, keys)
  {
    hide Prune, RecentRates, ExpireTelemetry;
    PruneKeepsRoom(s, now, choice, task, keys);
  }

  lemma JoinEffect(c: Config, s: State, request: Request, at: Time, pruned: Choice, keys: set<Id>)
    requires Vacant(s) && Roomy(s, request.task, keys) && Recent(s, request.task, at) && (!s.closed ==> Fits(s, at, pruned))
    ensures var (s', refusal) := Enqueue(c, s, request, at, pruned);
            && Roomy(s', request.task, keys) && SameCounts(s, s', request.task)
            && (if refusal.None? then Waits(s', request) else Vacant(s'))
  {
    hide Prune, ChoiceFits, Recent;
    if !s.closed {
      NothingEvicted(s, at, pruned, request.task, keys);
      PruneKeepsCounts(s, at, pruned, request.task);
      PruneKeepsRoom(s, at, pruned, request.task, keys);
    }
  }

  // The caller is the one waiter of a free lane.
  predicate Waits(s: State, request: Request) {
    !s.inFlight && |s.queue| == 1 && s.queue[0].request == request
  }

  lemma LookEffect(c: Config, s: State, request: Request, r: Reading, checked: Choice, keys: set<Id>)
    requires Waits(s, request) && Roomy(s, request.task, keys) && r.now <= r.at
    requires !r.cancelled ==> Fits(Observe(c, s, r.observed, r.now), r.now, checked)
    ensures var (s', admission) := QueueCheck(c, s, 0, r.now, r.at, r.observed, r.cancelled, checked);
            && Roomy(s', request.task, keys) && SameCounts(s, s', request.task)
            && (admission.Granted? ==> Taken(s', request.task) && (request.retry ==> TaskOf(s', request.task).retries < c.retryBudget))
            && (admission.Turned? ==> if admission.code.Delayed? then Waits(s', request) else Vacant(s'))
  {
    hide Check, ChoiceFits, TelemetryAfter, CircuitAfter, CooldownAfter, Recent;
    var s1 := Observe(c, s, r.observed, r.now);
    if !r.cancelled {
      NothingEvicted(s1, r.now, checked, request.task, keys);
      WaiterIsRecent(s1, request, r.at);
      CheckKeepsCounts(c, s1, request, r.now, r.at, checked, request.task);
      CheckKeepsRoom(c, s1, request, r.now, r.at, checked, keys);
      RetryInstants.RefusalsSayNoDelay(c, s1, request, r.now, r.at, checked);
    }
  }

  lemma WaiterIsRecent(s: State, request: Request, now: Time)
    requires Waits(s, request)
    ensures Recent(s, request.task, now)
  {
    assert s.queue[0] in s.queue;
  }

  lemma CheckKeepsRoom(c: Config, s: State, request: Request, now: Time, at: Time, choice: Choice, keys: set<Id>)
    requires Roomy(s, request.task, keys)
    ensures Roomy(Check(c, s, request, now, at, choice).0, request.task, keys)
  {
    hide Lane.Expire, CircuitChecked, GateVerdict, BudgetVerdict;
    ExpireKeepsRoom(c, s, now, choice, request.task, keys);
  }

  lemma SurveyKeepsRoom(c: Config, s: State, task: Id, now: Time, choice: Choice, keys: set<Id>)
    requires Roomy(s, task, keys)
    ensures Roomy(Survey(c, s, task, now, choice), task, keys)
  {
    hide Lane.Expire;
    ExpireKeepsRoom(c, s, now, choice, task, keys);
  }

  lemma HolderIsRecent(s: State, task: Id, now: Time)
    requires Taken(s, task)
    ensures Recent(s, task, now)
  {
  }

  lemma StartEffect(c: Config, s: State, p: Lane.Permit, at: Time, choice: Choice, keys: set<Id>)
    requires Taken(s, p.request.task) && p == Fresh(p.request) && Roomy(s, p.request.task, keys) && Fits(s, at, choice)
    ensures var (s', p', error) := Start(c, s, p, false, at, choice);
            && error.None? && p'.started && !p'.completed && !p'.receiptAware && p'.request == p.request
            && Roomy(s', p.request.task, keys) && Taken(s', p.request.task)
            && TaskOf(s', p.request.task).retries == TaskOf(s, p.request.task).retries + (if p.request.retry then 1 else 0)
  {
    hide Survey, Spend, ChoiceFits, Recent;
    NothingEvicted(s, at, choice, p.request.task, keys);
    HolderIsRecent(s, p.request.task, at);
    SurveyKeepsCounts(c, s, p.request.task, at, choice, p.request.task);
    SurveyKeepsRoom(c, s, p.request.task, at, choice, keys);
  }

  lemma FinishEffect(c: Config, s: State, p: Lane.Permit, outcome: Outcome, at: Time, surveyed: Choice, draw: Draw, keys: set<Id>)
    requires Taken(s, p.request.task) && p.started && !p.completed && !p.receiptAware && Roomy(s, p.request.task, keys)
    requires FinishFits(c, s, p, outcome, at, surveyed, draw)
    ensures var (s', _, result) := Lane.Finish(c, s, p, outcome, at, surveyed, draw);
            && Vacant(s') && Roomy(s', p.request.task, keys) && SameCounts(s, s', p.request.task)
            && p.request.task in s'.tasks && s'.tasks[p.request.task].lastTouched == at
            && result.error.None? && (result.retryEligible ==> TaskOf(s', p.request.task).retries < c.retryBudget)
  {
    hide Survey, RecordOutcome, ChoiceFits, Recent, AsRecorded;
    var task := p.request.task;
    var s1 := Survey(c, s, task, at, surveyed);
    NothingEvicted(s, at, surveyed, task, keys);
    HolderIsRecent(s, task, at);
    SurveyKeepsCounts(c, s, task, at, surveyed, task);
    SurveyKeepsRoom(c, s, task, at, surveyed, keys);
    if AsRecorded(outcome).class_.RateCapacity? {
      NothingEvicted(s1, at, draw.choice, task, keys);
    }
    RecordEffect(c, s1, task, at, outcome, draw, keys);
  }

  lemma RecordEffect(c: Config, s: State, task: Id, at: Time, outcome: Outcome, draw: Draw, keys: set<Id>)
    requires Roomy(s, task, keys) && Recent(s, task, at) && (AsRecorded(outcome).class_.RateCapacity? ==> draw.choice.tasks == {})
    ensures var (s', result) := RecordOutcome(c, s, task, at, outcome, draw);
            && s'.queue == s.queue && SameCounts(s, s', task) && Roomy(s', task, keys)
            && task in s'.tasks && s'.tasks[task].lastTouched == at
            && result.error.None? && (result.retryEligible ==> TaskOf(s', task).retries < c.retryBudget)
  {
    hide Lane.Expire, RateResponse, SelectedBackoff, OtherResponse, AsRecorded, Recent;
    if AsRecorded(outcome).class_.RateCapacity? {
      ExpireKeepsCounts(c, s, at, draw.choice, task);
      ExpireKeepsRoom(c, s, at, draw.choice, task, keys);
    }
  }

  lemma AbortEffect(s: State, p: Lane.Permit, at: Time, keys: set<Id>)
    requires Taken(s, p.request.task) && Roomy(s, p.request.task, keys)
    ensures var s' := Vacate(Complete(s, p.request.id, at));
            Vacant(s') && Roomy(s', p.request.task, keys) && SameCounts(s, s', p.request.task)
  {
  }

  // ----- Why nobody was let through -----

  // One look of the waiter at the head, and what came of it.
  function Looked(c: Config, s: State, r: Reading, checked: Choice): (State, Admission)
    requires s.queue != []
  {
    QueueCheck(c, s, 0, r.now, r.at, r.observed, r.cancelled, checked)
  }

  // The look fits, and puts the waiter off.
  ghost predicate PutOff(c: Config, s: State, r: Reading, checked: Choice, s': State) {
    && s.queue != [] && (!r.cancelled ==> Fits(Observe(c, s, r.observed, r.now), r.now, checked))
    && Looked(c, s, r, checked).0 == s' && Looked(c, s, r, checked).1.Turned? && Looked(c, s, r, checked).1.code.Delayed?
  }

  // It fits, and sends the waiter away.
  ghost predicate SentAway(c: Config, s: State, r: Reading, checked: Choice) {
    && s.queue != [] && (!r.cancelled ==> Fits(Observe(c, s, r.observed, r.now), r.now, checked))
    && Looked(c, s, r, checked).1.Turned? && !Looked(c, s, r, checked).1.code.Delayed?
  }

  // From `states[0]` on, each reading in turn put the waiter off.
  ghost predicate Waited(c: Config, readings: seq<Reading>, states: seq<State>, checks: seq<Choice>) {
    && 0 < |states| <= |readings| + 1 && |checks| == |states| - 1
    && forall k :: 0 <= k < |checks| ==> PutOff(c, states[k], readings[k], checks[k], states[k + 1])
  }

  // Nobody let the caller through: the queue refused it, a look sent it away,
  // or every look there was put it off.
  ghost predicate TurnedAwayBy(c: Config, s: State, request: Request, turn: Turn, pruned: Choice, states: seq<State>, checks: seq<Choice>) {
    && (!s.closed ==> Fits(s, turn.joinAt, pruned))
    && var (joined, refusal) := Enqueue(c, s, request, turn.joinAt, pruned);
       || refusal.Some?
       || (&& Waited(c, turn.readings, states, checks) && states[0] == joined
           && (|checks| < |turn.readings| ==> exists checked :: SentAway(c, states[|checks|], turn.readings[|checks|], checked)))
  }

  ghost predicate TurnedAway(c: Config, s: State, request: Request, turn: Turn) {
    exists pruned, states, checks :: TurnedAwayBy(c, s, request, turn, pruned, states, checks)
  }

  // ----- One governed attempt -----

  // Queues for admission and looks at every change until granted, refused or
  // cancelled.
  method Admit(governor: Governor, request: Request, turn: Turn, ghost keys: set<Id>) returns (permit: Permit?)
    requires governor.Valid() && !governor.events && Vacant(governor.View()) && Roomy(governor.View(), request.task, keys)
    requires Recent(governor.View(), request.task, turn.joinAt) && Ordered(turn)
    modifies governor, governor.ledger
    ensures governor.Valid() && Roomy(governor.View(), request.task, keys) && SameCounts(old(governor.View()), governor.View(), request.task)
    ensures permit == null ==> Vacant(governor.View()) && TurnedAway(governor.config, old(governor.View()), request, turn)
    ensures permit != null ==> fresh(permit) && permit.governor == governor && permit.View() == Fresh(request)
    ensures permit != null ==> Taken(governor.View(), request.task)
    ensures permit != null && request.retry ==> TaskOf(governor.View(), request.task).retries < governor.config.retryBudget
  {
    hide Enqueue, QueueCheck, Roomy, Recent, Observe, ChoiceFits;
    permit := null;
    var refusal;
    ghost var pruned, emitted;
    ghost var before := governor.View();
    refusal, pruned, emitted := governor.Enqueue(request, turn.joinAt, turn.joinAt);
    JoinEffect(governor.config, before, request, turn.joinAt, pruned, keys);
    if refusal.Some? {
      assert TurnedAwayBy(governor.config, before, request, turn, pruned, [], []);
      return;
    }
    ghost var states, checks := [governor.View()], [];
    var i := 0;
    while i < |turn.readings|
      invariant 0 <= i <= |turn.readings|
      invariant governor.Valid() && Waits(governor.View(), request) && Roomy(governor.View(), request.task, keys)
      invariant SameCounts(before, governor.View(), request.task)
      invariant |checks| == i && Waited(governor.config, turn.readings, states, checks) && states[i] == governor.View()
      invariant states[0] == Enqueue(governor.config, before, request, turn.joinAt, pruned).0
    {
      var r := turn.readings[i];
      var admission, granted;
      ghost var checked;
      ghost var waiting := governor.View();
      admission, granted, checked, emitted := governor.QueueCheck(0, r.now, r.at, r.observed, r.cancelled, r.at);
      LookEffect(governor.config, waiting, request, r, checked, keys);
      if granted != null {
        return granted;
      }
      if !admission.code.Delayed? {
        assert SentAway(governor.config, waiting, r, checked);
        assert TurnedAwayBy(governor.config, before, request, turn, pruned, states, checks);
        return;
      }
      assert PutOff(governor.config, waiting, r, checked, governor.View());
      states, checks := states + [governor.View()], checks + [checked];
      i := i + 1;
    }
    assert TurnedAwayBy(governor.config, before, request, turn, pruned, states, checks);
    ghost var waiting := governor.View();
    emitted := governor.Leave(0, turn.startAt);
    LeaveEffect(waiting, request, keys);
  }

  lemma LeaveEffect(s: State, request: Request, keys: set<Id>)
    requires Waits(s, request) && Roomy(s, request.task, keys)
    ensures var s' := WithoutWaiter(s, 0); Vacant(s') && Roomy(s', request.task, keys) && SameCounts(s, s', request.task)
  {
  }

  // What a finished call needs to be retried: a recoverable failure that was
  // not delivered ambiguously, a retry left, and a closed circuit.
  predicate RetryDue(c: Config, s: State, task: Id, outcome: Outcome) {
    RetrySafe(outcome) && MayRetry(c, s, task)
  }

  // A call that was sent finished without an error; it says truly whether its
  // outcome was recorded and whether it may be retried.
  predicate Reported(c: Config, s: State, task: Id, turn: Turn, e: Execution) {
    && (e.completion.retryEligible ==> e.sent)
    && (e.sent ==>
          && turn.prepared && e.completion.error.None? && TaskSight.SeenAt(s, task, turn.finishAt)
          && e.persistFailed == !turn.recorded && e.completion.retryEligible == RetryDue(c, s, task, turn.outcome))
  }

  // Why an attempt never reached the upstream.
  ghost predicate Unsent(c: Config, s: State, request: Request, turn: Turn) {
    !turn.prepared || turn.cancelled || TurnedAway(c, s, request, turn)
  }

  // The ordering of one governed attempt: admission, start, durable intent,
  // call, finish, durable outcome.
  method Attempt(governor: Governor, request: Request, turn: Turn, ghost keys: set<Id>) returns (e: Execution)
    requires governor.Valid() && !governor.events && Vacant(governor.View()) && Roomy(governor.View(), request.task, keys)
    requires Recent(governor.View(), request.task, turn.joinAt) && Ordered(turn)
    modifies governor, governor.ledger
    ensures governor.Valid() && Vacant(governor.View()) && Roomy(governor.View(), request.task, keys)
    ensures var before, after := old(TaskOf(governor.View(), request.task)).retries, TaskOf(governor.View(), request.task).retries;
            && before <= after <= before + (if request.retry then 1 else 0)
            && (request.retry && after > before ==> before < governor.config.retryBudget)
            && (e.sent ==> after == before + (if request.retry then 1 else 0))
            && (e.completion.retryEligible ==> e.sent && after < governor.config.retryBudget)
    ensures Reported(governor.config, governor.View(), request.task, turn, e)
    ensures !e.sent ==> Unsent(governor.config, old(governor.View()), request, turn)
  {
    hide TurnedAway, RetryDue, Lane.Start, Lane.Finish, Roomy, Recent, ChoiceFits, FinishFits, AsRecorded, Lane.CancelBeforeStart, Ordered, RetrySafe;
    var permit := Admit(governor, request, turn, keys);
    if permit == null {
      return NOT_ADMITTED;
    }
    if turn.cancelled {
      ghost var s0 := governor.View();
      var ignored;
      ghost var emitted;
      ignored, emitted := permit.CancelBeforeStart(turn.startAt);
      AbandonEffect(s0, Fresh(request), keys);
      return NOT_ADMITTED;
    }
    var error;
    ghost var choice;
    ghost var s1 := governor.View();
    error, choice := permit.Start(false, turn.startAt);
    StartSucceeds(governor.config, s1, Fresh(request), turn.startAt, choice);
    StartEffect(governor.config, s1, Fresh(request), turn.startAt, choice, keys);
    e := Deliver(permit, turn, keys);
  }

  // From a started permit on: the durable intent, the call and its outcome.
  method Deliver(permit: AccountGovernor.Permit, turn: Turn, ghost keys: set<Id>) returns (e: Execution)
    requires var governor, p := permit.governor, permit.View();
             && governor.Valid() && Roomy(governor.View(), p.request.task, keys) && Taken(governor.View(), p.request.task)
             && p.started && !p.completed && !p.receiptAware
    modifies permit, permit.governor, permit.governor.ledger
    ensures permit.governor.Valid() && Vacant(permit.governor.View()) && Roomy(permit.governor.View(), permit.request.task, keys)
    ensures SameCounts(old(permit.governor.View()), permit.governor.View(), permit.request.task)
    ensures e.completion.retryEligible ==> TaskOf(permit.governor.View(), permit.request.task).retries < permit.governor.config.retryBudget
    ensures e.admitted && (e.sent <==> turn.prepared)
    ensures Reported(permit.governor.config, permit.governor.View(), permit.request.task, turn, e)
  {
    hide Lane.Finish, Roomy, FinishFits, AsRecorded, WithDeliveryEvidence, RetrySafe;
    var governor := permit.governor;
    ghost var s, p := governor.View(), permit.View();
    if !turn.prepared {
      var completion := permit.CancelAfterStart(turn.startAt);
      AbortEffect(s, p, turn.startAt, keys);
      return Execution(true, false, completion, false);
    }
    var result;
    ghost var surveyed, draw;
    var outcome := WithDeliveryEvidence(turn.outcome);
    result, surveyed, draw := permit.Finish(outcome, turn.finishAt, turn.jitter);
    FinishEffect(governor.config, s, p, outcome, turn.finishAt, surveyed, draw, keys);
    PlainEligibility(governor.config, s, p, turn.outcome, turn.finishAt, surveyed, draw);
    return Execution(true, true, result, !turn.recorded);
  }

  lemma AbandonEffect(s: State, p: Lane.Permit, keys: set<Id>)
    requires Taken(s, p.request.task) && Roomy(s, p.request.task, keys) && p == Fresh(p.request)
    ensures var s' := CancelBeforeStart(s, p).0; Vacant(s') && Roomy(s', p.request.task, keys) && SameCounts(s, s', p.request.task)
  {
  }

  lemma StartSucceeds(c: Config, s: State, p: Lane.Permit, at: Time, choice: Choice)
    requires s.inFlight && p == Fresh(p.request)
    ensures Start(c, s, p, false, at, choice).2.None?
  {
    hide BeginAttempt;
  }

  // ----- The executor -----

  function Decimal(n: nat): string {
    if n < 10 then ["0123456789"[n]] else Decimal(n / 10) + ["0123456789"[n % 10]]
  }

  // Four digits, more when needed.
  function Padded(n: nat): string {
    (if n < 10 then "000" else if n < 100 then "00" else if n < 1000 then "0" else "") + Decimal(n)
  }

  // Each retry is a governed attempt of its own, under its own request id.
  function RetryOf(request: Request, n: nat): Request {
    Request(request.task, request.id + "-r" + Decimal(n), true)
  }

  predicate RetryEligible(e: Execution, waited: bool) {
    e.completion.error.None? && !e.persistFailed && e.completion.retryEligible && waited
  }

  // No wait between one attempt and the next lasts a retention window.
  ghost predicate ShortWaits(turns: nat -> Turn) {
    forall k: nat :: turns(k + 1).joinAt < turns(k).finishAt + RETENTION
  }

  // What an attempt followed by another was: a recoverable call, durably
  // recorded and observed, with an uninterrupted wait after it.
  predicate Followed(turn: Turn) {
    turn.prepared && turn.recorded && !turn.observationFailed && turn.waited && RetrySafe(turn.outcome)
  }

  // The last attempt had no right to another.
  predicate Stopped(c: Config, s: State, task: Id, retry: bool, turn: Turn, last: Execution) {
    !retry || !last.sent || !Followed(turn) || TaskOf(s, task).retries >= c.retryBudget || !s.circuit.state.Closed?
  }

  // Why the last attempt never reached the upstream: the first on the lane as
  // it was, a retry where the attempt before had left it, with a retry due.
  ghost predicate NeverReached(c: Config, s: State, request: Request, turns: nat -> Turn, first: nat, attempts: nat)
    requires attempts >= 1
  {
    if attempts == 1 then Unsent(c, s, request, turns(first))
    else RetryUnsent(c, RetryOf(request, attempts - 1), turns(first + attempts - 2), turns(first + attempts - 1))
  }

  ghost predicate RetryUnsent(c: Config, request: Request, previous: Turn, turn: Turn) {
    exists s :: UnsentFrom(c, s, request, previous, turn)
  }

  ghost predicate UnsentFrom(c: Config, s: State, request: Request, previous: Turn, turn: Turn) {
    TaskSight.SeenAt(s, request.task, previous.finishAt) && RetryDue(c, s, request.task, previous.outcome) && Unsent(c, s, request, turn)
  }

  lemma FirstNeverReached(c: Config, s: State, request: Request, turns: nat -> Turn, first: nat)
    requires Unsent(c, s, request, turns(first))
    ensures NeverReached(c, s, request, turns, first, 1)
  {
  }

  lemma RetryNeverReached(c: Config, s0: State, s: State, request: Request, turns: nat -> Turn, first: nat, attempts: nat)
    requires attempts >= 1 && TaskSight.SeenAt(s, request.task, turns(first + attempts - 1).finishAt) && RetryDue(c, s, request.task, turns(first + attempts - 1).outcome)
    requires Unsent(c, s, RetryOf(request, attempts), turns(first + attempts))
    ensures NeverReached(c, s0, request, turns, first, attempts + 1)
  {
    hide TaskSight.SeenAt, RetryDue, Unsent;
    assert UnsentFrom(c, s, RetryOf(request, attempts), turns(first + attempts - 1), turns(first + attempts));
  }

  lemma StopsForAReason(c: Config, s: State, task: Id, retry: bool, turn: Turn, e: Execution)
    requires Reported(c, s, task, turn, e) && !(retry && !turn.observationFailed && RetryEligible(e, turn.waited))
    ensures Stopped(c, s, task, retry, turn, e)
    ensures e.sent ==> TaskSight.SeenAt(s, task, turn.finishAt)
  {
    hide RetrySafe, TaskSight.SeenAt;
  }

  lemma GoesOnForAReason(c: Config, s: State, task: Id, turn: Turn, e: Execution)
    requires Reported(c, s, task, turn, e) && !turn.observationFailed && RetryEligible(e, turn.waited)
    ensures e.sent && e.completion.retryEligible && Followed(turn) && TaskSight.SeenAt(s, task, turn.finishAt) && RetryDue(c, s, task, turn.outcome)
  {
    hide RetrySafe, TaskSight.SeenAt, MayRetry;
  }

  /** One logical call, its attempts scheduled by the turns from `first` on. It
      ends, after at most one attempt plus the retries the task has left; every
      call of the upstream beyond the first was debited to the retry budget, and
      follows a call that failed recoverably and was not seen to be delivered
      ambiguously. */
  method Execute(governor: Governor, request: Request, retry: bool, turns: nat -> Turn, first: nat, ghost keys: set<Id>)
    returns (result: Execution, attempts: nat, sends: nat)
    requires governor.Valid() && !governor.events && Vacant(governor.View()) && Roomy(governor.View(), request.task, keys)
    requires Recent(governor.View(), request.task, turns(first).joinAt) && ShortWaits(turns) && forall k: nat :: Ordered(turns(k))
    modifies governor, governor.ledger
    ensures governor.Valid() && Vacant(governor.View()) && Roomy(governor.View(), request.task, keys)
    ensures var before, after := old(TaskOf(governor.View(), request.task)).retries, TaskOf(governor.View(), request.task).retries;
            && attempts <= 1 + Max(0, governor.config.retryBudget - before)
            && before <= after <= Max(before, governor.config.retryBudget)
            && (!request.retry ==> sends <= 1 + (after - before))
    ensures attempts >= 1 && Stopped(governor.config, governor.View(), request.task, retry, turns(first + attempts - 1), result)
    ensures sends == (if result.sent then attempts else attempts - 1)
    ensures !result.sent ==> NeverReached(governor.config, old(governor.View()), request, turns, first, attempts)
    ensures forall k :: first <= k < first + attempts - 1 ==> retry && Followed(turns(k))
    ensures result.sent ==> TaskSight.SeenAt(governor.View(), request.task, turns(first + attempts - 1).finishAt)
  {
    hide Vacant, TaskOf, Decimal, Roomy, Recent, Ordered, ShortWaits, Followed, Unsent, NeverReached, Reported, Stopped, RetryDue, TaskSight.SeenAt, RetryEligible;
    ghost var s0 := governor.View();
    ghost var before := TaskOf(s0, request.task).retries;
    ghost var limit, cap := 1 + Max(0, governor.config.retryBudget - before), Max(before, governor.config.retryBudget);
    attempts, sends := 1, 0;
    result := Attempt(governor, request, turns(first), keys);
    if result.sent {
      sends := 1;
    } else {
      FirstNeverReached(governor.config, s0, request, turns, first);
    }
    while retry && !turns(first + attempts - 1).observationFailed && RetryEligible(result, turns(first + attempts - 1).waited)
      invariant governor.Valid() && Vacant(governor.View()) && Roomy(governor.View(), request.task, keys)
      invariant attempts >= 1 && sends == (if result.sent then attempts else attempts - 1)
      invariant forall k :: first <= k < first + attempts - 1 ==> retry && Followed(turns(k))
      invariant Reported(governor.config, governor.View(), request.task, turns(first + attempts - 1), result)
      invariant !result.sent ==> NeverReached(governor.config, s0, request, turns, first, attempts)
      invariant var retries := TaskOf(governor.View(), request.task).retries;
                && before <= retries <= cap && attempts <= limit
                && (!request.retry ==> sends <= 1 + (retries - before))
                && (result.completion.retryEligible ==> retries < governor.config.retryBudget && attempts - 1 <= retries - before)
      decreases limit - attempts
    {
      ghost var s := governor.View();
      GoesOnForAReason(governor.config, s, request.task, turns(first + attempts - 1), result);
      RecentAfter(s, request.task, turns, first + attempts);
      result := Attempt(governor, RetryOf(request, attempts), turns(first + attempts), keys);
      if result.sent {
        sends := sends + 1;
      } else {
        RetryNeverReached(governor.config, s0, s, request, turns, first, attempts);
      }
      attempts := attempts + 1;
    }
    StopsForAReason(governor.config, governor.View(), request.task, retry, turns(first + attempts - 1), result);
  }

  lemma RecentAfter(s: State, task: Id, turns: nat -> Turn, k: nat)
    requires k > 0 && ShortWaits(turns) && TaskSight.SeenAt(s, task, turns(k - 1).finishAt)
    ensures Recent(s, task, turns(k).joinAt)
  {
    assert turns(k - 1 + 1) == turns(k);
  }

  // ----- The loop above -----

  datatype Limits = Limits(maxSteps: nat, providerBudget: nat)

  /** A run of the agent loop, of any length: one logical call a turn until a
      limit, the world or a call that never reached the upstream stops it.
      Counting retries, the upstream is called at most once per turn plus the
      retries the task had left, as long as no wait between attempts lasts a
      retention window. */
  method RunLoop(governor: Governor, task: Id, limits: Limits, retry: bool, plan: nat -> Turn, stopped: nat -> bool, ghost keys: set<Id>)
    returns (turns: nat, sends: nat, last: Execution)
    requires governor.Valid() && !governor.events && Vacant(governor.View()) && Roomy(governor.View(), task, keys)
    requires Recent(governor.View(), task, plan(0).joinAt) && ShortWaits(plan) && forall k: nat :: Ordered(plan(k))
    modifies governor, governor.ledger
    ensures governor.Valid() && turns <= Min(limits.maxSteps, limits.providerBudget)
    ensures turns == limits.maxSteps || turns == limits.providerBudget || stopped(turns) || (turns > 0 && !(last.sent && !last.persistFailed))
    ensures sends >= turns - (if turns > 0 && !last.sent then 1 else 0)
    ensures sends <= turns + Max(0, governor.config.retryBudget - old(TaskOf(governor.View(), task)).retries)
  {
    hide Roomy, Recent, Ordered, RetryOf, RetrySafe, TaskSight.SeenAt, Stopped, Unsent, RetryUnsent, Followed, TurnedAway;
    ghost var before := TaskOf(governor.View(), task).retries;
    turns, sends, last := 0, 0, NOT_ADMITTED;
    var providerAttempts, next := 0, 0;
    var admitted := true;
    while admitted && !stopped(turns) && turns < limits.maxSteps && providerAttempts < limits.providerBudget
      invariant governor.Valid() && Vacant(governor.View()) && Roomy(governor.View(), task, keys)
      invariant admitted ==> Recent(governor.View(), task, plan(next).joinAt)
      invariant turns == providerAttempts <= Min(limits.maxSteps, limits.providerBudget)
      invariant before <= TaskOf(governor.View(), task).retries <= Max(before, governor.config.retryBudget)
      invariant !admitted ==> turns > 0 && !(last.sent && !last.persistFailed)
      invariant sends >= turns - (if admitted || last.sent then 0 else 1)
      invariant sends <= turns + TaskOf(governor.View(), task).retries - before
      decreases limits.maxSteps - turns
    {
      turns, providerAttempts := turns + 1, providerAttempts + 1;
      var attempts, sent;
      last, attempts, sent := Execute(governor, Request(task, task + "-" + Padded(turns), false), retry, plan, next, keys);
      sends, next := sends + sent, next + attempts;
      admitted := last.sent && !last.persistFailed;
      if admitted {
        RecentAfter(governor.View(), task, plan, next);
      }
    }
  }
}
