/** What each locked section of the account governor does, as functions on the
    governor's protection state.

    `Governor.dfy` holds the objects whose methods change that state in place
    and are proved equal to these functions; the theorem modules reason about
    the functions over whole runs. Where the source's result depends on
    something outside it, the dependency is a parameter: the clock reading, the
    jitter drawn, and which of several equally old entries a cap evicts.
 */
module Lane {
  import opened Clock
  import opened Policy
  import opened Ledger
  import opened Retention
  import opened AttemptReceipts

  datatype Waiter = Waiter(ticket: nat, request: Request)

  datatype Circuit = Circuit(
    state: CircuitState,
    reason: OutcomeClass,
    openUntil: Time,
    refreshRequired: bool,
    refreshInFlight: bool,
    lastRateReset: Time,
    rateEvents: seq<Time>)

  datatype CircuitSnapshot = CircuitSnapshot(state: CircuitState, reason: OutcomeClass, openUntil: Time, refreshRequired: bool)

  datatype Telemetry = Telemetry(
    available: Option<int>,
    resetAt: Time,
    cooldownUntil: Time,
    rateLimited: bool,
    capacityExhausted: bool,
    upstream: UpstreamCircuit,
    unsafe: bool)

  datatype State = State(
    closed: bool,
    inFlight: bool,
    activeTask: Id,
    queue: seq<Waiter>,
    tickets: nat,
    currentTask: Id,
    consecutiveTurns: nat,
    lastStart: Time,
    nextAttempt: int,
    ledger: seq<Event>,
    tasks: map<Id, Task>,
    requestIDs: map<Id, Record>,
    attemptIDs: map<Id, Time>,
    completed: seq<Completion>,
    circuit: Circuit,
    cooldownUntil: Time,
    telemetry: Telemetry)

  datatype Permit = Permit(request: Request, started: bool, completed: bool, receiptAware: bool, startedAt: Time, attemptSequence: int)

  datatype PermitError =
    | PermitCompleted
    | PermitStarted
    | PermitNotStarted
    | PermitNotHeld
    | ReceiptsRequired
    | ReceiptsInvalid
    | ReceiptReplayed

  datatype FinishResult = FinishResult(
    outcome: OutcomeClass,
    retryEligible: bool,
    backoff: Duration,
    debited: nat,
    circuit: CircuitSnapshot,
    delivery: Delivery,
    error: Option<PermitError>)

  const FRESH_CIRCUIT := Circuit(Closed, Unclassified, ZERO, false, false, ZERO, [])
  const FRESH_TELEMETRY := Telemetry(None, ZERO, ZERO, false, false, UpstreamUnset, false)
  const FRESH := State(false, false, "", [], 0, "", 0, ZERO, 1, [], map[], map[], map[], [], FRESH_CIRCUIT, ZERO, FRESH_TELEMETRY)

  function Fresh(request: Request): Permit {
    Permit(request, false, false, false, ZERO, 0)
  }

  function Snapshot(circuit: Circuit): CircuitSnapshot {
    CircuitSnapshot(circuit.state, circuit.reason, circuit.openUntil, circuit.refreshRequired)
  }

  function Refused(error: PermitError): FinishResult {
    FinishResult(Unclassified, false, 0, 0, Snapshot(FRESH_CIRCUIT), Unobserved, Some(error))
  }

  // ----- Expiry and retention -----

  // The tasks whose counters must survive: the one in flight and those waiting.
  function Keepers(inFlight: bool, activeTask: Id, queue: seq<Waiter>): set<Id> {
    (if inFlight then {activeTask} else {}) + (set w | w in queue :: w.request.task)
  }

  function Protected(s: State): set<Id> {
    Keepers(s.inFlight, s.activeTask, s.queue)
  }

  ghost predicate Fits(s: State, now: Time, choice: Choice) {
    ChoiceFits(s.tasks, s.attemptIDs, Protected(s), now, choice)
  }

  function Prune(s: State, now: Time, choice: Choice): State {
    var (completed, requestIDs) := PruneRequests(s.completed, s.requestIDs, now);
    s.(tasks := YoungTasks(s.tasks, Protected(s), now) - choice.tasks,
       attemptIDs := YoungAttempts(s.attemptIDs, now) - choice.attempts,
       completed := completed,
       requestIDs := requestIDs)
  }

  // The bisection that finds the first rate event after `cutoff`.
  function Bisect(events: seq<Time>, cutoff: Time, lo: nat, hi: nat): (i: nat)
    requires lo <= hi <= |events|
    ensures lo <= i <= hi
    decreases hi - lo
  {
    if lo == hi then lo
    else
      var mid := (lo + hi) / 2;
      if events[mid] > cutoff then Bisect(events, cutoff, lo, mid) else Bisect(events, cutoff, mid + 1, hi)
  }

  function RecentRates(c: Config, events: seq<Time>, now: Time): seq<Time> {
    events[Bisect(events, now - c.rateResponseWindow, 0, |events|)..]
  }

  function ExpireTelemetry(t: Telemetry, now: Time): Telemetry {
    if t.resetAt != ZERO && t.resetAt <= now then
      t.(available := None, resetAt := ZERO, rateLimited := false, capacityExhausted := false, cooldownUntil := ZERO)
    else t
  }

  function Expire(c: Config, s: State, now: Time, choice: Choice): State {
    var pruned := Prune(s, now, choice);
    pruned.(ledger := DropExpired(s.ledger, now - THREE_HOURS),
            circuit := s.circuit.(rateEvents := RecentRates(c, s.circuit.rateEvents, now)),
            telemetry := ExpireTelemetry(s.telemetry, now))
  }

  // ----- Task counters -----

  function TaskOf(s: State, task: Id): Task {
    if task in s.tasks then s.tasks[task] else Task(0, 0, ZERO)
  }

  function Touched(tasks: map<Id, Task>, task: Id, at: Time): map<Id, Task> {
    tasks[task := (if task in tasks then tasks[task] else Task(0, 0, ZERO)).(lastTouched := at)]
  }

  function Touch(s: State, task: Id, at: Time): State {
    s.(tasks := Touched(s.tasks, task, at))
  }

  // Expiry followed by reading the task's counters: the effect of taking a
  // budget snapshot.
  function Survey(c: Config, s: State, task: Id, now: Time, choice: Choice): State {
    Touch(Expire(c, s, now, choice), task, now)
  }

  // What an event about a task does to the governor that emits it: where
  // events are wanted, another budget snapshot.
  function Emitted(c: Config, events: bool, s: State, task: Id, at: Time, choice: Choice): State {
    if events then Survey(c, s, task, at, choice) else s
  }

  function Spend(c: Config, t: Telemetry): Telemetry {
    if t.available.Some? && c.Numeric() && t.available.value > 0 then t.(available := Some(t.available.value - 1)) else t
  }

  function Debit(c: Config, s: State, task: Id, retried: bool, at: Time, now: Time): State {
    var count := TaskOf(s, task);
    s.(tasks := s.tasks[task := Task(count.attempts + 1, count.retries + (if retried then 1 else 0), now)],
       ledger := s.ledger + [Event(at, task)],
       telemetry := Spend(c, s.telemetry))
  }

  // ----- Circuit -----

  function Transition(circuit: Circuit, state: CircuitState, reason: OutcomeClass, openUntil: Time): Circuit {
    circuit.(state := state, reason := reason, openUntil := openUntil)
  }

  function BaseBackoff(responses: int): Duration {
    if responses <= 1 then 15_000_000_000
    else if responses == 2 then 30_000_000_000
    else if responses == 3 then 60_000_000_000
    else 120_000_000_000
  }

  // The cooldown a rate response selects: the provider's own guidance when it
  // gave any, otherwise the jittered baseline, never below the baseline.
  function SelectedBackoff(responses: int, outcome: Outcome, now: Time, jitter: Duration): Duration {
    var after := if outcome.retryAfter > 0 then now + outcome.retryAfter else ZERO;
    var until := if outcome.resetAt > after then outcome.resetAt else after;
    if until != ZERO then until - now else Max(jitter, BaseBackoff(responses))
  }

  function RaisedCooldown(cooldownUntil: Time, selected: Duration, now: Time): Time {
    if selected > 0 then Max(cooldownUntil, now + selected) else cooldownUntil
  }

  function RateResponse(c: Config, circuit: Circuit, outcome: Outcome, now: Time): Circuit {
    var counted := circuit.(rateEvents := circuit.rateEvents + [now]);
    var reopened :=
      if counted.lastRateReset != ZERO && outcome.resetAt > now && now < counted.lastRateReset then
        Transition(counted, OpenUntil, RateCapacity, Max(counted.lastRateReset, outcome.resetAt) + c.resetSafetyMargin)
      else counted;
    var noted := if outcome.resetAt != ZERO then reopened.(lastRateReset := outcome.resetAt) else reopened;
    if |noted.rateEvents| >= c.rateResponseThreshold then Transition(noted, HumanReviewRequired, RateCapacity, ZERO) else noted
  }

  function OtherResponse(circuit: Circuit, class_: OutcomeClass): Circuit {
    if class_.AuthenticationExpired? then Transition(circuit.(refreshRequired := true), OpenUntil, class_, ZERO)
    else if SecuritySignal(class_) then Transition(circuit, HumanReviewRequired, class_, ZERO)
    else circuit
  }

  // A draw fixes what one recorded outcome takes from outside.
  datatype Draw = Draw(jitter: Duration, choice: Choice)

  function AsRecorded(outcome: Outcome): Outcome {
    if outcome.class_.Unclassified? || (outcome.class_.CancelledBeforeUpstream? && Effective(outcome.delivery) != NotSent) then
      outcome.(class_ := UncertainReached)
    else outcome
  }

  function RecordOutcome(c: Config, s: State, task: Id, now: Time, reported: Outcome, draw: Draw): (State, FinishResult) {
    var outcome := AsRecorded(reported);
    var (after, backoff) :=
      if outcome.class_.RateCapacity? then
        var expired := Expire(c, s, now, draw.choice);
        var selected := SelectedBackoff(|expired.circuit.rateEvents| + 1, outcome, now, draw.jitter);
        (expired.(circuit := RateResponse(c, expired.circuit, outcome, now),
                  cooldownUntil := RaisedCooldown(expired.cooldownUntil, selected, now)),
         selected)
      else
        (s.(circuit := OtherResponse(s.circuit, outcome.class_)), 0);
    var touched := Touch(after, task, now);
    var eligible := Recoverable(outcome.class_) && TaskOf(touched, task).retries < c.retryBudget && touched.circuit.state.Closed?;
    (touched, FinishResult(outcome.class_, eligible, backoff, 1, Snapshot(touched.circuit), outcome.delivery, None))
  }

  function Acknowledge(s: State): (State, bool) {
    if s.circuit.state.HumanReviewRequired? then
      (s.(circuit := Transition(s.circuit, Closed, Unclassified, ZERO).(rateEvents := [], lastRateReset := ZERO, refreshRequired := false)), true)
    else (s, false)
  }

  function BeginRefresh(s: State): (State, AdmissionCode) {
    if !s.circuit.refreshRequired then (s, CircuitIsOpen)
    else if s.circuit.refreshInFlight || s.inFlight || s.queue != [] then (s, Delayed)
    else (s.(circuit := s.circuit.(refreshInFlight := true)), Admitted)
  }

  function FinishRefresh(s: State, success: bool): State {
    var circuit := s.circuit.(refreshInFlight := false);
    s.(circuit :=
         if success then Transition(circuit.(refreshRequired := false), Closed, Unclassified, ZERO)
         else Transition(circuit, HumanReviewRequired, AuthenticationExpired, ZERO))
  }

  // ----- Telemetry -----

  function Tighter(known: Option<int>, observed: Option<int>): Option<int> {
    if observed.Some? && (known.None? || observed.value < known.value) then observed else known
  }

  function TelemetryAfter(t: Telemetry, snap: TelemetrySnapshot, now: Time): Telemetry {
    var renewed := t.resetAt == ZERO || t.resetAt != snap.resetAt || t.resetAt <= now;
    var cooled := CooldownAfter(t.cooldownUntil, snap, now);
    Telemetry(
      if snap.resetAt > now && renewed then snap.remaining else Tighter(t.available, snap.remaining),
      if snap.resetAt > now then snap.resetAt else t.resetAt,
      if snap.upstream.UpstreamOpen? then Max(cooled, snap.resetAt) else cooled,
      snap.rateLimited,
      snap.capacityExhausted,
      if snap.upstream.UpstreamUnknown? then t.upstream else snap.upstream,
      t.unsafe || snap.routeMismatch)
  }

  function CooldownAfter(cooldownUntil: Time, snap: TelemetrySnapshot, now: Time): Time {
    var raised := Max(cooldownUntil, snap.cooldownUntil);
    if snap.retryAfter > 0 then Max(raised, now + snap.retryAfter) else raised
  }

  function CircuitAfter(c: Config, circuit: Circuit, previousReset: Time, snap: TelemetrySnapshot, now: Time): Circuit {
    if (snap.rateLimited || snap.capacityExhausted) && previousReset > now && snap.resetAt > now then
      Transition(circuit, OpenUntil, RateCapacity, Max(previousReset, snap.resetAt) + c.resetSafetyMargin)
    else circuit
  }

  function ApplyTelemetry(c: Config, s: State, snap: TelemetrySnapshot, now: Time): State {
    s.(telemetry := TelemetryAfter(s.telemetry, snap, now),
       circuit := CircuitAfter(c, s.circuit, s.telemetry.resetAt, snap, now),
       cooldownUntil := CooldownAfter(s.cooldownUntil, snap, now))
  }

  function Observe(c: Config, s: State, observed: Option<TelemetrySnapshot>, now: Time): State {
    if observed.Some? then ApplyTelemetry(c, s, observed.value, now) else s
  }

  // ----- Admission -----

  // A verdict lets the request through, refuses it, or asks it to wait; a
  // wait until ZERO has no known end.
  datatype Verdict = Pass | Refuse(code: AdmissionCode) | Wait(code: AdmissionCode, until: Time)

  function WaitOrRefuse(code: AdmissionCode, until: Time, now: Time): Verdict {
    if until > now then Wait(code, until) else Refuse(code)
  }

  // The protections that depend on what upstream said.
  function UpstreamVerdict(c: Config, t: Telemetry, cooldownUntil: Time, now: Time): Verdict {
    var headroom := if t.available.Some? && c.Numeric() then t.available.value - c.manualReserve else 1;
    if t.upstream.UpstreamOpen? then WaitOrRefuse(CircuitIsOpen, t.cooldownUntil, now)
    else if now < cooldownUntil then Wait(CooldownActive, cooldownUntil)
    else if t.rateLimited || t.capacityExhausted || headroom <= 0 then WaitOrRefuse(UpstreamAllowanceExhausted, t.resetAt, now)
    else Pass
  }

  function CircuitVerdict(s: State, now: Time): Verdict {
    if s.inFlight then Wait(Delayed, ZERO)
    else if s.telemetry.unsafe then Refuse(UnsafeProviderAmplification)
    else if s.circuit.refreshRequired then Refuse(AuthenticationRefreshRequired)
    else if s.circuit.state.HumanReviewRequired? then Refuse(HumanAcknowledgementRequired)
    else if s.circuit.state.OpenUntil? && s.circuit.openUntil == ZERO then Refuse(CircuitIsOpen)
    else if s.circuit.state.OpenUntil? && now < s.circuit.openUntil then Wait(CircuitIsOpen, s.circuit.openUntil)
    else Pass
  }

  function BudgetVerdict(c: Config, s: State, request: Request, now: Time): Verdict {
    var count := TaskOf(s, request.task);
    var next3h := NextFree(s.ledger, now, THREE_HOURS, c.rolling3h);
    var next1h := NextFree(s.ledger, now, HOUR, c.rolling1h);
    var next10m := NextFree(s.ledger, now, TEN_MINUTES, c.rolling10m);
    if count.attempts >= c.taskBudget then Refuse(TaskBudgetExhausted)
    else if request.retry && count.retries >= c.retryBudget then Refuse(RetryBudgetExhausted)
    else if c.Numeric() && next3h != ZERO then Wait(RollingBudgetExhausted, next3h)
    else if c.Numeric() && next1h != ZERO then Wait(RollingBudgetExhausted, next1h)
    else if c.Numeric() && next10m != ZERO then Wait(RollingBudgetExhausted, next10m)
    else if s.lastStart != ZERO && now < s.lastStart + c.minimumStartInterval then Wait(Delayed, s.lastStart + c.minimumStartInterval)
    else Pass
  }

  // An open window that has passed closes once nothing else holds the circuit.
  function CircuitChecked(s: State, now: Time): Circuit {
    if CircuitVerdict(s, now).Pass? && s.circuit.state.OpenUntil? then Transition(s.circuit, Closed, Unclassified, ZERO) else s.circuit
  }

  function GateVerdict(c: Config, s: State, now: Time): Verdict {
    var circuit := CircuitVerdict(s, now);
    if circuit.Pass? then UpstreamVerdict(c, s.telemetry, s.cooldownUntil, now) else circuit
  }

  // `now` is the instant the caller read before taking the lock, `at` the
  // instant under the lock.
  function Check(c: Config, s: State, request: Request, now: Time, at: Time, choice: Choice): (State, Verdict) {
    var expired := Expire(c, s, now, choice);
    var gate := GateVerdict(c, expired, now);
    var checked := expired.(circuit := CircuitChecked(expired, now),
                            tasks := if gate.Pass? then Touched(expired.tasks, request.task, at) else expired.tasks);
    (checked, if gate.Pass? then BudgetVerdict(c, checked, request, now) else gate)
  }

  function Reserve(s: State, id: Id): State {
    s.(requestIDs := s.requestIDs[id := Pending])
  }

  function Grant(s: State, request: Request): State {
    s.(inFlight := true, activeTask := request.task)
  }

  function WithoutWaiter(s: State, index: nat): State
    requires index < |s.queue|
  {
    s.(queue := s.queue[..index] + s.queue[index + 1..], requestIDs := s.requestIDs - {s.queue[index].request.id})
  }

  function FirstOther(queue: seq<Waiter>, task: Id): (index: nat)
    ensures index <= |queue|
    ensures forall i :: 0 <= i < index ==> queue[i].request.task == task
    ensures index < |queue| ==> queue[index].request.task != task
  {
    if queue == [] || queue[0].request.task != task then 0 else 1 + FirstOther(queue[1..], task)
  }

  // The waiter whose turn it is: the head of the queue, unless the current
  // task has used its quantum and another task is waiting.
  function Eligible(c: Config, s: State): int {
    if s.queue == [] then -1
    else if s.currentTask != "" && s.consecutiveTurns >= c.fairnessQuantum then
      var other := FirstOther(s.queue, s.currentTask);
      if other < |s.queue| then other else 0
    else 0
  }

  // Results of asking for admission: a permit, or a code with a retry time.
  datatype Admission = Granted(permit: Permit) | Turned(code: AdmissionCode, reason: AdmissionCode, retryAt: Time)

  function Turn(code: AdmissionCode): Admission {
    Turned(code, code, ZERO)
  }

  function Postponed(verdict: Verdict): Admission
    requires verdict.Wait?
  {
    Turned(Delayed, verdict.code, verdict.until)
  }

  function NextAvailable(c: Config, s: State, now: Time): Time {
    if s.lastStart != ZERO then s.lastStart + c.minimumStartInterval else now
  }

  function TryAdmit(c: Config, s: State, request: Request, at: Time, observed: Option<TelemetrySnapshot>, cancelled: bool,
                    pruned: Choice, checked: Choice): (State, Admission)
  {
    if s.closed then (s, Turn(GovernorClosed))
    else
      var s1 := Prune(s, at, pruned);
      if request.id in s1.requestIDs then (s1, Turn(DuplicateClientRequest))
      else if |s1.queue| >= c.queueCapacity then (s1, Turn(QueueFull))
      else if s1.queue != [] || s1.inFlight then (s1, Turned(Delayed, Delayed, NextAvailable(c, s1, at)))
      else if cancelled then (s1, Turn(ContextCancelled))
      else
        var (s2, verdict) := Check(c, Observe(c, s1, observed, at), request, at, at, checked);
        match verdict
        case Wait(_, _) => (s2, Postponed(verdict))
        case Refuse(code) => (s2, Turn(code))
        case Pass => (Grant(Reserve(s2, request.id), request), Granted(Fresh(request)))
  }

  function Joined(s: State, request: Request): State {
    s.(requestIDs := s.requestIDs[request.id := Pending], queue := s.queue + [Waiter(s.tickets, request)], tickets := s.tickets + 1)
  }

  function Enqueue(c: Config, s: State, request: Request, at: Time, pruned: Choice): (State, Option<AdmissionCode>) {
    if s.closed then (s, Some(GovernorClosed))
    else
      var s1 := Prune(s, at, pruned);
      if request.id in s1.requestIDs then (s1, Some(DuplicateClientRequest))
      else if |s1.queue| >= c.queueCapacity then (s1, Some(QueueFull))
      else (Joined(s1, request), None)
  }

  function QueueCheck(c: Config, s: State, index: nat, now: Time, at: Time, observed: Option<TelemetrySnapshot>, cancelled: bool,
                      checked: Choice): (State, Admission)
    requires index < |s.queue|
  {
    var request := s.queue[index].request;
    var s1 := Observe(c, s, observed, now);
    if cancelled then (WithoutWaiter(s1, index), Turn(ContextCancelled))
    else
      var (s2, verdict) := Check(c, s1, request, now, at, checked);
      match verdict
      case Wait(_, _) => (s2, Postponed(verdict))
      case Refuse(code) => (WithoutWaiter(s2, index), Turn(code))
      case Pass => (Grant(Reserve(WithoutWaiter(s2, index), request.id), request), Granted(Fresh(request)))
  }

  // Whether the evictions of an admission fit the states they meet.
  ghost predicate AdmitFits(c: Config, s: State, request: Request, at: Time, observed: Option<TelemetrySnapshot>, cancelled: bool,
                            pruned: Choice, checked: Choice)
  {
    s.closed ||
    (Fits(s, at, pruned) &&
     var s1 := Prune(s, at, pruned);
     request.id in s1.requestIDs || |s1.queue| >= c.queueCapacity || s1.queue != [] || s1.inFlight || cancelled
     || Fits(Observe(c, s1, observed, at), at, checked))
  }

  // Close turns away everyone waiting; their request records stay.
  function Close(s: State): State {
    if s.closed then s else s.(closed := true, queue := [])
  }

  // ----- Permit lifecycle -----

  function MarkActive(s: State, id: Id): State {
    if id in s.requestIDs then s.(requestIDs := s.requestIDs[id := Active]) else s
  }

  function Complete(s: State, id: Id, at: Time): State {
    if id in s.requestIDs then
      s.(requestIDs := s.requestIDs[id := Completed(at)], completed := s.completed + [Completion(id, at)])
    else s
  }

  function Vacate(s: State): State {
    s.(inFlight := false, activeTask := "")
  }

  function StartError(s: State, p: Permit): Option<PermitError> {
    if p.completed then Some(PermitCompleted)
    else if p.started then Some(PermitStarted)
    else if !s.inFlight then Some(PermitNotHeld)
    else None
  }

  function TakeTurn(s: State, task: Id): State {
    s.(consecutiveTurns := if s.currentTask == task then s.consecutiveTurns + 1 else 1, currentTask := task)
  }

  // What a start does to the governor, and the sequence number it assigns.
  function BeginAttempt(c: Config, s: State, request: Request, receiptAware: bool, now: Time, choice: Choice): (State, int) {
    var surveyed := Survey(c, s, request.task, now, choice);
    var counted := MarkActive(surveyed.(nextAttempt := surveyed.nextAttempt + 1), request.id);
    var turned := TakeTurn(if receiptAware then counted else counted.(lastStart := now), request.task);
    (if receiptAware then turned else Debit(c, turned, request.task, request.retry, now, now), surveyed.nextAttempt)
  }

  function Begin(c: Config, s: State, p: Permit, receiptAware: bool, now: Time, choice: Choice): (State, Permit) {
    var (s', sequence) := BeginAttempt(c, s, p.request, receiptAware, now, choice);
    (s', p.(started := true, receiptAware := receiptAware, startedAt := now, attemptSequence := sequence))
  }

  function Start(c: Config, s: State, p: Permit, receiptAware: bool, now: Time, choice: Choice): (State, Permit, Option<PermitError>) {
    var error := StartError(s, p);
    if error.Some? then (s, p, error)
    else
      var (s', p') := Begin(c, s, p, receiptAware, now, choice);
      (s', p', None)
  }

  function CancelBeforeStart(s: State, p: Permit): (State, Permit, Option<PermitError>) {
    if p.completed then (s, p, Some(PermitCompleted))
    else if p.started then (s, p, Some(PermitStarted))
    else (Vacate(s.(requestIDs := s.requestIDs - {p.request.id})), p.(completed := true), None)
  }

  function FinishError(p: Permit): Option<PermitError> {
    if p.completed then Some(PermitCompleted) else if !p.started then Some(PermitNotStarted) else None
  }

  function CancelAfterStart(s: State, p: Permit, now: Time): (State, Permit, FinishResult) {
    var error := FinishError(p);
    if error.Some? then (s, p, Refused(error.value))
    else
      (Vacate(Complete(s, p.request.id, now)), p.(completed := true),
       FinishResult(CancelledBeforeUpstream, false, 0, 0, Snapshot(s.circuit), Unobserved, None))
  }

  function Finish(c: Config, s: State, p: Permit, outcome: Outcome, now: Time, surveyed: Choice, draw: Draw): (State, Permit, FinishResult) {
    var error := FinishError(p);
    if error.Some? then (s, p, Refused(error.value))
    else if p.receiptAware then (s, p, Refused(ReceiptsRequired))
    else
      var (s1, result) := RecordOutcome(c, Survey(c, s, p.request.task, now, surveyed), p.request.task, now, outcome, draw);
      (Vacate(Complete(s1, p.request.id, now)), p.(completed := true), result)
  }

  // Whether the evictions of a finish fit the states they meet.
  ghost predicate FinishFits(c: Config, s: State, p: Permit, outcome: Outcome, now: Time, surveyed: Choice, draw: Draw) {
    FinishError(p).Some? || p.receiptAware ||
    (Fits(s, now, surveyed) &&
     (AsRecorded(outcome).class_.RateCapacity? ==> Fits(Survey(c, s, p.request.task, now, surveyed), now, draw.choice)))
  }

  // ----- Receipt reconciliation -----

  function Unseen(receipts: seq<Receipt>, seen: map<Id, Time>): seq<Receipt> {
    if receipts == [] then []
    else (if receipts[0].attemptID in seen then [] else [receipts[0]]) + Unseen(receipts[1..], seen)
  }

  function Remember(seen: map<Id, Time>, receipts: seq<Receipt>, now: Time): map<Id, Time>
    decreases receipts
  {
    if receipts == [] then seen else Remember(seen[receipts[0].attemptID := now], receipts[1..], now)
  }

  // Clock skew never moves a debit before the permit started or past now.
  function Normalized(remote: Time, localStart: Time, localNow: Time): Time {
    if remote < localStart then localStart else if remote > localNow then localNow else remote
  }

  function DebitReceipt(c: Config, s: State, p: Permit, r: Receipt, now: Time): State {
    var count := TaskOf(s, p.request.task);
    s.(ledger := s.ledger + [Event(Normalized(r.startedAt, p.startedAt, now), p.request.task)],
       tasks := s.tasks[p.request.task :=
         count.(attempts := count.attempts + 1, retries := count.retries + (if r.sequence > 1 || p.request.retry then 1 else 0))],
       nextAttempt := if r.sequence > 1 then s.nextAttempt + 1 else s.nextAttempt,
       telemetry := Spend(c, s.telemetry))
  }

  function DebitReceipts(c: Config, s: State, p: Permit, receipts: seq<Receipt>, now: Time): State
    decreases receipts
  {
    if receipts == [] then s else DebitReceipts(c, DebitReceipt(c, s, p, receipts[0], now), p, receipts[1..], now)
  }

  function LatestStart(receipts: seq<Receipt>, localStart: Time, now: Time): Time {
    if receipts == [] then ZERO
    else
      var last := |receipts| - 1;
      Max(LatestStart(receipts[..last], localStart, now), Normalized(receipts[last].startedAt, localStart, now))
  }

  function ReceiptClassOf(outcome: ReceiptOutcome): OutcomeClass {
    match outcome
    case Ok => Success
    case Classified(class_) => class_
    case _ => UncertainReached
  }

  function ContainsUncertain(receipts: seq<Receipt>): bool {
    exists r :: r in receipts && (r.outcome in {Error, HttpError, TransportError, Cancelled, Uncertain}
                                  || r.outcome in {ReceiptOutcome.Classified(ConnectionReset), ReceiptOutcome.Classified(Timeout)})
  }

  function ReceiptOutcomes(receipts: seq<Receipt>): seq<Outcome> {
    seq(|receipts|, i requires 0 <= i < |receipts| => Outcome(ReceiptClassOf(receipts[i].outcome), 0, ZERO, Unobserved))
  }

  // The outcomes recorded for a reconciled set: one per new receipt, the last
  // carrying the call's own guidance when it says the same thing, then the
  // call's outcome itself when it says something else.
  function OutcomesToRecord(receipts: seq<Receipt>, outcome: Outcome): seq<Outcome>
    requires receipts != []
  {
    var each := ReceiptOutcomes(receipts);
    var last := |each| - 1;
    if outcome.class_ in {Unclassified, Success} then each
    else if outcome.class_ == each[last].class_ then
      each[last := each[last].(retryAfter := outcome.retryAfter, resetAt := outcome.resetAt)]
    else each + [outcome]
  }

  // Records `outcomes` in order; the duration is the longest backoff selected.
  function RecordAll(c: Config, s: State, task: Id, now: Time, outcomes: seq<Outcome>, draws: seq<Draw>): (State, Duration)
    requires |draws| == |outcomes|
  {
    if outcomes == [] then (s, 0)
    else
      var last := |outcomes| - 1;
      var (before, longest) := RecordAll(c, s, task, now, outcomes[..last], draws[..last]);
      var (after, result) := RecordOutcome(c, before, task, now, outcomes[last], draws[last]);
      (after, Max(longest, result.backoff))
  }

  function Aggregate(first: OutcomeClass, receipts: seq<Receipt>): OutcomeClass {
    if receipts == [] then first
    else
      var last := |receipts| - 1;
      Stronger(Aggregate(first, receipts[..last]), ReceiptClassOf(receipts[last].outcome))
  }

  function Expected(c: Config, p: Permit, now: Time): Expectation {
    Expectation(p.request.id, c.attemptProvider, c.model, c.accountLaneHash, p.startedAt, now, false, now)
  }

  function PolicyError(c: Config, s: ReceiptSet, p: Permit, now: Time, replayed: bool): Option<PermitError> {
    if |s.receipts| > 1 && Rejection(s, Expected(c, p, now).(singleAttempt := true)).Some? then Some(ReceiptsInvalid)
    else if replayed then Some(ReceiptReplayed)
    else None
  }

  // The debit of a call whose receipts cannot be believed: the lane's last
  // start moves to the permit's own start.
  function DebitUncertain(c: Config, s: State, request: Request, startedAt: Time, now: Time): State {
    var debitAt := if startedAt == ZERO then now else startedAt;
    Debit(c, s.(lastStart := debitAt), request.task, request.retry, debitAt, now)
  }

  function Distrusted(s: State): State {
    s.(telemetry := s.telemetry.(unsafe := true))
  }

  // Receipt authority is missing or refused: the lane becomes unsafe and, when
  // the call may have reached upstream unaccounted, one attempt is debited.
  function ReceiptFailure(c: Config, s: State, p: Permit, error: PermitError, debit: bool, delivery: Delivery, now: Time, choice: Choice)
    : (State, Permit, FinishResult)
  {
    var surveyed := Survey(c, Distrusted(s), p.request.task, now, choice);
    (Vacate(Complete(if debit then DebitUncertain(c, surveyed, p.request, p.startedAt, now) else surveyed, p.request.id, now)), p.(completed := true),
     FinishResult(UncertainReached, false, 0, if debit then 1 else 0, Snapshot(surveyed.circuit), delivery, Some(error)))
  }

  // The state once every new receipt has been debited, before outcomes are
  // recorded.
  function Reconciled(c: Config, s: State, p: Permit, novel: seq<Receipt>, now: Time, surveyed: Choice): State {
    DebitReceipts(c, Survey(c, s.(attemptIDs := Remember(s.attemptIDs, novel, now)), p.request.task, now, surveyed), p, novel, now)
  }

  // The strongest thing the call and its receipts say.
  function SettledClass(call: Outcome, receipts: seq<Receipt>, novel: seq<Receipt>): OutcomeClass {
    var aggregate := Aggregate(if call.class_.Unclassified? then Success else call.class_, novel);
    Stronger(Success, if ContainsUncertain(receipts) then Stronger(aggregate, UncertainReached) else aggregate)
  }

  function Conclude(s: State, id: Id, unsafe: bool, latestStart: Time, now: Time): State {
    var s1 := if unsafe then Distrusted(s) else s;
    Vacate(Complete(s1.(lastStart := Max(s1.lastStart, latestStart)), id, now))
  }

  function ConcludedResult(c: Config, s: State, task: Id, settled: OutcomeClass, backoff: Duration, debited: nat, delivery: Delivery,
                           error: Option<PermitError>): FinishResult
  {
    var eligible := Recoverable(settled) && TaskOf(s, task).retries < c.retryBudget && s.circuit.state.Closed?;
    FinishResult(if error.Some? then Stronger(settled, UncertainReached) else settled, error.None? && eligible, backoff, debited,
                 Snapshot(s.circuit), delivery, error)
  }

  function FinishReconciled(c: Config, s: State, p: Permit, outcome: Outcome, receipts: seq<Receipt>, novel: seq<Receipt>,
                            error: Option<PermitError>, now: Time, surveyed: Choice, draws: seq<Draw>): (State, Permit, FinishResult)
    requires novel != []
    requires |draws| == |OutcomesToRecord(novel, CallOutcome(outcome))|
  {
    var call := CallOutcome(outcome);
    var s1 := Reconciled(c, s, p, novel, now, surveyed);
    var (s2, backoff) := RecordAll(c, s1, p.request.task, now, OutcomesToRecord(novel, call), draws);
    (Conclude(s2, p.request.id, error.Some?, LatestStart(novel, p.startedAt, now), now), p.(completed := true),
     ConcludedResult(c, s2, p.request.task, SettledClass(call, receipts, novel), backoff, |novel|, outcome.delivery, error))
  }

  function CallOutcome(outcome: Outcome): Outcome {
    if outcome.class_.CancelledBeforeUpstream? && Effective(outcome.delivery) != NotSent then outcome.(class_ := UncertainReached) else outcome
  }

  // The receipts of `s` that are new once identities past retention, and the
  // evicted ones, are forgotten.
  function NewReceipts(s: State, set_: ReceiptSet, now: Time, evicted: set<Id>): seq<Receipt> {
    Unseen(set_.receipts, YoungAttempts(s.attemptIDs, now) - evicted)
  }

  // What a receipt finish draws from outside: the identities evicted when
  // receipts are compared, the keys evicted by the budget snapshot, and one
  // draw per outcome recorded.
  datatype Draws = Draws(evicted: set<Id>, surveyed: Choice, outcomes: seq<Draw>)

  predicate Settles(c: Config, s: State, p: Permit, outcome: Outcome, set_: Option<ReceiptSet>, now: Time, evicted: set<Id>) {
    && FinishError(p).None? && p.receiptAware
    && set_.Some? && Rejection(set_.value, Expected(c, p, now)).None?
    && NewReceipts(s, set_.value, now, evicted) != []
  }

  function FinishReceipts(c: Config, s: State, p: Permit, outcome: Outcome, set_: Option<ReceiptSet>, now: Time, draws: Draws)
    : (State, Permit, FinishResult)
    requires Settles(c, s, p, outcome, set_, now, draws.evicted) ==>
      |draws.outcomes| == |OutcomesToRecord(NewReceipts(s, set_.value, now, draws.evicted), CallOutcome(outcome))|
  {
    var error := FinishError(p);
    if error.Some? then (s, p, Refused(error.value))
    else if !p.receiptAware then (s, p, Refused(ReceiptsRequired))
    else if set_.None? || Rejection(set_.value, Expected(c, p, now)).Some? then
      ReceiptFailure(c, s, p, ReceiptsInvalid, true, outcome.delivery, now, draws.surveyed)
    else
      var pruned := s.(attemptIDs := YoungAttempts(s.attemptIDs, now) - draws.evicted);
      var novel := NewReceipts(s, set_.value, now, draws.evicted);
      var policy := PolicyError(c, set_.value, p, now, |novel| < |set_.value.receipts|);
      if novel == [] then
        ReceiptFailure(c, pruned, p, if policy.Some? then policy.value else ReceiptReplayed, false, outcome.delivery, now, draws.surveyed)
      else FinishReconciled(c, pruned, p, outcome, set_.value.receipts, novel, policy, now, draws.surveyed, draws.outcomes)
  }

  // Whether the draws of a sequence of outcomes fit the states they meet.
  ghost predicate DrawsFit(c: Config, s: State, task: Id, now: Time, outcomes: seq<Outcome>, draws: seq<Draw>)
    requires |draws| == |outcomes|
    decreases |outcomes|
  {
    outcomes == [] ||
    var last := |outcomes| - 1;
    && DrawsFit(c, s, task, now, outcomes[..last], draws[..last])
    && (AsRecorded(outcomes[last]).class_.RateCapacity? ==>
          Fits(RecordAll(c, s, task, now, outcomes[..last], draws[..last]).0, now, draws[last].choice))
  }

  // Whether everything a receipt finish draws fits the states it meets.
  ghost predicate DrawsOf(c: Config, s: State, p: Permit, outcome: Outcome, set_: Option<ReceiptSet>, now: Time, draws: Draws)
  {
    if set_.None? || Rejection(set_.value, Expected(c, p, now)).Some? then Fits(Distrusted(s), now, draws.surveyed)
    else
      var pruned := s.(attemptIDs := YoungAttempts(s.attemptIDs, now) - draws.evicted);
      var novel := NewReceipts(s, set_.value, now, draws.evicted);
      && AttemptsFit(s.attemptIDs, now, draws.evicted)
      && if novel == [] then Fits(Distrusted(pruned), now, draws.surveyed)
         else
           && Fits(pruned.(attemptIDs := Remember(pruned.attemptIDs, novel, now)), now, draws.surveyed)
           && |draws.outcomes| == |OutcomesToRecord(novel, CallOutcome(outcome))|
           && DrawsFit(c, Reconciled(c, pruned, p, novel, now, draws.surveyed), p.request.task, now,
                       OutcomesToRecord(novel, CallOutcome(outcome)), draws.outcomes)
  }

  // ----- Durable projection -----

  datatype Persisted = Persisted(
    nextAttempt: int,
    lastStart: Time,
    cooldownUntil: Time,
    circuit: Option<CircuitSnapshot>,
    rateEvents: seq<Time>,
    lastRateReset: Time,
    telemetry: Telemetry,
    rolling: seq<Event>,
    tasks: map<Id, Task>,
    requestIDs: map<Id, Record>,
    attemptIDs: map<Id, Time>)

  function Project(s: State): Persisted {
    Persisted(s.nextAttempt, s.lastStart, s.cooldownUntil, Some(Snapshot(s.circuit)), s.circuit.rateEvents, s.circuit.lastRateReset,
              s.telemetry, s.ledger, s.tasks, s.requestIDs, s.attemptIDs)
  }

  function Dated(events: seq<Event>): seq<Event> {
    if events == [] then [] else (if events[0].at == ZERO then [] else [events[0]]) + Dated(events[1..])
  }

  function RestoreCircuit(circuit: Circuit, saved: Persisted, now: Time): Circuit {
    var base :=
      if saved.circuit.Some? then
        circuit.(state := saved.circuit.value.state, reason := saved.circuit.value.reason, openUntil := saved.circuit.value.openUntil,
                 refreshRequired := saved.circuit.value.refreshRequired)
      else circuit;
    var dated := base.(rateEvents := saved.rateEvents, lastRateReset := saved.lastRateReset);
    if dated.state.OpenUntil? && dated.openUntil != ZERO && dated.openUntil <= now then Transition(dated, Closed, Unclassified, ZERO) else dated
  }

  function MergeSeen(known: map<Id, Time>, saved: map<Id, Time>): map<Id, Time> {
    known + (map id | id in saved && saved[id] != ZERO :: saved[id])
  }

  function Revived(known: Telemetry, saved: Telemetry): Telemetry {
    saved.(available := if saved.available.Some? then saved.available else known.available)
  }

  function MergeRecords(s: State, saved: Persisted): State {
    s.(tasks := s.tasks + saved.tasks,
       requestIDs := s.requestIDs + saved.requestIDs,
       attemptIDs := MergeSeen(s.attemptIDs, saved.attemptIDs))
  }

  function MergeProtections(s: State, saved: Persisted, now: Time): State {
    s.(nextAttempt := Max(s.nextAttempt, saved.nextAttempt),
       lastStart := saved.lastStart,
       cooldownUntil := saved.cooldownUntil,
       circuit := RestoreCircuit(s.circuit, saved, now),
       telemetry := Revived(s.telemetry, saved.telemetry))
  }

  function Merge(s: State, saved: Persisted, now: Time): State {
    var merged := MergeProtections(s, saved, now);
    MergeRecords(merged.(ledger := merged.ledger + Dated(saved.rolling)), saved)
  }

  function Restore(s: State, saved: Persisted, now: Time, pruned: Choice): State {
    Prune(Merge(s, saved, now), now, pruned)
  }
}
