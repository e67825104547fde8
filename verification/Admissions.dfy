/** Who is let through, stated outright: a request is granted exactly when
    everything the governor protects allows it, and joins the queue exactly when
    there is room for it.
 */
module Admissions {
  import opened Clock
  import opened Policy
  import opened Ledger
  import opened Retention
  import opened AttemptReceipts
  import opened Lane
  import opened Runs
  import opened Allowance
  import opened RetryInstants

  // One more attempt fits the task's budgets, every rolling window and the
  // pace of the lane.
  predicate Affordable(c: Config, s: State, count: Task, request: Request, now: Time) {
    && count.attempts < c.taskBudget && (request.retry ==> count.retries < c.retryBudget)
    && (c.Numeric() ==>
          && Used(s.ledger, now, THREE_HOURS) < c.rolling3h
          && Used(s.ledger, now, HOUR) < c.rolling1h
          && Used(s.ledger, now, TEN_MINUTES) < c.rolling10m)
    && (s.lastStart != ZERO ==> s.lastStart + c.minimumStartInterval <= now)
  }

  lemma WindowIs(events: seq<Event>, now: Time, window: Duration, ceiling: int)
    requires ZERO < now && ceiling > 0 && window <= THREE_HOURS
    ensures NextFree(DropExpired(events, now - THREE_HOURS), now, window, ceiling) == ZERO <==> Used(events, now, window) < ceiling
  {
    hide CountAfter, FirstAfter, DropExpired;
    ExpiredCounts(events, now, now, window);
    if ceiling <= Used(events, now, window) {
      FullWindowBlocks(events, now, window, ceiling);
    }
  }

  lemma CheckedIs(c: Config, s: State, request: Request, now: Time, at: Time, choice: Choice)
    ensures var expired, checked := Lane.Expire(c, s, now, choice), Check(c, s, request, now, at, choice).0;
            && checked.ledger == DropExpired(s.ledger, now - THREE_HOURS) && checked.lastStart == s.lastStart
            && TaskOf(checked, request.task).attempts == TaskOf(expired, request.task).attempts
            && TaskOf(checked, request.task).retries == TaskOf(expired, request.task).retries
  {
    hide PruneRequests, YoungTasks, YoungAttempts, Keepers, RecentRates, ExpireTelemetry, CircuitChecked, GateVerdict, BudgetVerdict, DropExpired;
  }

  /** A check lets a request through if and only if everything is clear and one
      more attempt is affordable; the counters are those that survive the prune
      of that check. */
  lemma PassesExactly(c: Config, s: State, request: Request, now: Time, at: Time, choice: Choice)
    requires c.Valid() && ZERO < now
    ensures Check(c, s, request, now, at, choice).1.Pass?
       <==> Clear(c, s, now) && Affordable(c, s, TaskOf(Lane.Expire(c, s, now, choice), request.task), request, now)
  {
    hide Lane.Expire, CircuitChecked, GateVerdict, NextFree, DropExpired, CountAfter, Touched, Clear;
    GatesPassExactly(c, s, now, choice);
    CheckedIs(c, s, request, now, at, choice);
    if c.Numeric() {
      WindowIs(s.ledger, now, THREE_HOURS, c.rolling3h);
      WindowIs(s.ledger, now, HOUR, c.rolling1h);
      WindowIs(s.ledger, now, TEN_MINUTES, c.rolling10m);
    }
  }

  // The lane is free and trusted, and its circuit holds nobody back.
  predicate LaneClear(s: State, now: Time) {
    && !s.inFlight && !s.telemetry.unsafe && !s.circuit.refreshRequired && !s.circuit.state.HumanReviewRequired?
    && (s.circuit.state.OpenUntil? ==> s.circuit.openUntil != ZERO && s.circuit.openUntil <= now)
  }

  // What each code says is in the way, and that nothing asked about before it
  // was.
  predicate Because(c: Config, s: State, count: Task, request: Request, now: Time, code: AdmissionCode) {
    match code
    case UnsafeProviderAmplification => !s.inFlight && s.telemetry.unsafe
    case AuthenticationRefreshRequired => !s.inFlight && !s.telemetry.unsafe && s.circuit.refreshRequired
    case HumanAcknowledgementRequired => !s.inFlight && !s.telemetry.unsafe && !s.circuit.refreshRequired && s.circuit.state.HumanReviewRequired?
    case CircuitIsOpen =>
      if LaneClear(s, now) then s.telemetry.upstream.UpstreamOpen?
      else !s.inFlight && !s.telemetry.unsafe && !s.circuit.refreshRequired && s.circuit.state.OpenUntil?
    case CooldownActive => LaneClear(s, now) && !s.telemetry.upstream.UpstreamOpen? && now < s.cooldownUntil
    case UpstreamAllowanceExhausted =>
      LaneClear(s, now) && !s.telemetry.upstream.UpstreamOpen? && s.cooldownUntil <= now && !Clear(c, s, now)
    case TaskBudgetExhausted => Clear(c, s, now) && count.attempts >= c.taskBudget
    case RetryBudgetExhausted => Clear(c, s, now) && count.attempts < c.taskBudget && request.retry && count.retries >= c.retryBudget
    case RollingBudgetExhausted =>
      && Clear(c, s, now) && count.attempts < c.taskBudget && (request.retry ==> count.retries < c.retryBudget) && c.Numeric()
      && (Used(s.ledger, now, THREE_HOURS) >= c.rolling3h || Used(s.ledger, now, HOUR) >= c.rolling1h || Used(s.ledger, now, TEN_MINUTES) >= c.rolling10m)
    case Delayed => s.inFlight || (Clear(c, s, now) && !Affordable(c, s, count, request, now) && Affordable(c, s.(lastStart := ZERO), count, request, now))
    case _ => false
  }

  // Whether what the code says ends by itself, at an instant that is known.
  predicate Passing(s: State, now: Time, code: AdmissionCode) {
    match code
    case Delayed => true
    case CooldownActive => true
    case RollingBudgetExhausted => true
    case CircuitIsOpen =>
      if !LaneClear(s, now) then s.circuit.openUntil != ZERO
      else now < s.telemetry.cooldownUntil && (s.telemetry.resetAt == ZERO || now < s.telemetry.resetAt)
    case UpstreamAllowanceExhausted => now < s.telemetry.resetAt
    case _ => false
  }

  lemma GateTellsWhy(c: Config, s: State, request: Request, now: Time, choice: Choice)
    requires ZERO < now
    ensures var gate, count := GateVerdict(c, Lane.Expire(c, s, now, choice), now), TaskOf(Lane.Expire(c, s, now, choice), request.task);
            !gate.Pass? ==> Because(c, s, count, request, now, gate.code) && (gate.Wait? <==> Passing(s, now, gate.code))
  {
    hide Lane.Expire;
    ExpiryIs(c, s, now, choice);
  }

  lemma BudgetTellsWhy(c: Config, s: State, checked: State, count: Task, request: Request, now: Time)
    requires c.Valid() && ZERO < now && Clear(c, s, now)
    requires checked.ledger == DropExpired(s.ledger, now - THREE_HOURS) && checked.lastStart == s.lastStart
    requires TaskOf(checked, request.task).attempts == count.attempts && TaskOf(checked, request.task).retries == count.retries
    ensures var verdict := BudgetVerdict(c, checked, request, now);
            !verdict.Pass? ==> Because(c, s, count, request, now, verdict.code) && (verdict.Wait? <==> Passing(s, now, verdict.code))
  {
    hide NextFree, DropExpired, CountAfter, Clear;
    if c.Numeric() {
      WindowIs(s.ledger, now, THREE_HOURS, c.rolling3h);
      WindowIs(s.ledger, now, HOUR, c.rolling1h);
      WindowIs(s.ledger, now, TEN_MINUTES, c.rolling10m);
    }
  }

  /** A check that lets nobody through gives as its code the first thing in the
      way, in the order asked, and asks to wait, rather than refuse, if and only
      if that ends by itself at an instant that is known. */
  lemma VerdictsTellWhy(c: Config, s: State, request: Request, now: Time, at: Time, choice: Choice)
    requires c.Valid() && ZERO < now
    ensures var verdict, count := Check(c, s, request, now, at, choice).1, TaskOf(Lane.Expire(c, s, now, choice), request.task);
            !verdict.Pass? ==> Because(c, s, count, request, now, verdict.code) && (verdict.Wait? <==> Passing(s, now, verdict.code))
  {
    hide Lane.Expire, CircuitChecked, GateVerdict, BudgetVerdict, Touched, Clear, Because, Passing;
    var expired := Lane.Expire(c, s, now, choice);
    GateTellsWhy(c, s, request, now, choice);
    GatesPassExactly(c, s, now, choice);
    CheckedIs(c, s, request, now, at, choice);
    if Clear(c, s, now) {
      BudgetTellsWhy(c, s, Check(c, s, request, now, at, choice).0, TaskOf(expired, request.task), request, now);
    }
  }

  /** There is only ever one such code, and only where the check does not pass. */
  lemma OneReason(c: Config, s: State, request: Request, now: Time, at: Time, choice: Choice, code: AdmissionCode)
    requires c.Valid() && ZERO < now
    requires Because(c, s, TaskOf(Lane.Expire(c, s, now, choice), request.task), request, now, code)
    ensures var verdict := Check(c, s, request, now, at, choice).1; !verdict.Pass? && verdict.code == code
  {
    hide Check, Lane.Expire, CountAfter;
    PassesExactly(c, s, request, now, at, choice);
    VerdictsTellWhy(c, s, request, now, at, choice);
  }

  // Nothing the governor protects is against the request.
  predicate Admissible(c: Config, s: State, request: Request, now: Time, choice: Choice) {
    Clear(c, s, now) && Affordable(c, s, TaskOf(Lane.Expire(c, s, now, choice), request.task), request, now)
  }

  /** Admission without waiting grants a permit if and only if the governor is
      open, the caller is still there, nobody holds or remembers the id, nobody
      waits, and the request is admissible; the permit is new and the lane
      works for its task. */
  lemma AdmittedExactly(c: Config, s: State, request: Request, at: Time, observed: Option<TelemetrySnapshot>, cancelled: bool,
                        pruned: Choice, checked: Choice)
    requires c.Valid() && ZERO < at
    ensures var (s', admission) := TryAdmit(c, s, request, at, observed, cancelled, pruned, checked);
            var known := Prune(s, at, pruned);
            && (admission.Granted? <==>
                  && !s.closed && !cancelled && request.id !in known.requestIDs && s.queue == []
                  && Admissible(c, Observe(c, known, observed, at), request, at, checked))
            && (admission.Granted? ==>
                  && admission.permit == Fresh(request) && s'.inFlight && s'.activeTask == request.task
                  && request.id in s'.requestIDs && s'.requestIDs[request.id] == Pending)
  {
    hide Check, Observe, Lane.Expire, Affordable, PruneRequests, YoungTasks, YoungAttempts, Keepers;
    var known := Prune(s, at, pruned);
    PassesExactly(c, Observe(c, known, observed, at), request, at, at, checked);
    ObserveKeepsLane(c, known, observed, at);
  }

  lemma ObserveKeepsLane(c: Config, s: State, observed: Option<TelemetrySnapshot>, now: Time)
    ensures var s' := Observe(c, s, observed, now);
            s'.inFlight == s.inFlight && s'.queue == s.queue && s'.requestIDs == s.requestIDs && s'.closed == s.closed
  {
    hide TelemetryAfter, CircuitAfter, CooldownAfter;
  }

  lemma CheckKeepsQueue(c: Config, s: State, request: Request, now: Time, at: Time, choice: Choice)
    ensures Check(c, s, request, now, at, choice).0.queue == s.queue
  {
    hide PruneRequests, YoungTasks, YoungAttempts, Keepers, RecentRates, ExpireTelemetry, CircuitChecked, GateVerdict, BudgetVerdict;
  }

  /** A look grants the waiter a permit if and only if it is still there and its
      request is admissible. A waiter granted, refused or cancelled leaves the
      queue, and only a granted one keeps its id; any other stays as it was. */
  lemma LookedExactly(c: Config, s: State, index: nat, now: Time, at: Time, observed: Option<TelemetrySnapshot>, cancelled: bool, checked: Choice)
    requires c.Valid() && ZERO < now && index < |s.queue|
    ensures var request, (s', admission) := s.queue[index].request, QueueCheck(c, s, index, now, at, observed, cancelled, checked);
            && (admission.Granted? <==> !cancelled && Admissible(c, Observe(c, s, observed, now), request, now, checked))
            && (cancelled ==> admission == Turned(ContextCancelled, ContextCancelled, ZERO))
            && (admission.Granted? ==>
                  && admission.permit == Fresh(request) && s'.inFlight && s'.activeTask == request.task
                  && request.id in s'.requestIDs && s'.requestIDs[request.id] == Pending)
            && (admission.Turned? && !admission.code.Delayed? ==> request.id !in s'.requestIDs)
            && s'.queue == if admission.Turned? && admission.code.Delayed? then s.queue else s.queue[..index] + s.queue[index + 1..]
  {
    hide Check, Observe, Lane.Expire, Affordable, Clear;
    var request, s1 := s.queue[index].request, Observe(c, s, observed, now);
    PassesExactly(c, s1, request, now, at, checked);
    ObserveKeepsLane(c, s, observed, now);
    CheckKeepsQueue(c, s1, request, now, at, checked);
    RefusalsSayNoDelay(c, s1, request, now, at, checked);
  }

  /** A request joins the queue, at its end, if and only if the governor is open,
      nobody holds or remembers its id, and there is room. */
  lemma JoinsExactly(c: Config, s: State, request: Request, at: Time, pruned: Choice)
    ensures var (s', refusal) := Enqueue(c, s, request, at, pruned);
            && (refusal.None? <==> !s.closed && request.id !in Prune(s, at, pruned).requestIDs && |s.queue| < c.queueCapacity)
            && (refusal.None? ==>
                  && |s'.queue| == |s.queue| + 1 && s'.queue[..|s.queue|] == s.queue && s'.queue[|s.queue|].request == request
                  && request.id in s'.requestIDs && s'.requestIDs[request.id] == Pending)
            && (refusal.Some? ==> s'.queue == s.queue)
  {
    hide PruneRequests, YoungTasks, YoungAttempts, Keepers;
  }
}
