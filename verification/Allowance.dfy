/** The allowance upstream reports: within one of its windows the remaining count
    never rises, every debit takes one from it, and what is reserved for manual
    use is not handed out.
 */
module Allowance {
  import opened Clock
  import opened Policy
  import opened Ledger
  import opened Retention
  import opened AttemptReceipts
  import opened Lane
  import opened Runs
  import opened LedgerOrder
  import RequestIds

  // ----- What lets a caller through -----

  // Upstream said nothing against another call: no limit, and more left than
  // the manual reserve where that is counted.
  predicate Ample(c: Config, t: Telemetry) {
    && !t.rateLimited && !t.capacityExhausted
    && (c.Numeric() && t.available.Some? ==> c.manualReserve < t.available.value)
  }

  // Nothing but its own budgets and the pace may hold a caller back at `now`.
  predicate Clear(c: Config, s: State, now: Time) {
    && !s.inFlight && !s.telemetry.unsafe
    && !s.circuit.refreshRequired && !s.circuit.state.HumanReviewRequired?
    && (s.circuit.state.OpenUntil? ==> s.circuit.openUntil != ZERO && s.circuit.openUntil <= now)
    && !s.telemetry.upstream.UpstreamOpen? && s.cooldownUntil <= now
    && (Ample(c, s.telemetry) || (s.telemetry.resetAt != ZERO && s.telemetry.resetAt <= now))
  }

  lemma ExpiryIs(c: Config, s: State, now: Time, choice: Choice)
    ensures var s' := Lane.Expire(c, s, now, choice);
            && s'.inFlight == s.inFlight && s'.cooldownUntil == s.cooldownUntil && s'.telemetry == ExpireTelemetry(s.telemetry, now)
            && s'.circuit == s.circuit.(rateEvents := s'.circuit.rateEvents)
  {
    hide PruneRequests, YoungTasks, YoungAttempts, Keepers, RecentRates, ExpireTelemetry;
  }

  /** The gates before the budgets let a caller through if and only if the lane
      is free and trusted, the circuit closed or its window over, upstream not
      open, the cooldown over, and the allowance ample or its window over. */
  lemma GatesPassExactly(c: Config, s: State, now: Time, choice: Choice)
    ensures GateVerdict(c, Lane.Expire(c, s, now, choice), now).Pass? <==> Clear(c, s, now)
  {
    hide Lane.Expire;
    ExpiryIs(c, s, now, choice);
  }

  /** So no permit is granted by a check unless everything is clear. */
  lemma PassMeansClear(c: Config, s: State, request: Request, now: Time, at: Time, choice: Choice)
    requires Check(c, s, request, now, at, choice).1.Pass?
    ensures Clear(c, s, now)
    ensures var s' := Check(c, s, request, now, at, choice).0;
            s'.circuit.state.Closed? && (s.circuit.state.OpenUntil? ==> s'.circuit.reason == Unclassified && s'.circuit.openUntil == ZERO)
  {
    hide BudgetVerdict, Touched;
    GatesPassExactly(c, s, now, choice);
    ExpiryIs(c, s, now, choice);
  }

  // ----- What a snapshot says is heeded -----

  // How long a snapshot asks callers to stay away.
  function Away(snap: TelemetrySnapshot, now: Time): Time {
    Max(snap.cooldownUntil, if snap.retryAfter > 0 then now + snap.retryAfter else ZERO)
  }

  /** While upstream reports its own circuit open nobody is let through: a caller
      waits until the last instant announced for it, and is refused after that. */
  lemma OpenUpstreamIsWaitedOut(c: Config, s: State, snap: TelemetrySnapshot, now: Time)
    requires snap.upstream.UpstreamOpen? && ZERO < now
    ensures var s' := Observe(c, s, Some(snap), now);
            var until := Max(Max(s.telemetry.cooldownUntil, Away(snap, now)), snap.resetAt);
            UpstreamVerdict(c, s'.telemetry, s'.cooldownUntil, now) == if now < until then Wait(CircuitIsOpen, until) else Refuse(CircuitIsOpen)
  {
    hide CircuitAfter;
  }

  /** A route that does not match leaves the lane unsafe, what a snapshot asks for
      is added to the cooldown, a window it announces comes with its own count,
      a limit it reports ends the allowance, and what it does not speak of stays
      as it was. */
  lemma SnapshotsAreHeeded(c: Config, s: State, snap: TelemetrySnapshot, now: Time)
    requires ZERO < now
    ensures var s', t := Observe(c, s, Some(snap), now), s.telemetry;
            && (s'.telemetry.unsafe <==> t.unsafe || snap.routeMismatch)
            && s'.telemetry.upstream == (if snap.upstream == UpstreamUnknown then t.upstream else snap.upstream)
            && (now < Max(s.cooldownUntil, Away(snap, now)) ==> s'.cooldownUntil == Max(s.cooldownUntil, Away(snap, now)))
            && s'.telemetry.resetAt == (if now < snap.resetAt then snap.resetAt else t.resetAt)
            && (now < snap.resetAt && (snap.resetAt != t.resetAt || t.resetAt <= now) ==> s'.telemetry.available == snap.remaining)
            && (snap.rateLimited || snap.capacityExhausted || (c.Numeric() && snap.remaining.Some? && snap.remaining.value <= c.manualReserve) ==>
                  !Ample(c, s'.telemetry))
  {
    hide CircuitAfter;
  }

  // ----- Within one window -----

  // The window is the same and no more is left of it than before.
  predicate Lowers(t: Telemetry, t': Telemetry) {
    t'.resetAt == t.resetAt && (t.available.Some? ==> t'.available.Some? && t'.available.value <= t.available.value)
  }

  // The snapshot, if there is one, speaks of the window that ends at `reset`,
  // or of none to come.
  predicate SameWindow(observed: Option<TelemetrySnapshot>, now: Time, reset: Time) {
    observed.Some? ==> observed.value.resetAt == reset || observed.value.resetAt <= now
  }

  /** Within one reset window no snapshot raises the remaining count. */
  lemma SnapshotsOnlyLower(c: Config, s: State, observed: Option<TelemetrySnapshot>, now: Time)
    requires now < s.telemetry.resetAt && ZERO < now && SameWindow(observed, now, s.telemetry.resetAt)
    ensures Lowers(s.telemetry, Observe(c, s, observed, now).telemetry)
    ensures observed.Some? && observed.value.remaining.Some? ==>
              var left := Observe(c, s, observed, now).telemetry.available; left.Some? && left.value <= observed.value.remaining.value
  {
    hide CircuitAfter, CooldownAfter;
  }

  lemma SurveyLowers(c: Config, s: State, task: Id, now: Time, choice: Choice)
    requires now < s.telemetry.resetAt
    ensures Survey(c, s, task, now, choice).telemetry == s.telemetry == Lane.Expire(c, s, now, choice).telemetry
  {
    hide PruneRequests, YoungTasks, YoungAttempts, Keepers, RecentRates;
  }

  lemma RecordingLowers(c: Config, s: State, task: Id, now: Time, outcome: Outcome, draw: Draw)
    requires now < s.telemetry.resetAt
    ensures RecordOutcome(c, s, task, now, outcome, draw).0.telemetry == s.telemetry
  {
    hide Lane.Expire, RateResponse, SelectedBackoff, OtherResponse, AsRecorded;
    SurveyLowers(c, s, task, now, draw.choice);
  }

  lemma {:induction false} RecordAllLowers(c: Config, s: State, task: Id, now: Time, outcomes: seq<Outcome>, draws: seq<Draw>)
    requires |draws| == |outcomes| && now < s.telemetry.resetAt
    ensures RecordAll(c, s, task, now, outcomes, draws).0.telemetry == s.telemetry
  {
    hide RecordOutcome;
    if outcomes != [] {
      var last := |outcomes| - 1;
      RecordAllLowers(c, s, task, now, outcomes[..last], draws[..last]);
      RecordingLowers(c, RecordAll(c, s, task, now, outcomes[..last], draws[..last]).0, task, now, outcomes[last], draws[last]);
    }
  }

  // A counted allowance after `n` debits.
  function Spent(c: Config, available: Option<int>, n: nat): Option<int> {
    if c.Numeric() && available.Some? && available.value > 0 then Some(Max(0, available.value - n)) else available
  }

  lemma SpentOnce(c: Config, available: Option<int>)
    ensures Spent(c, available, 0) == available
    ensures forall t: Telemetry :: t.available == available ==> Spend(c, t) == t.(available := Spent(c, available, 1))
  {
  }

  lemma {:induction false} DebitingSpends(c: Config, s: State, p: Permit, receipts: seq<Receipt>, now: Time)
    ensures var t := DebitReceipts(c, s, p, receipts, now).telemetry;
            t == s.telemetry.(available := Spent(c, s.telemetry.available, |receipts|))
    decreases receipts
  {
    hide Normalized;
    if receipts != [] {
      DebitingSpends(c, DebitReceipt(c, s, p, receipts[0], now), p, receipts[1..], now);
    }
  }

  /** A plain start takes one from the remaining count; a receipt-aware one takes
      nothing yet. */
  lemma StartSpends(c: Config, s: State, p: Permit, receiptAware: bool, at: Time, choice: Choice)
    requires StartError(s, p).None? && at < s.telemetry.resetAt
    ensures Start(c, s, p, receiptAware, at, choice).0.telemetry
         == s.telemetry.(available := Spent(c, s.telemetry.available, if receiptAware then 0 else 1))
  {
    hide Survey, TaskOf, Spent;
    SurveyLowers(c, s, p.request.task, at, choice);
    SpentOnce(c, s.telemetry.available);
  }

  lemma ReconciledSpends(c: Config, s: State, p: Permit, outcome: Outcome, receipts: seq<Receipt>, novel: seq<Receipt>,
                         error: Option<PermitError>, now: Time, surveyed: Choice, draws: seq<Draw>)
    requires novel != [] && |draws| == |OutcomesToRecord(novel, CallOutcome(outcome))| && now < s.telemetry.resetAt
    ensures var t := FinishReconciled(c, s, p, outcome, receipts, novel, error, now, surveyed, draws).0.telemetry;
            t.resetAt == s.telemetry.resetAt && t.available == Spent(c, s.telemetry.available, |novel|)
  {
    hide Survey, DebitReceipts, RecordAll, OutcomesToRecord, CallOutcome, LatestStart, SettledClass, Remember, ConcludedResult, Spent;
    var task := p.request.task;
    var remembered := s.(attemptIDs := Remember(s.attemptIDs, novel, now));
    var s1 := Survey(c, remembered, task, now, surveyed);
    SurveyLowers(c, remembered, task, now, surveyed);
    DebitingSpends(c, s1, p, novel, now);
    RecordAllLowers(c, DebitReceipts(c, s1, p, novel, now), task, now, OutcomesToRecord(novel, CallOutcome(outcome)), draws);
  }

  lemma FailureSpends(c: Config, s: State, p: Permit, error: PermitError, debit: bool, delivery: Delivery, now: Time, choice: Choice)
    requires now < s.telemetry.resetAt
    ensures var t := ReceiptFailure(c, s, p, error, debit, delivery, now, choice).0.telemetry;
            t.resetAt == s.telemetry.resetAt && t.available == Spent(c, s.telemetry.available, if debit then 1 else 0)
  {
    hide Survey;
    SurveyLowers(c, Distrusted(s), p.request.task, now, choice);
  }

  /** A receipt finish takes one for every new receipt of an accepted set, and
      one where the set is refused. */
  lemma FinishSpends(c: Config, s: State, p: Permit, outcome: Outcome, set_: Option<ReceiptSet>, now: Time, draws: Draws)
    requires FinishError(p).None? && p.receiptAware && now < s.telemetry.resetAt
    requires Settles(c, s, p, outcome, set_, now, draws.evicted) ==>
      |draws.outcomes| == |OutcomesToRecord(NewReceipts(s, set_.value, now, draws.evicted), CallOutcome(outcome))|
    ensures var t := FinishReceipts(c, s, p, outcome, set_, now, draws).0.telemetry;
            var accepted := set_.Some? && Rejection(set_.value, Expected(c, p, now)).None?;
            && t.resetAt == s.telemetry.resetAt
            && t.available == Spent(c, s.telemetry.available, if accepted then |NewReceipts(s, set_.value, now, draws.evicted)| else 1)
  {
    hide Rejection, PolicyError, OutcomesToRecord, CallOutcome, YoungAttempts, Unseen, FinishReconciled, ReceiptFailure, Spent;
    if set_.Some? && Rejection(set_.value, Expected(c, p, now)).None? {
      var pruned := s.(attemptIDs := YoungAttempts(s.attemptIDs, now) - draws.evicted);
      var novel := NewReceipts(s, set_.value, now, draws.evicted);
      var policy := PolicyError(c, set_.value, p, now, |novel| < |set_.value.receipts|);
      if novel == [] {
        FailureSpends(c, pruned, p, if policy.Some? then policy.value else ReceiptReplayed, false, outcome.delivery, now, draws.surveyed);
      } else {
        ReconciledSpends(c, pruned, p, outcome, set_.value.receipts, novel, policy, now, draws.surveyed, draws.outcomes);
      }
    } else {
      FailureSpends(c, s, p, ReceiptsInvalid, true, outcome.delivery, now, draws.surveyed);
    }
  }

  // ----- Runs -----

  // What telemetry a step takes in speaks of the window that ends at `reset`.
  predicate WithinWindow(step: Label, reset: Time) {
    match step
    case Admit(_, at, observed, _, _, _) => SameWindow(observed, at, reset)
    case Look(_, now, _, observed, _, _) => SameWindow(observed, now, reset)
    case _ => true
  }

  lemma CheckLowers(c: Config, s: State, request: Request, now: Time, at: Time, choice: Choice)
    requires now < s.telemetry.resetAt
    ensures Check(c, s, request, now, at, choice).0.telemetry == s.telemetry
  {
    hide Lane.Expire, CircuitChecked, GateVerdict, BudgetVerdict;
    SurveyLowers(c, s, request.task, now, choice);
  }

  lemma AskingLowers(c: Config, w: World, step: Label)
    requires Enabled(c, w, step) && (step.Admit? || step.Look? || step.Join?) && ZERO < w.clock
    requires Instant(w, step) < w.gov.telemetry.resetAt && WithinWindow(step, w.gov.telemetry.resetAt)
    ensures var w' := Step(c, w, step);
            Lowers(w.gov.telemetry, w'.gov.telemetry) && (|w'.permits| > |w.permits| ==> Ample(c, w'.gov.telemetry))
  {
    hide Check, PruneRequests, YoungTasks, YoungAttempts, Keepers, Observe, Ample;
    match step {
      case Admit(request, at, observed, cancelled, pruned, checked) =>
        var s1 := Prune(w.gov, at, pruned);
        SnapshotsOnlyLower(c, s1, observed, at);
        CheckLowers(c, Observe(c, s1, observed, at), request, at, at, checked);
        ChecksAreAmple(c, Observe(c, s1, observed, at), request, at, at, checked);
      case Look(index, now, at, observed, cancelled, checked) =>
        SnapshotsOnlyLower(c, w.gov, observed, now);
        CheckLowers(c, Observe(c, w.gov, observed, now), w.gov.queue[index].request, now, at, checked);
        ChecksAreAmple(c, Observe(c, w.gov, observed, now), w.gov.queue[index].request, now, at, checked);
      case Join(_, _, _) =>
    }
  }

  lemma ChecksAreAmple(c: Config, s: State, request: Request, now: Time, at: Time, choice: Choice)
    requires now < s.telemetry.resetAt
    ensures var (s', verdict) := Check(c, s, request, now, at, choice); verdict.Pass? ==> Ample(c, s'.telemetry)
  {
    hide Check;
    CheckLowers(c, s, request, now, at, choice);
    if Check(c, s, request, now, at, choice).1.Pass? {
      PassMeansClear(c, s, request, now, at, choice);
    }
  }

  lemma OtherStepLowers(c: Config, w: World, step: Label)
    requires Enabled(c, w, step) && !(step.Admit? || step.Look? || step.Join?)
    requires Instant(w, step) < w.gov.telemetry.resetAt
    ensures var w' := Step(c, w, step); Lowers(w.gov.telemetry, w'.gov.telemetry) && |w'.permits| == |w.permits|
  {
    hide Lane.Start, Survey, Lane.Expire, RecordOutcome, FinishReceipts, Rejection, OutcomesToRecord, CallOutcome, NewReceipts, NewSightings;
    match step {
      case Begin(index, receiptAware, at, surveyed) =>
        if StartError(w.gov, w.permits[index]).None? {
          StartSpends(c, w.gov, w.permits[index], receiptAware, at, surveyed);
        } else {
          RefusedStart(c, w.gov, w.permits[index], receiptAware, at, surveyed);
        }
      case Finish(index, outcome, at, surveyed, draw) =>
        var task := w.permits[index].request.task;
        SurveyLowers(c, w.gov, task, at, surveyed);
        RecordingLowers(c, Survey(c, w.gov, task, at, surveyed), task, at, outcome, draw);
      case FinishWithReceipts(index, outcome, set_, at, draws) =>
        if FinishError(w.permits[index]).None? && w.permits[index].receiptAware {
          FinishSpends(c, w.gov, w.permits[index], outcome, set_, at, draws);
        } else {
          RefusedFinish(c, w.gov, w.permits[index], outcome, set_, at, draws);
        }
      case Emit(task, at, surveyed) => SurveyLowers(c, w.gov, task, at, surveyed);
      case Save(at, pruned) => SurveyLowers(c, w.gov, "", at, pruned);
      case _ =>
    }
  }

  lemma RefusedStart(c: Config, s: State, p: Permit, receiptAware: bool, at: Time, choice: Choice)
    requires StartError(s, p).Some?
    ensures Start(c, s, p, receiptAware, at, choice).0 == s
  {
    hide BeginAttempt;
  }

  lemma {:induction false} RunLowers(c: Config, w: World, steps: seq<Label>)
    requires Runnable(c, w, steps) && ZERO < w.clock && Run(c, w, steps).clock < w.gov.telemetry.resetAt
    requires forall i :: 0 <= i < |steps| ==> WithinWindow(steps[i], w.gov.telemetry.resetAt)
    ensures var w' := Run(c, w, steps);
            && Lowers(w.gov.telemetry, w'.gov.telemetry)
            && (Depleted(c, w.gov.telemetry) ==> |w'.permits| == |w.permits|)
    decreases |steps|
  {
    hide Step, WithinWindow, Enabled;
    if steps != [] {
      var w1 := Step(c, w, steps[0]);
      StepSetsClock(c, w, steps[0]);
      ClockOnlyAdvances(c, w1, steps[1..]);
      EnabledMeansLater(c, w, steps[0]);
      if steps[0].Admit? || steps[0].Look? || steps[0].Join? {
        AskingLowers(c, w, steps[0]);
        RequestIds.StepGrantsAtMostOne(c, w, steps[0]);
      } else {
        OtherStepLowers(c, w, steps[0]);
      }
      RunLowers(c, w1, steps[1..]);
    }
  }

  // The remaining count is known and no more than the reserve.
  predicate Depleted(c: Config, t: Telemetry) {
    c.Numeric() && t.available.Some? && t.available.value <= c.manualReserve
  }

  /** What is reserved for manual use is kept: once the remaining count known for
      a window is at or below the reserve, no run grants a permit before the
      window ends, whatever its snapshots say about that window; and the count
      never rises within it. */
  lemma ReserveIsKept(c: Config, w: World, steps: seq<Label>)
    requires Runnable(c, w, steps) && ZERO < w.clock && Run(c, w, steps).clock < w.gov.telemetry.resetAt
    requires forall i :: 0 <= i < |steps| ==> WithinWindow(steps[i], w.gov.telemetry.resetAt)
    requires c.Numeric() && w.gov.telemetry.available.Some? && w.gov.telemetry.available.value <= c.manualReserve
    ensures var w' := Run(c, w, steps);
            && |w'.permits| == |w.permits|
            && w'.gov.telemetry.available.Some? && w'.gov.telemetry.available.value <= w.gov.telemetry.available.value
  {
    hide Runnable, Run, WithinWindow;
    RunLowers(c, w, steps);
  }
}
