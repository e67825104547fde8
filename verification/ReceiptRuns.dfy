/** Receipts over whole runs: a lane that lost trust grants nothing more, and no
    upstream attempt is debited twice.
 */
module ReceiptRuns {
  import opened Clock
  import opened Policy
  import opened Retention
  import opened AttemptReceipts
  import opened Lane
  import opened Runs
  import opened SingleLane

  // ----- Distrust is final -----

  predicate Unsafe(s: State) {
    s.telemetry.unsafe
  }

  lemma RecordOutcomeStaysUnsafe(c: Config, s: State, task: Id, now: Time, outcome: Outcome, draw: Draw)
    ensures Unsafe(s) ==> Unsafe(RecordOutcome(c, s, task, now, outcome, draw).0)
  {
    hide Prune, RecentRates, RateResponse, SelectedBackoff, OtherResponse, AsRecorded;
  }

  lemma {:induction false} RecordAllStaysUnsafe(c: Config, s: State, task: Id, now: Time, outcomes: seq<Outcome>, draws: seq<Draw>)
    requires |draws| == |outcomes|
    ensures Unsafe(s) ==> Unsafe(RecordAll(c, s, task, now, outcomes, draws).0)
  {
    hide RecordOutcome;
    if outcomes != [] {
      var last := |outcomes| - 1;
      RecordAllStaysUnsafe(c, s, task, now, outcomes[..last], draws[..last]);
      RecordOutcomeStaysUnsafe(c, RecordAll(c, s, task, now, outcomes[..last], draws[..last]).0, task, now, outcomes[last], draws[last]);
    }
  }

  lemma {:induction false} DebitReceiptsStayUnsafe(c: Config, s: State, p: Permit, receipts: seq<Receipt>, now: Time)
    ensures Unsafe(s) ==> Unsafe(DebitReceipts(c, s, p, receipts, now))
    decreases receipts
  {
    hide Normalized;
    if receipts != [] {
      DebitReceiptsStayUnsafe(c, DebitReceipt(c, s, p, receipts[0], now), p, receipts[1..], now);
    }
  }

  lemma SurveyStaysUnsafe(c: Config, s: State, task: Id, now: Time, choice: Choice)
    ensures Unsafe(s) ==> Unsafe(Survey(c, s, task, now, choice))
  {
    hide PruneRequests, YoungTasks, YoungAttempts, Keepers, RecentRates;
  }

  lemma ObserveStaysUnsafe(c: Config, s: State, observed: Option<TelemetrySnapshot>, now: Time)
    ensures Unsafe(s) ==> Unsafe(Observe(c, s, observed, now))
  {
    hide CircuitAfter, CooldownAfter;
  }

  lemma CheckRefusesUnsafe(c: Config, s: State, request: Request, now: Time, at: Time, choice: Choice)
    requires Unsafe(s)
    ensures Unsafe(Check(c, s, request, now, at, choice).0) && !Check(c, s, request, now, at, choice).1.Pass?
  {
    hide PruneRequests, YoungTasks, YoungAttempts, Keepers, RecentRates, UpstreamVerdict, BudgetVerdict;
  }

  lemma FinishReceiptsStaysUnsafe(c: Config, s: State, p: Permit, outcome: Outcome, set_: Option<ReceiptSet>, now: Time, draws: Draws)
    requires Settles(c, s, p, outcome, set_, now, draws.evicted) ==>
      |draws.outcomes| == |OutcomesToRecord(NewReceipts(s, set_.value, now, draws.evicted), CallOutcome(outcome))|
    ensures var (s', _, result) := FinishReceipts(c, s, p, outcome, set_, now, draws);
            && (Unsafe(s) ==> Unsafe(s'))
            && (FinishError(p).None? && p.receiptAware && result.error.Some? ==> Unsafe(s'))
  {
    hide Rejection, ReceiptFailure, FinishReconciled, PolicyError, OutcomesToRecord, CallOutcome, YoungAttempts, NewReceipts;
    if FinishError(p).None? && p.receiptAware {
      var pruned := s.(attemptIDs := YoungAttempts(s.attemptIDs, now) - draws.evicted);
      if set_.None? || Rejection(set_.value, Expected(c, p, now)).Some? {
        FailureIsUnsafe(c, s, p, ReceiptsInvalid, true, outcome.delivery, now, draws.surveyed);
      } else {
        var novel := NewReceipts(s, set_.value, now, draws.evicted);
        var policy := PolicyError(c, set_.value, p, now, |novel| < |set_.value.receipts|);
        if novel == [] {
          FailureIsUnsafe(c, pruned, p, if policy.Some? then policy.value else ReceiptReplayed, false, outcome.delivery, now, draws.surveyed);
        } else {
          ReconciledStaysUnsafe(c, pruned, p, outcome, set_.value.receipts, novel, policy, now, draws.surveyed, draws.outcomes);
        }
      }
    }
  }

  lemma FailureIsUnsafe(c: Config, s: State, p: Permit, error: PermitError, debit: bool, delivery: Delivery, now: Time, choice: Choice)
    ensures Unsafe(ReceiptFailure(c, s, p, error, debit, delivery, now, choice).0)
  {
    hide Survey, Complete;
    SurveyStaysUnsafe(c, Distrusted(s), p.request.task, now, choice);
    CompleteStaysUnsafe(Survey(c, Distrusted(s), p.request.task, now, choice), p.request.id, now);
    CompleteStaysUnsafe(DebitUncertain(c, Survey(c, Distrusted(s), p.request.task, now, choice), p.request, p.startedAt, now), p.request.id, now);
  }

  lemma CompleteStaysUnsafe(s: State, id: Id, now: Time)
    ensures Unsafe(Complete(s, id, now)) == Unsafe(s)
  {
  }

  lemma ReconciledStaysUnsafe(c: Config, s: State, p: Permit, outcome: Outcome, receipts: seq<Receipt>, novel: seq<Receipt>,
                              error: Option<PermitError>, now: Time, surveyed: Choice, draws: seq<Draw>)
    requires novel != [] && |draws| == |OutcomesToRecord(novel, CallOutcome(outcome))|
    ensures var (s', _, result) := FinishReconciled(c, s, p, outcome, receipts, novel, error, now, surveyed, draws);
            (Unsafe(s) || result.error.Some? ==> Unsafe(s')) && result.error == error
  {
    hide Survey, DebitReceipts, RecordAll, OutcomesToRecord, CallOutcome, LatestStart, SettledClass, Remember, Complete;
    var remembered := s.(attemptIDs := Remember(s.attemptIDs, novel, now));
    var s1 := Survey(c, remembered, p.request.task, now, surveyed);
    var s2 := DebitReceipts(c, s1, p, novel, now);
    var plan := OutcomesToRecord(novel, CallOutcome(outcome));
    var s3 := RecordAll(c, s2, p.request.task, now, plan, draws).0;
    SurveyStaysUnsafe(c, remembered, p.request.task, now, surveyed);
    DebitReceiptsStayUnsafe(c, s1, p, novel, now);
    RecordAllStaysUnsafe(c, s2, p.request.task, now, plan, draws);
    var s4 := if error.Some? then Distrusted(s3) else s3;
    CompleteStaysUnsafe(s4.(lastStart := Max(s4.lastStart, LatestStart(novel, p.startedAt, now))), p.request.id, now);
  }

  lemma AskingStaysUnsafe(c: Config, w: World, step: Label)
    requires Enabled(c, w, step) && Unsafe(w.gov) && (step.Admit? || step.Look? || step.Join?)
    ensures Unsafe(Step(c, w, step).gov) && |Step(c, w, step).permits| == |w.permits|
  {
    hide Check, PruneRequests, YoungTasks, YoungAttempts, Keepers, Observe;
    if step.Admit? {
      var s1 := Prune(w.gov, step.at, step.pruned);
      ObserveStaysUnsafe(c, s1, step.observed, step.at);
      CheckRefusesUnsafe(c, Observe(c, s1, step.observed, step.at), step.request, step.at, step.at, step.checked);
    } else if step.Look? {
      ObserveStaysUnsafe(c, w.gov, step.observed, step.now);
      CheckRefusesUnsafe(c, Observe(c, w.gov, step.observed, step.now), w.gov.queue[step.index].request, step.now, step.at, step.checked);
    }
  }

  lemma OtherStepStaysUnsafe(c: Config, w: World, step: Label)
    requires Enabled(c, w, step) && Unsafe(w.gov) && !(step.Admit? || step.Look? || step.Join?)
    ensures Unsafe(Step(c, w, step).gov) && |Step(c, w, step).permits| == |w.permits|
  {
    hide Survey, RecordOutcome, FinishReceipts, Prune, RecentRates, Complete;
    match step {
      case Begin(index, _, at, surveyed) =>
        SurveyStaysUnsafe(c, w.gov, w.permits[index].request.task, at, surveyed);
      case Finish(index, outcome, at, surveyed, draw) =>
        var task := w.permits[index].request.task;
        SurveyStaysUnsafe(c, w.gov, task, at, surveyed);
        RecordOutcomeStaysUnsafe(c, Survey(c, w.gov, task, at, surveyed), task, at, outcome, draw);
        CompleteStaysUnsafe(RecordOutcome(c, Survey(c, w.gov, task, at, surveyed), task, at, outcome, draw).0, w.permits[index].request.id, at);
      case Abort(index, at) => CompleteStaysUnsafe(w.gov, w.permits[index].request.id, at);
      case FinishWithReceipts(index, outcome, set_, at, draws) =>
        FinishReceiptsStaysUnsafe(c, w.gov, w.permits[index], outcome, set_, at, draws);
      case Emit(task, at, surveyed) => SurveyStaysUnsafe(c, w.gov, task, at, surveyed);
      case _ =>
    }
  }

  lemma {:induction false} UnsafeRunsGrantNothing(c: Config, w: World, steps: seq<Label>)
    requires Runnable(c, w, steps) && Unsafe(w.gov)
    ensures Unsafe(Run(c, w, steps).gov) && |Run(c, w, steps).permits| == |w.permits|
    decreases |steps|
  {
    hide Step;
    if steps != [] {
      if steps[0].Admit? || steps[0].Look? || steps[0].Join? {
        AskingStaysUnsafe(c, w, steps[0]);
      } else {
        OtherStepStaysUnsafe(c, w, steps[0]);
      }
      UnsafeRunsGrantNothing(c, Step(c, w, steps[0]), steps[1..]);
    }
  }

  /** Once a receipt set is refused, amplified or replayed, no permit is granted
      for the rest of the run, whatever telemetry, refreshes or
      acknowledgements follow. */
  lemma RefusedReceiptsEndGrants(c: Config, w: World, index: nat, outcome: Outcome, set_: Option<ReceiptSet>, at: Time, draws: Draws,
                                 steps: seq<Label>)
    requires var step := FinishWithReceipts(index, outcome, set_, at, draws);
             Enabled(c, w, step) && Runnable(c, Step(c, w, step), steps)
    requires FinishError(w.permits[index]).None? && w.permits[index].receiptAware
    requires FinishReceipts(c, w.gov, w.permits[index], outcome, set_, at, draws).2.error.Some?
    ensures |Run(c, Step(c, w, FinishWithReceipts(index, outcome, set_, at, draws)), steps).permits| == |w.permits|
  {
    hide FinishReceipts, Runnable, Run;
    FinishReceiptsStaysUnsafe(c, w.gov, w.permits[index], outcome, set_, at, draws);
    UnsafeRunsGrantNothing(c, Step(c, w, FinishWithReceipts(index, outcome, set_, at, draws)), steps);
  }
}
