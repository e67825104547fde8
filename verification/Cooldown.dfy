/** Cooldowns over whole runs: once the governor has chosen to back off, nobody
    is let through before that instant, whatever happens in between.
 */
module Cooldown {
  import opened Clock
  import opened Policy
  import opened Retention
  import opened AttemptReceipts
  import opened Lane
  import opened Runs
  import opened ReceiptConservation

  // ----- One section never lowers the cooldown -----

  lemma ObservingRaises(c: Config, s: State, observed: Option<TelemetrySnapshot>, now: Time)
    ensures s.cooldownUntil <= Observe(c, s, observed, now).cooldownUntil
    ensures observed.Some? ==> Guided(observed.value, now) <= Observe(c, s, observed, now).cooldownUntil
  {
    hide TelemetryAfter, CircuitAfter;
  }

  // The instant before which a snapshot tells everyone to stay away.
  function Guided(snap: TelemetrySnapshot, now: Time): Time {
    if snap.retryAfter > 0 then Max(snap.cooldownUntil, now + snap.retryAfter) else snap.cooldownUntil
  }

  lemma ExpiryKeeps(c: Config, s: State, now: Time, choice: Choice)
    ensures Lane.Expire(c, s, now, choice).cooldownUntil == s.cooldownUntil
  {
    hide PruneRequests, YoungTasks, YoungAttempts, Keepers, RecentRates, ExpireTelemetry;
  }

  lemma CheckingWaits(c: Config, s: State, request: Request, now: Time, at: Time, choice: Choice)
    ensures var (s', verdict) := Check(c, s, request, now, at, choice);
            s'.cooldownUntil == s.cooldownUntil && (verdict.Pass? ==> s.cooldownUntil <= now)
  {
    hide Lane.Expire, CircuitVerdict, CircuitChecked, BudgetVerdict, Touched;
    ExpiryKeeps(c, s, now, choice);
  }

  lemma SurveyKeeps(c: Config, s: State, task: Id, now: Time, choice: Choice)
    ensures Survey(c, s, task, now, choice).cooldownUntil == s.cooldownUntil
  {
    hide Lane.Expire;
    ExpiryKeeps(c, s, now, choice);
  }

  // The cooldown was raised by the backoff, and by nothing else.
  predicate RaisedBy(before: Time, after: Time, backoff: Duration, now: Time) {
    after == if backoff > 0 then Max(before, now + backoff) else before
  }

  lemma RecordingRaises(c: Config, s: State, task: Id, now: Time, outcome: Outcome, draw: Draw)
    ensures var (s', result) := RecordOutcome(c, s, task, now, outcome, draw);
            RaisedBy(s.cooldownUntil, s'.cooldownUntil, result.backoff, now)
  {
    hide Lane.Expire, RateResponse, SelectedBackoff, OtherResponse, AsRecorded;
    ExpiryKeeps(c, s, now, draw.choice);
  }

  function Power2(n: nat): nat {
    if n == 0 then 1 else 2 * Power2(n - 1)
  }

  /** A rate response makes the governor back off, unless all it says is a reset
      that has passed. Guidance is taken at its word, the later instant of two;
      without any the backoff is the jitter drawn or fifteen seconds, doubled
      for each response remembered up to two minutes, whichever is longer. */
  lemma RateResponseBacksOffExactly(c: Config, s: State, task: Id, now: Time, outcome: Outcome, draw: Draw)
    requires outcome.class_.RateCapacity? && ZERO < now
    ensures var (s', result) := RecordOutcome(c, s, task, now, outcome, draw);
            && (result.backoff > 0 <==> outcome.retryAfter > 0 || outcome.resetAt <= ZERO || now < outcome.resetAt)
            && (outcome.retryAfter > 0 ==> outcome.retryAfter <= result.backoff)
            && (now < outcome.resetAt ==> outcome.resetAt <= now + result.backoff)
            && (outcome.retryAfter > 0 || now < outcome.resetAt ==> now + result.backoff in {now + outcome.retryAfter, outcome.resetAt})
            && (outcome.retryAfter <= 0 && outcome.resetAt <= ZERO ==>
                  var baseline := 15 * SECOND * Power2(Min(|s'.circuit.rateEvents|, 4) - 1);
                  baseline <= 2 * MINUTE && result.backoff == Max(draw.jitter, baseline))
  {
    hide Lane.Expire;
    assert Power2(0) == 1 && Power2(1) == 2 && Power2(2) == 4 && Power2(3) == 8;
  }

  // The call's guidance is in the backoff and in the cooldown.
  predicate Heeded(s': State, backoff: Duration, call: Outcome, now: Time) {
    && (call.retryAfter > 0 ==> call.retryAfter <= backoff && now + call.retryAfter <= s'.cooldownUntil)
    && (now < call.resetAt ==> call.resetAt <= now + backoff && call.resetAt <= s'.cooldownUntil)
  }

  lemma RecordingHeeds(c: Config, s: State, task: Id, now: Time, outcome: Outcome, draw: Draw)
    requires outcome.class_.RateCapacity? && ZERO < now
    ensures var (s', result) := RecordOutcome(c, s, task, now, outcome, draw); Heeded(s', result.backoff, outcome, now)
  {
    hide RecordOutcome;
    RateResponseBacksOffExactly(c, s, task, now, outcome, draw);
    RecordingRaises(c, s, task, now, outcome, draw);
  }

  lemma {:induction false} RecordAllRaises(c: Config, s: State, task: Id, now: Time, outcomes: seq<Outcome>, draws: seq<Draw>)
    requires |draws| == |outcomes|
    ensures var (s', longest) := RecordAll(c, s, task, now, outcomes, draws);
            RaisedBy(s.cooldownUntil, s'.cooldownUntil, longest, now)
  {
    hide RecordOutcome;
    if outcomes != [] {
      var last := |outcomes| - 1;
      RecordAllRaises(c, s, task, now, outcomes[..last], draws[..last]);
      RecordingRaises(c, RecordAll(c, s, task, now, outcomes[..last], draws[..last]).0, task, now, outcomes[last], draws[last]);
    }
  }

  // The plan of a rate-limited call ends with the call's own guidance.
  lemma PlanEndsWithGuidance(novel: seq<Receipt>, call: Outcome)
    requires novel != [] && call.class_.RateCapacity?
    ensures var plan := OutcomesToRecord(novel, call);
            plan != [] &&
            var last := plan[|plan| - 1];
            last.class_.RateCapacity? && last.retryAfter == call.retryAfter && last.resetAt == call.resetAt
  {
  }

  lemma RecordingAllHeeds(c: Config, s: State, task: Id, now: Time, outcomes: seq<Outcome>, draws: seq<Draw>)
    requires |draws| == |outcomes| && outcomes != [] && outcomes[|outcomes| - 1].class_.RateCapacity? && ZERO < now
    ensures var (s', longest) := RecordAll(c, s, task, now, outcomes, draws); Heeded(s', longest, outcomes[|outcomes| - 1], now)
  {
    hide RecordOutcome;
    var last := |outcomes| - 1;
    RecordingHeeds(c, RecordAll(c, s, task, now, outcomes[..last], draws[..last]).0, task, now, outcomes[last], draws[last]);
  }

  lemma {:induction false} DebitingKeeps(c: Config, s: State, p: Permit, receipts: seq<Receipt>, now: Time)
    ensures DebitReceipts(c, s, p, receipts, now).cooldownUntil == s.cooldownUntil
    decreases receipts
  {
    hide Normalized, Spend;
    if receipts != [] {
      DebitingKeeps(c, DebitReceipt(c, s, p, receipts[0], now), p, receipts[1..], now);
    }
  }

  lemma CompletingKeeps(s: State, id: Id, now: Time)
    ensures Complete(s, id, now).cooldownUntil == s.cooldownUntil
  {
  }

  lemma StartKeeps(c: Config, s: State, p: Permit, receiptAware: bool, at: Time, choice: Choice)
    ensures Start(c, s, p, receiptAware, at, choice).0.cooldownUntil == s.cooldownUntil
  {
    hide Survey, Spend;
    SurveyKeeps(c, s, p.request.task, at, choice);
  }

  lemma FailingKeeps(c: Config, s: State, p: Permit, error: PermitError, debit: bool, delivery: Delivery, now: Time, choice: Choice)
    ensures var (s', _, result) := ReceiptFailure(c, s, p, error, debit, delivery, now, choice);
            s'.cooldownUntil == s.cooldownUntil && result.backoff == 0
  {
    hide Survey, Complete, Spend;
    var s1 := Survey(c, Distrusted(s), p.request.task, now, choice);
    SurveyKeeps(c, Distrusted(s), p.request.task, now, choice);
    CompletingKeeps(s1, p.request.id, now);
    CompletingKeeps(DebitUncertain(c, s1, p.request, p.startedAt, now), p.request.id, now);
  }

  // A finish leaves the cooldown raised by the backoff it reports.
  predicate Covers(s: State, s': State, result: FinishResult, now: Time) {
    RaisedBy(s.cooldownUntil, s'.cooldownUntil, result.backoff, now)
  }

  lemma FinishCovers(c: Config, s: State, p: Permit, outcome: Outcome, now: Time, surveyed: Choice, draw: Draw)
    ensures var (s', _, result) := Lane.Finish(c, s, p, outcome, now, surveyed, draw); Covers(s, s', result, now)
  {
    hide Survey, RecordOutcome, Complete;
    var task := p.request.task;
    var s1 := Survey(c, s, task, now, surveyed);
    SurveyKeeps(c, s, task, now, surveyed);
    RecordingRaises(c, s1, task, now, outcome, draw);
    CompletingKeeps(RecordOutcome(c, s1, task, now, outcome, draw).0, p.request.id, now);
  }

  lemma ReconciledCovers(c: Config, s: State, p: Permit, outcome: Outcome, receipts: seq<Receipt>, novel: seq<Receipt>,
                         error: Option<PermitError>, now: Time, surveyed: Choice, draws: seq<Draw>)
    requires novel != [] && |draws| == |OutcomesToRecord(novel, CallOutcome(outcome))|
    ensures var (s', _, result) := FinishReconciled(c, s, p, outcome, receipts, novel, error, now, surveyed, draws);
            Covers(s, s', result, now)
  {
    hide Survey, DebitReceipts, RecordAll, OutcomesToRecord, CallOutcome, LatestStart, SettledClass, Remember, Complete;
    var task := p.request.task;
    var remembered := s.(attemptIDs := Remember(s.attemptIDs, novel, now));
    var s1 := Survey(c, remembered, task, now, surveyed);
    var s2 := DebitReceipts(c, s1, p, novel, now);
    var plan := OutcomesToRecord(novel, CallOutcome(outcome));
    var s3 := RecordAll(c, s2, task, now, plan, draws).0;
    SurveyKeeps(c, remembered, task, now, surveyed);
    DebitingKeeps(c, s1, p, novel, now);
    RecordAllRaises(c, s2, task, now, plan, draws);
    var s4 := if error.Some? then Distrusted(s3) else s3;
    CompletingKeeps(s4.(lastStart := Max(s4.lastStart, LatestStart(novel, p.startedAt, now))), p.request.id, now);
  }

  lemma ReconciledHeeds(c: Config, s: State, p: Permit, outcome: Outcome, receipts: seq<Receipt>, novel: seq<Receipt>,
                        error: Option<PermitError>, now: Time, surveyed: Choice, draws: seq<Draw>)
    requires novel != [] && |draws| == |OutcomesToRecord(novel, CallOutcome(outcome))| && outcome.class_.RateCapacity? && ZERO < now
    ensures var (s', _, result) := FinishReconciled(c, s, p, outcome, receipts, novel, error, now, surveyed, draws);
            Heeded(s', result.backoff, outcome, now)
  {
    hide Reconciled, RecordAll, OutcomesToRecord, LatestStart, SettledClass, Complete;
    var task, plan := p.request.task, OutcomesToRecord(novel, CallOutcome(outcome));
    var s1 := Reconciled(c, s, p, novel, now, surveyed);
    PlanEndsWithGuidance(novel, CallOutcome(outcome));
    RecordingAllHeeds(c, s1, task, now, plan, draws);
    var s2 := RecordAll(c, s1, task, now, plan, draws).0;
    var s3 := if error.Some? then Distrusted(s2) else s2;
    CompletingKeeps(s3.(lastStart := Max(s3.lastStart, LatestStart(novel, p.startedAt, now))), p.request.id, now);
  }

  // Whether a receipt of the set is one the governor does not retain.
  predicate HoldsNew(s: State, set_: ReceiptSet, now: Time, evicted: set<Id>) {
    exists r :: r in set_.receipts && r.attemptID !in YoungAttempts(s.attemptIDs, now) - evicted
  }

  /** What a rate-limited call reports is heeded whatever its receipts say: as
      soon as an accepted set holds one new receipt, the backoff is as long as
      the call's own retry delay and reaches its own reset, and so does the
      cooldown. */
  lemma ReportedGuidanceIsHeeded(c: Config, s: State, p: Permit, outcome: Outcome, set_: ReceiptSet, now: Time, draws: Draws)
    requires FinishError(p).None? && p.receiptAware && Rejection(set_, Expected(c, p, now)).None? && HoldsNew(s, set_, now, draws.evicted)
    requires Settles(c, s, p, outcome, Some(set_), now, draws.evicted) ==>
      |draws.outcomes| == |OutcomesToRecord(NewReceipts(s, set_, now, draws.evicted), CallOutcome(outcome))|
    requires outcome.class_.RateCapacity? && ZERO < now
    ensures var (s', _, result) := FinishReceipts(c, s, p, outcome, Some(set_), now, draws);
            && (outcome.retryAfter > 0 ==> outcome.retryAfter <= result.backoff && now + outcome.retryAfter <= s'.cooldownUntil)
            && (now < outcome.resetAt ==> outcome.resetAt <= now + result.backoff && outcome.resetAt <= s'.cooldownUntil)
  {
    hide Rejection, FinishReconciled, PolicyError, OutcomesToRecord, CallOutcome, YoungAttempts, Unseen;
    var seen := YoungAttempts(s.attemptIDs, now) - draws.evicted;
    var novel := NewReceipts(s, set_, now, draws.evicted);
    UnseenSize(set_.receipts, seen);
    var policy := PolicyError(c, set_, p, now, |novel| < |set_.receipts|);
    ReconciledHeeds(c, s.(attemptIDs := seen), p, outcome, set_.receipts, novel, policy, now, draws.surveyed, draws.outcomes);
  }

  /** A receipt finish raises the cooldown by the backoff it reports, the longest
      its outcomes selected, and by nothing else. */
  lemma ReceiptsCover(c: Config, s: State, p: Permit, outcome: Outcome, set_: Option<ReceiptSet>, now: Time, draws: Draws)
    requires Settles(c, s, p, outcome, set_, now, draws.evicted) ==>
      |draws.outcomes| == |OutcomesToRecord(NewReceipts(s, set_.value, now, draws.evicted), CallOutcome(outcome))|
    ensures var (s', _, result) := FinishReceipts(c, s, p, outcome, set_, now, draws); Covers(s, s', result, now)
  {
    hide Rejection, ReceiptFailure, FinishReconciled, PolicyError, OutcomesToRecord, CallOutcome, YoungAttempts, NewReceipts;
    if FinishError(p).None? && p.receiptAware {
      var pruned := s.(attemptIDs := YoungAttempts(s.attemptIDs, now) - draws.evicted);
      if set_.None? || Rejection(set_.value, Expected(c, p, now)).Some? {
        FailingKeeps(c, s, p, ReceiptsInvalid, true, outcome.delivery, now, draws.surveyed);
      } else {
        var novel := NewReceipts(s, set_.value, now, draws.evicted);
        var policy := PolicyError(c, set_.value, p, now, |novel| < |set_.value.receipts|);
        if novel == [] {
          FailingKeeps(c, pruned, p, if policy.Some? then policy.value else ReceiptReplayed, false, outcome.delivery, now, draws.surveyed);
        } else {
          ReconciledCovers(c, pruned, p, outcome, set_.value.receipts, novel, policy, now, draws.surveyed, draws.outcomes);
        }
      }
    }
  }

  // ----- Steps -----

  // The instant a caller read when it asked.
  function Asked(step: Label): Time
    requires step.Admit? || step.Look?
  {
    if step.Admit? then step.at else step.now
  }

  // What a step reports as backed off, and the guidance it took from a
  // snapshot, as the instant before which nobody is to be let through.
  function HoldsUntil(c: Config, w: World, step: Label): Time
    requires Enabled(c, w, step)
  {
    match step
    case Finish(index, outcome, at, surveyed, draw) =>
      Held(at, Lane.Finish(c, w.gov, w.permits[index], outcome, at, surveyed, draw).2.backoff)
    case FinishWithReceipts(index, outcome, set_, at, draws) =>
      Held(at, FinishReceipts(c, w.gov, w.permits[index], outcome, set_, at, draws).2.backoff)
    case Look(_, now, _, observed, _, _) => if observed.Some? then Guided(observed.value, now) else ZERO
    case _ => ZERO
  }

  function Held(at: Time, backoff: Duration): Time {
    if backoff > 0 then at + backoff else ZERO
  }

  // A grant is asked for no earlier than the cooldown it leaves.
  predicate GrantsLate(w: World, w': World, step: Label) {
    && |w.permits| <= |w'.permits|
    && (|w'.permits| > |w.permits| ==> (step.Admit? || step.Look?) && w'.gov.cooldownUntil <= Asked(step))
  }

  lemma AskingWaits(c: Config, w: World, step: Label)
    requires Enabled(c, w, step) && (step.Admit? || step.Look? || step.Join?)
    ensures var w' := Step(c, w, step);
            && GrantsLate(w, w', step) && w.gov.cooldownUntil <= w'.gov.cooldownUntil
            && (step.Look? ==> Max(ZERO, HoldsUntil(c, w, step)) <= Max(ZERO, w'.gov.cooldownUntil))
  {
    hide Check, PruneRequests, YoungTasks, YoungAttempts, Keepers, Observe, Guided;
    if step.Admit? {
      var s1 := Prune(w.gov, step.at, step.pruned);
      ObservingRaises(c, s1, step.observed, step.at);
      CheckingWaits(c, Observe(c, s1, step.observed, step.at), step.request, step.at, step.at, step.checked);
    } else if step.Look? {
      ObservingRaises(c, w.gov, step.observed, step.now);
      CheckingWaits(c, Observe(c, w.gov, step.observed, step.now), w.gov.queue[step.index].request, step.now, step.at, step.checked);
    }
  }

  lemma OtherStepHolds(c: Config, w: World, step: Label)
    requires Enabled(c, w, step) && !(step.Admit? || step.Look? || step.Join?)
    ensures var w' := Step(c, w, step);
            && GrantsLate(w, w', step) && w.gov.cooldownUntil <= w'.gov.cooldownUntil
            && Max(ZERO, HoldsUntil(c, w, step)) <= Max(ZERO, w'.gov.cooldownUntil)
  {
    hide Lane.Start, Lane.Finish, FinishReceipts, Lane.Expire, Complete;
    match step {
      case Begin(index, receiptAware, at, surveyed) => StartKeeps(c, w.gov, w.permits[index], receiptAware, at, surveyed);
      case Finish(index, outcome, at, surveyed, draw) => FinishCovers(c, w.gov, w.permits[index], outcome, at, surveyed, draw);
      case Abort(index, at) => CompletingKeeps(w.gov, w.permits[index].request.id, at);
      case FinishWithReceipts(index, outcome, set_, at, draws) => ReceiptsCover(c, w.gov, w.permits[index], outcome, set_, at, draws);
      case Save(at, pruned) => ExpiryKeeps(c, w.gov, at, pruned);
      case Emit(task, at, surveyed) => ExpiryKeeps(c, w.gov, at, surveyed);
      case _ =>
    }
  }

  // ----- Runs -----

  // Every permit granted during the run was asked for at `until` or later.
  predicate GrantsOnlyFrom(c: Config, w: World, steps: seq<Label>, until: Time)
    requires Runnable(c, w, steps)
    decreases |steps|
  {
    steps == [] ||
    var w' := Step(c, w, steps[0]);
    && (|w'.permits| > |w.permits| ==> (steps[0].Admit? || steps[0].Look?) && until <= Asked(steps[0]))
    && GrantsOnlyFrom(c, w', steps[1..], until)
  }

  lemma StepHolds(c: Config, w: World, step: Label)
    requires Enabled(c, w, step)
    ensures var w' := Step(c, w, step);
            && GrantsLate(w, w', step) && w.gov.cooldownUntil <= w'.gov.cooldownUntil
            && Max(ZERO, HoldsUntil(c, w, step)) <= Max(ZERO, w'.gov.cooldownUntil)
  {
    hide Step, GrantsLate, Enabled;
    if step.Admit? || step.Look? || step.Join? {
      AskingWaits(c, w, step);
      if !step.Look? {
        NothingHeld(c, w, step);
      }
    } else {
      OtherStepHolds(c, w, step);
    }
  }

  lemma NothingHeld(c: Config, w: World, step: Label)
    requires Enabled(c, w, step) && (step.Admit? || step.Join?)
    ensures HoldsUntil(c, w, step) == ZERO
  {
  }

  lemma {:induction false} NobodyPassesTheCooldown(c: Config, w: World, steps: seq<Label>, until: Time)
    requires Runnable(c, w, steps) && until <= w.gov.cooldownUntil
    ensures GrantsOnlyFrom(c, w, steps, until) && w.gov.cooldownUntil <= Run(c, w, steps).gov.cooldownUntil
    decreases |steps|
  {
    hide Step, Enabled, HoldsUntil;
    if steps != [] {
      StepHolds(c, w, steps[0]);
      NobodyPassesTheCooldown(c, Step(c, w, steps[0]), steps[1..], until);
    }
  }

  /** Whatever a finished call made the governor back off, plain or with
      receipts, and whatever a waiter's telemetry asked for, is served: in every
      run that follows, acknowledgements, refreshes and rosier telemetry
      included, nobody who asks before that instant is granted a permit. */
  lemma BackoffIsServed(c: Config, w: World, step: Label, steps: seq<Label>)
    requires Enabled(c, w, step) && Runnable(c, Step(c, w, step), steps)
    ensures HoldsUntil(c, w, step) > ZERO ==> GrantsOnlyFrom(c, Step(c, w, step), steps, HoldsUntil(c, w, step))
  {
    hide Step, Enabled, HoldsUntil, GrantsOnlyFrom, Runnable, Run;
    StepHolds(c, w, step);
    if HoldsUntil(c, w, step) > ZERO {
      NobodyPassesTheCooldown(c, Step(c, w, step), steps, HoldsUntil(c, w, step));
    }
  }

  // Whether a step lets a rate-limited call finish: a plain one, or one whose
  // accepted receipts hold a new one.
  predicate FinishesRateLimited(c: Config, w: World, step: Label)
    requires Enabled(c, w, step)
  {
    match step
    case Finish(index, outcome, _, _, _) => FinishError(w.permits[index]).None? && !w.permits[index].receiptAware && outcome.class_.RateCapacity?
    case FinishWithReceipts(index, outcome, set_, at, draws) =>
      var p := w.permits[index];
      && FinishError(p).None? && p.receiptAware && outcome.class_.RateCapacity?
      && set_.Some? && Rejection(set_.value, Expected(c, p, at)).None? && HoldsNew(w.gov, set_.value, at, draws.evicted)
    case _ => false
  }

  lemma FinishingHeeds(c: Config, w: World, step: Label)
    requires Enabled(c, w, step) && FinishesRateLimited(c, w, step) && ZERO < step.at
    ensures step.Finish? || step.FinishWithReceipts?
    ensures var cooldown := Step(c, w, step).gov.cooldownUntil;
            && (step.outcome.retryAfter > 0 ==> step.at + step.outcome.retryAfter <= cooldown)
            && (step.at < step.outcome.resetAt ==> step.outcome.resetAt <= cooldown)
  {
    hide Survey, RecordOutcome, FinishReceipts, Rejection, HoldsNew, Complete, OutcomesToRecord, CallOutcome, NewReceipts;
    var p := w.permits[step.permit];
    if step.Finish? {
      var s1 := Survey(c, w.gov, p.request.task, step.at, step.surveyed);
      RecordingHeeds(c, s1, p.request.task, step.at, step.outcome, step.draw);
      CompletingKeeps(RecordOutcome(c, s1, p.request.task, step.at, step.outcome, step.draw).0, p.request.id, step.at);
    } else {
      ReportedGuidanceIsHeeded(c, w.gov, p, step.outcome, step.set_.value, step.at, step.draws);
    }
  }

  /** What the provider asked for is served: after a rate-limited call, plain or
      with receipts, every later run grants no permit to anybody asking before
      the retry delay has passed, or before the reset. */
  lemma GuidanceIsServed(c: Config, w: World, step: Label, steps: seq<Label>)
    requires Enabled(c, w, step) && Runnable(c, Step(c, w, step), steps) && FinishesRateLimited(c, w, step) && ZERO < step.at
    ensures step.outcome.retryAfter > 0 ==> GrantsOnlyFrom(c, Step(c, w, step), steps, step.at + step.outcome.retryAfter)
    ensures step.at < step.outcome.resetAt ==> GrantsOnlyFrom(c, Step(c, w, step), steps, step.outcome.resetAt)
  {
    hide Step, Enabled, FinishesRateLimited, GrantsOnlyFrom, Runnable, Run;
    FinishingHeeds(c, w, step);
    if step.outcome.retryAfter > 0 {
      NobodyPassesTheCooldown(c, Step(c, w, step), steps, step.at + step.outcome.retryAfter);
    }
    if step.at < step.outcome.resetAt {
      NobodyPassesTheCooldown(c, Step(c, w, step), steps, step.outcome.resetAt);
    }
  }
}
