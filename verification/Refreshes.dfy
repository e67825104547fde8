/** Credential refreshes: at most one is under way, and it begins on an idle lane.
 */
module Refreshes {
  import opened Clock
  import opened Policy
  import opened Retention
  import opened AttemptReceipts
  import opened Lane
  import opened Runs
  import opened SingleLane

  predicate SameRefresh(s: State, s': State) {
    s'.circuit.refreshInFlight == s.circuit.refreshInFlight
  }

  lemma SurveyKeepsRefresh(c: Config, s: State, task: Id, now: Time, choice: Choice)
    ensures SameRefresh(s, Survey(c, s, task, now, choice)) && SameRefresh(s, Lane.Expire(c, s, now, choice))
  {
    hide PruneRequests, YoungTasks, YoungAttempts, Keepers, RecentRates, ExpireTelemetry;
  }

  lemma RecordingKeepsRefresh(c: Config, s: State, task: Id, now: Time, outcome: Outcome, draw: Draw)
    ensures SameRefresh(s, RecordOutcome(c, s, task, now, outcome, draw).0)
  {
    hide Lane.Expire, SelectedBackoff, AsRecorded;
    SurveyKeepsRefresh(c, s, task, now, draw.choice);
  }

  lemma {:induction false} RecordingAllKeepsRefresh(c: Config, s: State, task: Id, now: Time, outcomes: seq<Outcome>, draws: seq<Draw>)
    requires |draws| == |outcomes|
    ensures SameRefresh(s, RecordAll(c, s, task, now, outcomes, draws).0)
  {
    hide RecordOutcome;
    if outcomes != [] {
      var last := |outcomes| - 1;
      RecordingAllKeepsRefresh(c, s, task, now, outcomes[..last], draws[..last]);
      RecordingKeepsRefresh(c, RecordAll(c, s, task, now, outcomes[..last], draws[..last]).0, task, now, outcomes[last], draws[last]);
    }
  }

  lemma {:induction false} DebitingKeepsRefresh(c: Config, s: State, p: Permit, receipts: seq<Receipt>, now: Time)
    ensures SameRefresh(s, DebitReceipts(c, s, p, receipts, now))
    decreases receipts
  {
    hide Normalized, Spend;
    if receipts != [] {
      DebitingKeepsRefresh(c, DebitReceipt(c, s, p, receipts[0], now), p, receipts[1..], now);
    }
  }

  lemma ReconcilingKeepsRefresh(c: Config, s: State, p: Permit, outcome: Outcome, receipts: seq<Receipt>, novel: seq<Receipt>,
                                error: Option<PermitError>, now: Time, surveyed: Choice, draws: seq<Draw>)
    requires novel != [] && |draws| == |OutcomesToRecord(novel, CallOutcome(outcome))|
    ensures SameRefresh(s, FinishReconciled(c, s, p, outcome, receipts, novel, error, now, surveyed, draws).0)
  {
    hide Survey, DebitReceipts, RecordAll, OutcomesToRecord, CallOutcome, LatestStart, SettledClass, Remember, ConcludedResult;
    var remembered := s.(attemptIDs := Remember(s.attemptIDs, novel, now));
    var s1 := Survey(c, remembered, p.request.task, now, surveyed);
    var s2 := DebitReceipts(c, s1, p, novel, now);
    SurveyKeepsRefresh(c, remembered, p.request.task, now, surveyed);
    DebitingKeepsRefresh(c, s1, p, novel, now);
    RecordingAllKeepsRefresh(c, s2, p.request.task, now, OutcomesToRecord(novel, CallOutcome(outcome)), draws);
  }

  lemma ReceiptsKeepRefresh(c: Config, s: State, p: Permit, outcome: Outcome, set_: Option<ReceiptSet>, now: Time, draws: Draws)
    requires Settles(c, s, p, outcome, set_, now, draws.evicted) ==>
      |draws.outcomes| == |OutcomesToRecord(NewReceipts(s, set_.value, now, draws.evicted), CallOutcome(outcome))|
    ensures SameRefresh(s, FinishReceipts(c, s, p, outcome, set_, now, draws).0)
  {
    hide Rejection, Survey, FinishReconciled, PolicyError, OutcomesToRecord, CallOutcome, YoungAttempts, Unseen;
    var pruned := s.(attemptIDs := YoungAttempts(s.attemptIDs, now) - draws.evicted);
    SurveyKeepsRefresh(c, Distrusted(s), p.request.task, now, draws.surveyed);
    SurveyKeepsRefresh(c, Distrusted(pruned), p.request.task, now, draws.surveyed);
    if Settles(c, s, p, outcome, set_, now, draws.evicted) {
      var novel := NewReceipts(s, set_.value, now, draws.evicted);
      var policy := PolicyError(c, set_.value, p, now, |novel| < |set_.value.receipts|);
      ReconcilingKeepsRefresh(c, pruned, p, outcome, set_.value.receipts, novel, policy, now, draws.surveyed, draws.outcomes);
    }
  }

  lemma AskingKeepsRefresh(c: Config, w: World, step: Label)
    requires Enabled(c, w, step) && (step.Admit? || step.Look? || step.Join?)
    ensures SameRefresh(w.gov, Step(c, w, step).gov)
  {
    hide Check, Observe, Prune;
    match step {
      case Admit(request, at, observed, _, pruned, checked) =>
        var s1 := Prune(w.gov, at, pruned);
        PruneKeepsRefresh(w.gov, at, pruned);
        CheckKeepsRefresh(c, s1, observed, at, request, at, checked);
      case Look(index, now, at, observed, _, checked) => CheckKeepsRefresh(c, w.gov, observed, now, w.gov.queue[index].request, at, checked);
      case Join(_, at, pruned) => PruneKeepsRefresh(w.gov, at, pruned);
    }
  }

  lemma PruneKeepsRefresh(s: State, now: Time, pruned: Choice)
    ensures SameRefresh(s, Prune(s, now, pruned))
  {
    hide PruneRequests, YoungTasks, YoungAttempts, Keepers;
  }

  lemma CheckKeepsRefresh(c: Config, s: State, observed: Option<TelemetrySnapshot>, now: Time, request: Request, at: Time, checked: Choice)
    ensures var s1 := Observe(c, s, observed, now); SameRefresh(s, s1) && SameRefresh(s, Check(c, s1, request, now, at, checked).0)
  {
    hide Lane.Expire, CircuitVerdict, GateVerdict, BudgetVerdict, TelemetryAfter, CooldownAfter;
    SurveyKeepsRefresh(c, Observe(c, s, observed, now), request.task, now, checked);
  }

  lemma StartKeepsRefresh(c: Config, s: State, p: Permit, receiptAware: bool, at: Time, choice: Choice)
    ensures SameRefresh(s, Start(c, s, p, receiptAware, at, choice).0)
  {
    hide Survey, Spend, TaskOf;
    SurveyKeepsRefresh(c, s, p.request.task, at, choice);
  }

  lemma OtherStepKeepsRefresh(c: Config, w: World, step: Label)
    requires Enabled(c, w, step) && !step.Admit? && !step.Look? && !step.Join? && !step.BeginRefresh? && !step.FinishRefresh?
    ensures SameRefresh(w.gov, Step(c, w, step).gov)
  {
    hide Lane.Expire, Survey, RecordOutcome, FinishReceipts, Lane.Start, OutcomesToRecord, CallOutcome, NewReceipts;
    match step {
      case Begin(index, receiptAware, at, surveyed) => StartKeepsRefresh(c, w.gov, w.permits[index], receiptAware, at, surveyed);
      case Finish(index, outcome, at, surveyed, draw) =>
        var task := w.permits[index].request.task;
        SurveyKeepsRefresh(c, w.gov, task, at, surveyed);
        RecordingKeepsRefresh(c, Survey(c, w.gov, task, at, surveyed), task, at, outcome, draw);
      case FinishWithReceipts(index, outcome, set_, at, draws) => ReceiptsKeepRefresh(c, w.gov, w.permits[index], outcome, set_, at, draws);
      case Save(at, pruned) => SurveyKeepsRefresh(c, w.gov, "", at, pruned);
      case Emit(task, at, surveyed) => SurveyKeepsRefresh(c, w.gov, task, at, surveyed);
      case _ =>
    }
  }

  // The circuit knows of every refresh under way, and there is at most one.
  predicate RefreshKnown(w: World) {
    w.refreshes == if w.gov.circuit.refreshInFlight then 1 else 0
  }

  lemma StepKeepsRefreshKnown(c: Config, w: World, step: Label)
    requires Enabled(c, w, step) && RefreshKnown(w)
    ensures RefreshKnown(Step(c, w, step))
  {
    if step.Admit? || step.Look? || step.Join? {
      hide TryAdmit, QueueCheck, Enqueue;
      AskingKeepsRefresh(c, w, step);
    } else if !step.BeginRefresh? && !step.FinishRefresh? {
      hide Lane.Expire, Survey, RecordOutcome, FinishReceipts, OutcomesToRecord, CallOutcome, NewReceipts, Lane.Finish, Lane.Start;
      OtherStepKeepsRefresh(c, w, step);
    }
  }

  lemma {:induction false} RunKeepsRefreshKnown(c: Config, w: World, steps: seq<Label>)
    requires Runnable(c, w, steps) && RefreshKnown(w)
    ensures RefreshKnown(Run(c, w, steps))
    decreases |steps|
  {
    hide Step, RefreshKnown;
    if steps != [] {
      StepKeepsRefreshKnown(c, w, steps[0]);
      RunKeepsRefreshKnown(c, Step(c, w, steps[0]), steps[1..]);
    }
  }

  /** After every run at most one credential refresh is under way, and another
      begins if and only if one is required, none is under way, no permit is
      uncompleted and nobody waits. */
  lemma RefreshBeginsExactly(c: Config, clock: Time, steps: seq<Label>)
    requires Runnable(c, Initially(clock), steps) && Enabled(c, Run(c, Initially(clock), steps), Label.BeginRefresh)
    ensures var w := Run(c, Initially(clock), steps);
            && w.refreshes <= 1
            && (Step(c, w, Label.BeginRefresh).refreshes > w.refreshes <==>
                  && w.gov.circuit.refreshRequired && w.refreshes == 0 && w.gov.queue == []
                  && forall i :: 0 <= i < |w.permits| ==> w.permits[i].completed)
  {
    hide Runnable, Run;
    RunKeepsRefreshKnown(c, Initially(clock), steps);
    RunKeepsOneLane(c, Initially(clock), steps);
  }
}
