/** A task is seen whenever it asks with nothing against it, starts or finishes,
    and a task that was seen keeps its counters for a retention window.
 */
module TaskSight {
  import opened Clock
  import opened Policy
  import opened Retention
  import opened AttemptReceipts
  import opened Lane
  import opened Runs
  import opened SingleLane
  import opened BudgetRuns
  import opened Allowance

  predicate SeenAt(s: State, task: Id, at: Time) {
    task in s.tasks && s.tasks[task].lastTouched == at
  }

  /** A check that finds everything clear sees the task, whatever its budgets
      say. */
  lemma AskingIsSeen(c: Config, s: State, request: Request, now: Time, at: Time, choice: Choice)
    requires Clear(c, s, now)
    ensures SeenAt(Check(c, s, request, now, at, choice).0, request.task, at)
  {
    hide Lane.Expire, CircuitChecked, GateVerdict, BudgetVerdict, Clear;
    GatesPassExactly(c, s, now, choice);
  }

  lemma StartIsSeen(c: Config, s: State, p: Permit, receiptAware: bool, at: Time, choice: Choice)
    requires StartError(s, p).None?
    ensures SeenAt(Lane.Start(c, s, p, receiptAware, at, choice).0, p.request.task, at)
  {
    hide Lane.Expire, Spend;
  }

  lemma RecordingIsSeen(c: Config, s: State, task: Id, now: Time, outcome: Outcome, draw: Draw)
    ensures SeenAt(RecordOutcome(c, s, task, now, outcome, draw).0, task, now)
  {
    hide Lane.Expire, RateResponse, SelectedBackoff, OtherResponse, AsRecorded;
  }

  lemma FinishIsSeen(c: Config, s: State, p: Permit, outcome: Outcome, now: Time, surveyed: Choice, draw: Draw)
    requires FinishError(p).None? && !p.receiptAware
    ensures SeenAt(Lane.Finish(c, s, p, outcome, now, surveyed, draw).0, p.request.task, now)
  {
    hide Survey, RecordOutcome;
    RecordingIsSeen(c, Survey(c, s, p.request.task, now, surveyed), p.request.task, now, outcome, draw);
  }

  lemma FailureIsSeen(c: Config, s: State, p: Permit, error: PermitError, debit: bool, delivery: Delivery, now: Time, choice: Choice)
    ensures SeenAt(ReceiptFailure(c, s, p, error, debit, delivery, now, choice).0, p.request.task, now)
  {
    hide Lane.Expire, Spend;
  }

  lemma ReconcilingIsSeen(c: Config, s: State, p: Permit, outcome: Outcome, receipts: seq<Receipt>, novel: seq<Receipt>,
                          error: Option<PermitError>, now: Time, surveyed: Choice, draws: seq<Draw>)
    requires novel != [] && |draws| == |OutcomesToRecord(novel, CallOutcome(outcome))|
    ensures SeenAt(FinishReconciled(c, s, p, outcome, receipts, novel, error, now, surveyed, draws).0, p.request.task, now)
  {
    hide Lane.Reconciled, RecordOutcome, OutcomesToRecord, CallOutcome, LatestStart, SettledClass, ConcludedResult;
    var plan, task := OutcomesToRecord(novel, CallOutcome(outcome)), p.request.task;
    SomethingIsRecorded(novel, CallOutcome(outcome));
    var last, s1 := |plan| - 1, Lane.Reconciled(c, s, p, novel, now, surveyed);
    RecordingIsSeen(c, RecordAll(c, s1, task, now, plan[..last], draws[..last]).0, task, now, plan[last], draws[last]);
  }

  lemma SomethingIsRecorded(novel: seq<Receipt>, call: Outcome)
    requires novel != []
    ensures OutcomesToRecord(novel, call) != []
  {
  }

  lemma ReceiptsAreSeen(c: Config, s: State, p: Permit, outcome: Outcome, set_: Option<ReceiptSet>, now: Time, draws: Draws)
    requires FinishError(p).None? && p.receiptAware
    requires Settles(c, s, p, outcome, set_, now, draws.evicted) ==>
      |draws.outcomes| == |OutcomesToRecord(NewReceipts(s, set_.value, now, draws.evicted), CallOutcome(outcome))|
    ensures SeenAt(FinishReceipts(c, s, p, outcome, set_, now, draws).0, p.request.task, now)
  {
    hide Rejection, ReceiptFailure, FinishReconciled, PolicyError, OutcomesToRecord, CallOutcome, YoungAttempts, Unseen;
    if set_.None? || Rejection(set_.value, Expected(c, p, now)).Some? {
      FailureIsSeen(c, s, p, ReceiptsInvalid, true, outcome.delivery, now, draws.surveyed);
    } else {
      var pruned := s.(attemptIDs := YoungAttempts(s.attemptIDs, now) - draws.evicted);
      var novel := NewReceipts(s, set_.value, now, draws.evicted);
      var policy := PolicyError(c, set_.value, p, now, |novel| < |set_.value.receipts|);
      if novel == [] {
        FailureIsSeen(c, pruned, p, if policy.Some? then policy.value else ReceiptReplayed, false, outcome.delivery, now, draws.surveyed);
      } else {
        ReconcilingIsSeen(c, pruned, p, outcome, set_.value.receipts, novel, policy, now, draws.surveyed, draws.outcomes);
      }
    }
  }

  // The step starts a call of the task, or finishes one.
  predicate Calls(w: World, step: Label, task: Id) {
    match step
    case Begin(index, _, _, _) => index < |w.permits| && w.permits[index].request.task == task && StartError(w.gov, w.permits[index]).None?
    case Finish(index, _, _, _, _) =>
      index < |w.permits| && w.permits[index].request.task == task && FinishError(w.permits[index]).None? && !w.permits[index].receiptAware
    case FinishWithReceipts(index, _, _, _, _) =>
      index < |w.permits| && w.permits[index].request.task == task && FinishError(w.permits[index]).None? && w.permits[index].receiptAware
    case Emit(about, _, _) => about == task
    case _ => false
  }

  lemma CallsAreSeen(c: Config, w: World, step: Label, task: Id)
    requires Enabled(c, w, step) && Calls(w, step, task)
    ensures SeenAt(Step(c, w, step).gov, task, Instant(w, step))
  {
    hide Lane.Start, Lane.Finish, FinishReceipts, Lane.Expire, NewReceipts, OutcomesToRecord, CallOutcome, NewSightings, SeenAt;
    match step {
      case Begin(index, receiptAware, at, surveyed) => StartIsSeen(c, w.gov, w.permits[index], receiptAware, at, surveyed);
      case Finish(index, outcome, at, surveyed, draw) => FinishIsSeen(c, w.gov, w.permits[index], outcome, at, surveyed, draw);
      case FinishWithReceipts(index, outcome, set_, at, draws) => ReceiptsAreSeen(c, w.gov, w.permits[index], outcome, set_, at, draws);
      case Emit(_, at, surveyed) => EmittingIsSeen(c, w.gov, task, at, surveyed);
    }
  }

  lemma EmittingIsSeen(c: Config, s: State, task: Id, at: Time, choice: Choice)
    ensures SeenAt(Survey(c, s, task, at, choice), task, at)
  {
    hide Lane.Expire;
  }

  /** Whoever calls is remembered: after a call starts or finishes, of either
      kind and however it finishes, a prune within the retention window leaves
      the task's counters as they are, unless the cap evicts them. */
  lemma CallersAreRemembered(c: Config, w: World, step: Label, task: Id, now: Time, choice: Choice)
    requires Enabled(c, w, step) && Calls(w, step, task)
    requires now < Instant(w, step) + RETENTION && task !in choice.tasks
    ensures var s := Step(c, w, step).gov; task in Prune(s, now, choice).tasks && Prune(s, now, choice).tasks[task] == s.tasks[task]
  {
    hide Step, Enabled, Calls, PruneRequests, YoungAttempts, Keepers;
    CallsAreSeen(c, w, step, task);
  }
}
