/** At most one request is ever in flight.

    The lane is held exactly while one granted permit is uncompleted, a permit
    completes once, and a completed permit can do nothing more.
 */
module SingleLane {
  import opened Clock
  import opened Policy
  import opened Retention
  import opened AttemptReceipts
  import opened Lane
  import opened Runs

  predicate Live(p: Permit) {
    !p.completed
  }

  // Permits are granted one at a time, so only the latest can be uncompleted.
  predicate OneLane(w: World) {
    && (forall i :: 0 <= i < |w.permits| - 1 ==> w.permits[i].completed)
    && (w.gov.inFlight <==> w.permits != [] && !w.permits[|w.permits| - 1].completed)
    && (w.gov.inFlight ==> w.gov.activeTask == w.permits[|w.permits| - 1].request.task)
    && (forall i :: 0 <= i < |w.permits| && !w.permits[i].started ==> !w.permits[i].receiptAware)
  }

  predicate SameLane(s: State, s': State) {
    s'.inFlight == s.inFlight && s'.activeTask == s.activeTask
  }

  // A grant finds the lane free and takes it; anything else leaves it alone.
  lemma CheckNeedsFreeLane(c: Config, s: State, request: Request, now: Time, at: Time, choice: Choice)
    ensures SameLane(s, Check(c, s, request, now, at, choice).0)
    ensures Check(c, s, request, now, at, choice).1.Pass? ==> !s.inFlight
  {
    hide PruneRequests, RecentRates, ExpireTelemetry, UpstreamVerdict, BudgetVerdict, CircuitChecked;
  }

  lemma AdmitTakesFreeLane(c: Config, w: World, step: Label)
    requires Enabled(c, w, step) && OneLane(w) && step.Admit?
    ensures OneLane(Step(c, w, step))
  {
    hide Check, PruneRequests, YoungTasks, YoungAttempts, Keepers, TelemetryAfter, CircuitAfter, CooldownAfter;
    var s1 := Prune(w.gov, step.at, step.pruned);
    CheckNeedsFreeLane(c, Observe(c, s1, step.observed, step.at), step.request, step.at, step.at, step.checked);
  }

  lemma LookTakesFreeLane(c: Config, w: World, step: Label)
    requires Enabled(c, w, step) && OneLane(w) && step.Look?
    ensures OneLane(Step(c, w, step))
  {
    hide Check, TelemetryAfter, CircuitAfter, CooldownAfter;
    CheckNeedsFreeLane(c, Observe(c, w.gov, step.observed, step.now), w.gov.queue[step.index].request, step.now, step.at, step.checked);
  }

  lemma PermitStepKeepsOneLane(c: Config, w: World, step: Label)
    requires Enabled(c, w, step) && OneLane(w)
    requires step.Begin? || step.Abandon? || step.Abort?
    ensures OneLane(Step(c, w, step))
  {
    hide PruneRequests, YoungTasks, YoungAttempts, Keepers, RecentRates, ExpireTelemetry;
  }

  lemma FinishKeepsOneLane(c: Config, w: World, step: Label)
    requires Enabled(c, w, step) && OneLane(w)
    requires step.Finish?
    ensures OneLane(Step(c, w, step))
  {
    hide Survey, RecordOutcome;
  }

  lemma ReceiptsKeepOneLane(c: Config, w: World, step: Label)
    requires Enabled(c, w, step) && OneLane(w)
    requires step.FinishWithReceipts?
    ensures OneLane(Step(c, w, step))
  {
    hide Survey, RecordOutcome, RecordAll, Rejection, OutcomesToRecord, PolicyError, NewReceipts, CallOutcome, Reconciled, SettledClass, ConcludedResult;
  }

  lemma OtherStepsKeepOneLane(c: Config, w: World, step: Label)
    requires Enabled(c, w, step) && OneLane(w)
    requires step.Join? || step.Leave? || step.BeginRefresh? || step.FinishRefresh? || step.Acknowledge? || step.Shut? || step.Save? || step.Emit?
    ensures OneLane(Step(c, w, step))
  {
    hide PruneRequests, YoungTasks, YoungAttempts, Keepers, RecentRates, ExpireTelemetry;
  }

  lemma StepKeepsOneLane(c: Config, w: World, step: Label)
    requires Enabled(c, w, step) && OneLane(w)
    ensures OneLane(Step(c, w, step))
  {
    hide *;
    match step {
      case Admit(_, _, _, _, _, _) => AdmitTakesFreeLane(c, w, step);
      case Look(_, _, _, _, _, _) => LookTakesFreeLane(c, w, step);
      case Begin(_, _, _, _) => PermitStepKeepsOneLane(c, w, step);
      case Abandon(_) => PermitStepKeepsOneLane(c, w, step);
      case Abort(_, _) => PermitStepKeepsOneLane(c, w, step);
      case Finish(_, _, _, _, _) => FinishKeepsOneLane(c, w, step);
      case FinishWithReceipts(_, _, _, _, _) => ReceiptsKeepOneLane(c, w, step);
      case _ => OtherStepsKeepOneLane(c, w, step);
    }
  }

  lemma {:induction false} RunKeepsOneLane(c: Config, w: World, steps: seq<Label>)
    requires Runnable(c, w, steps) && OneLane(w)
    ensures OneLane(Run(c, w, steps))
    decreases |steps|
  {
    hide Step, OneLane;
    if steps != [] {
      StepKeepsOneLane(c, w, steps[0]);
      RunKeepsOneLane(c, Step(c, w, steps[0]), steps[1..]);
    }
  }

  /** After every run the lane is held exactly when some permit is uncompleted;
      that permit is the only one, and the lane works for its task. */
  lemma LaneHeldByOnePermit(c: Config, clock: Time, steps: seq<Label>)
    requires Runnable(c, Initially(clock), steps)
    ensures var w := Run(c, Initially(clock), steps);
            && (w.gov.inFlight <==> exists i :: 0 <= i < |w.permits| && Live(w.permits[i]))
            && (forall i, j :: 0 <= i < |w.permits| && 0 <= j < |w.permits| && Live(w.permits[i]) && Live(w.permits[j]) ==> i == j)
            && (forall i :: 0 <= i < |w.permits| && Live(w.permits[i]) ==> w.gov.activeTask == w.permits[i].request.task)
  {
    hide Runnable, Run;
    RunKeepsOneLane(c, Initially(clock), steps);
    var w := Run(c, Initially(clock), steps);
    if w.gov.inFlight {
      assert Live(w.permits[|w.permits| - 1]);
    }
  }

  // The permit a step acts on, if any.
  predicate ActsOn(step: Label, index: nat) {
    match step
    case Begin(permit, _, _, _) => permit == index
    case Abandon(permit) => permit == index
    case Abort(permit, _) => permit == index
    case Finish(permit, _, _, _, _) => permit == index
    case FinishWithReceipts(permit, _, _, _, _) => permit == index
    case _ => false
  }

  /** A completed permit stays as it is, and nothing done with it reaches the
      governor: a second completion of any kind has no effect. */
  lemma CompletedForGood(c: Config, w: World, step: Label, index: nat)
    requires Enabled(c, w, step) && index < |w.permits| && w.permits[index].completed
    ensures index < |Step(c, w, step).permits| && Step(c, w, step).permits[index] == w.permits[index]
    ensures ActsOn(step, index) ==> Step(c, w, step) == w.(clock := Instant(w, step))
  {
    hide Check, Prune, Observe, Survey, RecordOutcome, Rejection, NewReceipts, ReceiptFailure, FinishReconciled, PolicyError, Complete;
  }

  // A receipt finish that is not refused outright completes its permit.
  lemma ReceiptFinishCompletes(c: Config, s: State, p: Permit, outcome: Outcome, set_: Option<ReceiptSet>, at: Time, draws: Draws)
    requires Settles(c, s, p, outcome, set_, at, draws.evicted) ==>
      |draws.outcomes| == |OutcomesToRecord(NewReceipts(s, set_.value, at, draws.evicted), CallOutcome(outcome))|
    ensures var (s', p', _) := FinishReceipts(c, s, p, outcome, set_, at, draws);
            if FinishError(p).Some? || !p.receiptAware then s' == s && p' == p else !s'.inFlight && p' == p.(completed := true)
  {
    hide Rejection, Survey, Reconciled, RecordAll, PolicyError, NewReceipts, OutcomesToRecord, CallOutcome, SettledClass, ConcludedResult, Complete;
  }

  /** Whatever completes a permit frees the lane and leaves its request record
      either released or completed at that instant. */
  lemma CompletingFreesLane(c: Config, w: World, step: Label, index: nat)
    requires Enabled(c, w, step) && index < |w.permits| && !w.permits[index].completed
    requires Step(c, w, step).permits[index].completed
    ensures var s := Step(c, w, step).gov;
            && !s.inFlight && s.activeTask == ""
            && (w.permits[index].request.id in s.requestIDs ==> s.requestIDs[w.permits[index].request.id] == Completed(Instant(w, step)))
  {
    hide Check, Prune, Observe, Survey, RecordOutcome, Rejection, NewReceipts, PolicyError, Reconciled, RecordAll, CallOutcome,
         OutcomesToRecord, SettledClass, ConcludedResult;
    assert ActsOn(step, index);
  }

  // Asking for admission adds at most one permit, not yet receipt-aware.
  lemma GrantedAreFresh(c: Config, w: World, step: Label)
    requires Enabled(c, w, step) && (step.Admit? || step.Look? || step.Join?)
    ensures var w' := Step(c, w, step);
            w'.permits == w.permits || (w'.permits[..|w'.permits| - 1] == w.permits && !w'.permits[|w'.permits| - 1].receiptAware)
  {
    hide Check, Prune, Observe;
  }
}
