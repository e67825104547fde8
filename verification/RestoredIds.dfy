/** Request ids across a restart.

    A restored governor keeps refusing every id in the saved records: those
    completed, because the list that ages completed ids out is not rebuilt,
    and those still pending or active, because nobody holds them any more. It
    never stops, where the original would have forgotten each a retention
    window after its completion.
 */
module RestoredIds {
  import opened Clock
  import opened Policy
  import opened Retention
  import opened AttemptReceipts
  import opened Lane
  import opened Runs
  import opened SingleLane
  import opened RequestIds
  import opened Persistence

  function Reborn(saved: State, restart: Time, restoring: Choice): World {
    World(Restarted(saved, restart, restoring), [], 0, restart, [], [], [])
  }

  lemma RebornKeepsIds(saved: State, restart: Time, restoring: Choice)
    ensures var w := Reborn(saved, restart, restoring);
            Held(w) && w.gov.requestIDs == saved.requestIDs && w.gov.completed == [] && w.gov.queue == []
  {
    hide PruneRequests, YoungTasks, YoungAttempts, Keepers, RestoreCircuit, Dated, MergeSeen;
    NothingScanned(saved.requestIDs, restart);
    assert map[] + saved.requestIDs == saved.requestIDs;
  }

  // ----- Records nobody will settle -----

  // A pending or active record that no waiter stands for.
  predicate Stray(s: State, id: Id) {
    id in s.requestIDs && !s.requestIDs[id].Completed? && forall i :: 0 <= i < |s.queue| ==> s.queue[i].request.id != id
  }

  predicate StaysStray(s: State, s': State, id: Id) {
    Stray(s, id) ==> Stray(s', id) && s'.requestIDs[id] == s.requestIDs[id]
  }

  lemma ForgettingSparesStrays(s: State, s': State, now: Time, id: Id)
    requires Forgot(s, s', now)
    ensures s'.queue == s.queue && StaysStray(s, s', id)
  {
    hide Listed, UnlistedStay;
  }

  lemma CompletingSparesStrays(s: State, s1: State, other: Id, at: Time, id: Id)
    requires Forgot(s, s1, at) && other != id
    ensures StaysStray(s, Vacate(Complete(s1, other, at)), id)
  {
    hide Forgot;
    ForgettingSparesStrays(s, s1, at, id);
  }

  lemma AdmitSparesStrays(c: Config, s: State, request: Request, at: Time, observed: Option<TelemetrySnapshot>, cancelled: bool,
                          pruned: Choice, checked: Choice, id: Id)
    ensures var (s', admission) := TryAdmit(c, s, request, at, observed, cancelled, pruned, checked);
            StaysStray(s, s', id) && (Stray(s, id) && admission.Granted? ==> admission.permit.request.id != id)
  {
    hide Check, Prune, Observe, Forgot;
    var s1 := Prune(s, at, pruned);
    var s2 := Observe(c, s1, observed, at);
    PruneForgets(s, at, pruned);
    ObservingForgets(c, s1, observed, at);
    CheckForgets(c, s2, request, at, at, checked);
    ForgettingSparesStrays(s, s1, at, id);
    ForgettingSparesStrays(s1, s2, at, id);
    ForgettingSparesStrays(s2, Check(c, s2, request, at, at, checked).0, at, id);
  }

  lemma LookSparesStrays(c: Config, s: State, index: nat, now: Time, at: Time, observed: Option<TelemetrySnapshot>, cancelled: bool,
                         checked: Choice, id: Id)
    requires index < |s.queue|
    ensures var (s', admission) := QueueCheck(c, s, index, now, at, observed, cancelled, checked);
            StaysStray(s, s', id) && (Stray(s, id) && admission.Granted? ==> admission.permit.request.id != id)
  {
    hide Check, Observe, Forgot;
    var s1 := Observe(c, s, observed, now);
    var request := s.queue[index].request;
    ObservingForgets(c, s, observed, now);
    CheckForgets(c, s1, request, now, at, checked);
    ForgettingSparesStrays(s, s1, now, id);
    var s2 := Check(c, s1, request, now, at, checked).0;
    ForgettingSparesStrays(s1, s2, now, id);
    hide Stray;
    RemovingSparesStrays(s1, index, id);
    RemovingSparesStrays(s2, index, id);
    if request.id != id {
      ReservingSparesStrays(WithoutWaiter(s2, index), request.id, id);
    }
  }

  lemma RemovingSparesStrays(s: State, index: nat, id: Id)
    requires index < |s.queue|
    ensures StaysStray(s, WithoutWaiter(s, index), id)
    ensures Stray(s, id) ==> s.queue[index].request.id != id
  {
    if Stray(s, id) {
      assert s.queue[index].request.id != id;
    }
  }

  lemma ReservingSparesStrays(s: State, other: Id, id: Id)
    requires other != id
    ensures StaysStray(s, s.(requestIDs := s.requestIDs[other := Pending]), id)
  {
  }

  lemma JoinSparesStrays(c: Config, s: State, request: Request, at: Time, pruned: Choice, id: Id)
    ensures StaysStray(s, Enqueue(c, s, request, at, pruned).0, id)
  {
    hide Prune, Forgot;
    PruneForgets(s, at, pruned);
    ForgettingSparesStrays(s, Prune(s, at, pruned), at, id);
  }

  lemma StartSparesStrays(c: Config, s: State, p: Permit, receiptAware: bool, at: Time, choice: Choice, id: Id)
    requires p.request.id != id
    ensures StaysStray(s, Start(c, s, p, receiptAware, at, choice).0, id)
  {
    hide Survey, Forgot, Spend;
    SurveyForgets(c, s, p.request.task, at, choice);
    ForgettingSparesStrays(s, Survey(c, s, p.request.task, at, choice), at, id);
  }

  lemma FinishSparesStrays(c: Config, s: State, p: Permit, outcome: Outcome, at: Time, surveyed: Choice, draw: Draw, id: Id)
    requires p.request.id != id
    ensures StaysStray(s, Lane.Finish(c, s, p, outcome, at, surveyed, draw).0, id)
  {
    hide Survey, RecordOutcome, Forgot, StaysStray, Complete, Vacate;
    var task := p.request.task;
    var s1 := Survey(c, s, task, at, surveyed);
    var s2 := RecordOutcome(c, s1, task, at, outcome, draw).0;
    SurveyForgets(c, s, task, at, surveyed);
    RecordOutcomeForgets(c, s1, task, at, outcome, draw);
    ForgotThenForgot(s, s1, s2, at);
    CompletingSparesStrays(s, s2, p.request.id, at, id);
    SameStrays(s, s, id);
  }

  lemma SameStrays(s: State, s1: State, id: Id)
    requires s1.queue == s.queue && s1.requestIDs == s.requestIDs
    ensures StaysStray(s, s1, id) && StaysStray(s1, s, id)
  {
  }

  lemma ReceiptFailureSparesStrays(c: Config, s: State, p: Permit, error: PermitError, debit: bool, delivery: Delivery, at: Time,
                                   choice: Choice, id: Id)
    requires p.request.id != id
    ensures StaysStray(s, ReceiptFailure(c, s, p, error, debit, delivery, at, choice).0, id)
  {
    hide Survey, Complete, Forgot, Spend, Vacate, StaysStray;
    var unsafe := Distrusted(s);
    var s1 := Survey(c, unsafe, p.request.task, at, choice);
    var s2 := if debit then DebitUncertain(c, s1, p.request, p.startedAt, at) else s1;
    SurveyForgets(c, unsafe, p.request.task, at, choice);
    AlikeForgot(s, unsafe, s1, at);
    ForgotAlike(s, s1, s2, at);
    CompletingSparesStrays(s, s2, p.request.id, at, id);
  }

  lemma ReconciledSparesStrays(c: Config, s: State, p: Permit, outcome: Outcome, receipts: seq<Receipt>, novel: seq<Receipt>,
                               error: Option<PermitError>, at: Time, surveyed: Choice, draws: seq<Draw>, id: Id)
    requires novel != [] && |draws| == |OutcomesToRecord(novel, CallOutcome(outcome))| && p.request.id != id
    ensures StaysStray(s, FinishReconciled(c, s, p, outcome, receipts, novel, error, at, surveyed, draws).0, id)
  {
    hide Reconciled, RecordAll, OutcomesToRecord, CallOutcome, Complete, Forgot, LatestStart, SettledClass, ConcludedResult, Vacate, StaysStray;
    var s1 := Reconciled(c, s, p, novel, at, surveyed);
    var plan := OutcomesToRecord(novel, CallOutcome(outcome));
    var s2 := RecordAll(c, s1, p.request.task, at, plan, draws).0;
    ReconcilingForgets(c, s, p, novel, at, surveyed);
    RecordAllForgets(c, s1, p.request.task, at, plan, draws);
    ForgotThenForgot(s, s1, s2, at);
    var s3 := if error.Some? then Distrusted(s2) else s2;
    var s4 := s3.(lastStart := Max(s3.lastStart, LatestStart(novel, p.startedAt, at)));
    ForgotAlike(s, s2, s4, at);
    CompletingSparesStrays(s, s4, p.request.id, at, id);
  }

  lemma ReceiptsSpareStrays(c: Config, s: State, p: Permit, outcome: Outcome, set_: Option<ReceiptSet>, at: Time, draws: Draws, id: Id)
    requires p.request.id != id
    requires Settles(c, s, p, outcome, set_, at, draws.evicted) ==>
               |draws.outcomes| == |OutcomesToRecord(NewReceipts(s, set_.value, at, draws.evicted), CallOutcome(outcome))|
    ensures StaysStray(s, FinishReceipts(c, s, p, outcome, set_, at, draws).0, id)
  {
    hide Rejection, ReceiptFailure, FinishReconciled, PolicyError, NewReceipts, OutcomesToRecord, CallOutcome, YoungAttempts;
    if FinishError(p).Some? || !p.receiptAware {
    } else if set_.None? || Rejection(set_.value, Expected(c, p, at)).Some? {
      ReceiptFailureSparesStrays(c, s, p, ReceiptsInvalid, true, outcome.delivery, at, draws.surveyed, id);
    } else {
      var pruned := s.(attemptIDs := YoungAttempts(s.attemptIDs, at) - draws.evicted);
      var novel := NewReceipts(s, set_.value, at, draws.evicted);
      var policy := PolicyError(c, set_.value, p, at, |novel| < |set_.value.receipts|);
      SameStrays(s, pruned, id);
      if novel == [] {
        ReceiptFailureSparesStrays(c, pruned, p, if policy.Some? then policy.value else ReceiptReplayed, false, outcome.delivery, at,
                                   draws.surveyed, id);
      } else {
        ReconciledSparesStrays(c, pruned, p, outcome, set_.value.receipts, novel, policy, at, draws.surveyed, draws.outcomes, id);
      }
    }
  }

  // ----- Runs -----

  // A stray record whose id no uncompleted permit carries either.
  predicate Abandoned(w: World, id: Id) {
    Stray(w.gov, id) && forall i :: 0 <= i < |w.permits| && !w.permits[i].completed ==> w.permits[i].request.id != id
  }

  predicate StaysAbandoned(w: World, w': World, id: Id) {
    && Abandoned(w', id) && id in w.gov.requestIDs && w'.gov.requestIDs[id] == w.gov.requestIDs[id]
    && (forall i :: |w.permits| <= i < |w'.permits| ==> w'.permits[i].request.id != id)
  }

  lemma CallersLeaveAbandoned(c: Config, w: World, step: Label, id: Id)
    requires Enabled(c, w, step) && Abandoned(w, id)
    requires step.Admit? || step.Look? || step.Join?
    ensures StaysAbandoned(w, Step(c, w, step), id)
  {
    hide Lane.TryAdmit, QueueCheck, Enqueue;
    match step {
      case Admit(request, at, observed, cancelled, pruned, checked) =>
        AdmitSparesStrays(c, w.gov, request, at, observed, cancelled, pruned, checked, id);
      case Look(index, now, at, observed, cancelled, checked) =>
        LookSparesStrays(c, w.gov, index, now, at, observed, cancelled, checked, id);
      case Join(request, at, pruned) =>
        JoinSparesStrays(c, w.gov, request, at, pruned, id);
    }
  }

  lemma StartsLeaveAbandoned(c: Config, w: World, step: Label, id: Id)
    requires Enabled(c, w, step) && Abandoned(w, id) && (step.Begin? || step.Abandon? || step.Abort?)
    ensures StaysAbandoned(w, Step(c, w, step), id)
  {
    hide Survey, BeginAttempt, Complete, Vacate, Forgot;
    var p := w.permits[step.permit];
    if !p.completed {
      match step {
        case Begin(_, receiptAware, at, surveyed) => StartSparesStrays(c, w.gov, p, receiptAware, at, surveyed, id);
        case Abandon(_) => ReleasingSparesStrays(w.gov, p.request.id, id);
        case Abort(_, at) =>
          NothingForgotten(w.gov, w.gov, at);
          CompletingSparesStrays(w.gov, w.gov, p.request.id, at, id);
      }
    }
  }

  lemma ReleasingSparesStrays(s: State, other: Id, id: Id)
    requires other != id
    ensures StaysStray(s, Vacate(s.(requestIDs := s.requestIDs - {other})), id)
  {
  }

  lemma FinishesLeaveAbandoned(c: Config, w: World, step: Label, id: Id)
    requires Enabled(c, w, step) && Abandoned(w, id) && (step.Finish? || step.FinishWithReceipts?)
    ensures StaysAbandoned(w, Step(c, w, step), id)
  {
    hide Survey, RecordOutcome, Complete, Vacate, Rejection, ReceiptFailure, FinishReconciled, PolicyError, NewReceipts, OutcomesToRecord,
         CallOutcome;
    var p := w.permits[step.permit];
    if !p.completed {
      match step {
        case Finish(_, outcome, at, surveyed, draw) => FinishSparesStrays(c, w.gov, p, outcome, at, surveyed, draw, id);
        case FinishWithReceipts(_, outcome, set_, at, draws) =>
          ReceiptsSpareStrays(c, w.gov, p, outcome, set_, at, draws, id);
          ReceiptFinishCompletes(c, w.gov, p, outcome, set_, at, draws);
      }
    }
  }

  lemma OthersLeaveAbandoned(c: Config, w: World, step: Label, id: Id)
    requires Enabled(c, w, step) && Abandoned(w, id)
    requires step.Leave? || step.BeginRefresh? || step.FinishRefresh? || step.Acknowledge? || step.Save? || step.Emit? || step.Shut?
    ensures StaysAbandoned(w, Step(c, w, step), id)
  {
    hide Lane.Expire, Forgot, WithoutWaiter;
    if step.Leave? {
      RemovingSparesStrays(w.gov, step.index, id);
    } else if step.Save? {
      ExpireForgets(c, w.gov, step.at, step.pruned);
      ForgettingSparesStrays(w.gov, Lane.Expire(c, w.gov, step.at, step.pruned), step.at, id);
    } else if step.Emit? {
      SurveyForgets(c, w.gov, step.task, step.at, step.surveyed);
      ForgettingSparesStrays(w.gov, Survey(c, w.gov, step.task, step.at, step.surveyed), step.at, id);
    }
  }

  lemma StepLeavesAbandoned(c: Config, w: World, step: Label, id: Id)
    requires Enabled(c, w, step) && Abandoned(w, id)
    ensures StaysAbandoned(w, Step(c, w, step), id)
  {
    hide Step, Enabled, Abandoned, StaysAbandoned;
    match step {
      case Admit(_, _, _, _, _, _) => CallersLeaveAbandoned(c, w, step, id);
      case Look(_, _, _, _, _, _) => CallersLeaveAbandoned(c, w, step, id);
      case Join(_, _, _) => CallersLeaveAbandoned(c, w, step, id);
      case Begin(_, _, _, _) => StartsLeaveAbandoned(c, w, step, id);
      case Abandon(_) => StartsLeaveAbandoned(c, w, step, id);
      case Abort(_, _) => StartsLeaveAbandoned(c, w, step, id);
      case Finish(_, _, _, _, _) => FinishesLeaveAbandoned(c, w, step, id);
      case FinishWithReceipts(_, _, _, _, _) => FinishesLeaveAbandoned(c, w, step, id);
      case _ => OthersLeaveAbandoned(c, w, step, id);
    }
  }

  lemma {:induction false} AbandonedForGood(c: Config, w: World, steps: seq<Label>, id: Id)
    requires Abandoned(w, id) && Runnable(c, w, steps)
    ensures var w' := Run(c, w, steps);
            && |w.permits| <= |w'.permits|
            && StaysAbandoned(w, w', id)
            && (forall i :: 0 <= i < |w.permits| ==> w'.permits[i].request == w.permits[i].request)
    decreases |steps|
  {
    hide Step, Enabled;
    if steps != [] {
      StepLeavesAbandoned(c, w, steps[0], id);
      StepGrantsAtMostOne(c, w, steps[0]);
      AbandonedForGood(c, Step(c, w, steps[0]), steps[1..], id);
    }
  }

  // An id the list lacks outlives every run, and no permit is granted with it.
  lemma {:induction false} UnlistedForGood(c: Config, w: World, steps: seq<Label>, id: Id)
    requires Held(w) && Unlisted(w.gov, id) && Runnable(c, w, steps)
    ensures var w' := Run(c, w, steps);
            && Unlisted(w'.gov, id) && w'.gov.requestIDs[id] == w.gov.requestIDs[id]
            && |w.permits| <= |w'.permits|
            && (forall i :: 0 <= i < |w.permits| ==> w'.permits[i].request == w.permits[i].request)
            && (forall i :: |w.permits| <= i < |w'.permits| ==> w'.permits[i].request.id != id)
    decreases |steps|
  {
    hide Step, Waiting, Listed;
    if steps != [] {
      StepKeepsHeld(c, w, steps[0]);
      StepGrantsAtMostOne(c, w, steps[0]);
      UnlistedForGood(c, Step(c, w, steps[0]), steps[1..], id);
    }
  }

  /** Whatever id is in the records the original saved, however far its request
      had come, the restored governor keeps that very record: it refuses the id
      after every run and at every instant, and grants it to no one. In
      particular it still refuses whatever the original would. */
  lemma SavedIdsOutliveTheRestart(c: Config, saved: State, restart: Time, restoring: Choice, steps: seq<Label>,
                                  request: Request, at: Time, pruned: Choice)
    requires request.id in saved.requestIDs
    requires Runnable(c, Reborn(saved, restart, restoring), steps)
    ensures var w := Run(c, Reborn(saved, restart, restoring), steps);
            && request.id in w.gov.requestIDs && w.gov.requestIDs[request.id] == saved.requestIDs[request.id]
            && (forall i :: 0 <= i < |w.permits| ==> w.permits[i].request.id != request.id)
            && (!w.gov.closed ==> Enqueue(c, w.gov, request, at, pruned).1 == Some(DuplicateClientRequest))
  {
    hide Runnable, Run, Prune, Restarted;
    var w0 := Reborn(saved, restart, restoring);
    RebornKeepsIds(saved, restart, restoring);
    if saved.requestIDs[request.id].Completed? {
      UnlistedForGood(c, w0, steps, request.id);
    } else {
      AbandonedForGood(c, w0, steps, request.id);
    }
    PruneForgets(Run(c, w0, steps).gov, at, pruned);
  }
}
