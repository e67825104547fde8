/** Which evictions a run may make.

    A label carries the keys each prune evicts past a cap. The theorems hold
    whatever they are; a run that stands for something the source can do makes
    only evictions that fit: oldest first and no more than the cap requires.
    Where few tasks and identities are about, that is none at all.
 */
module Evictions {
  import opened Clock
  import opened Policy
  import opened Retention
  import opened AttemptReceipts
  import opened Lane
  import opened Runs
  import opened ReceiptConservation

  const NO_ONE := Choice({}, {})

  // Whether everything a step evicts fits the states it meets.
  ghost predicate Fitting(c: Config, w: World, step: Label)
    requires Enabled(c, w, step)
  {
    match step
    case Admit(request, at, observed, cancelled, pruned, checked) => AdmitFits(c, w.gov, request, at, observed, cancelled, pruned, checked)
    case Join(_, at, pruned) => w.gov.closed || Fits(w.gov, at, pruned)
    case Look(_, now, _, observed, cancelled, checked) => cancelled || Fits(Observe(c, w.gov, observed, now), now, checked)
    case Begin(index, _, at, surveyed) => StartError(w.gov, w.permits[index]).Some? || Fits(w.gov, at, surveyed)
    case Finish(index, outcome, at, surveyed, draw) => FinishFits(c, w.gov, w.permits[index], outcome, at, surveyed, draw)
    case FinishWithReceipts(index, outcome, set_, at, draws) =>
      FinishError(w.permits[index]).Some? || !w.permits[index].receiptAware || DrawsOf(c, w.gov, w.permits[index], outcome, set_, at, draws)
    case Save(at, pruned) => Fits(w.gov, at, pruned)
    case Emit(_, at, surveyed) => Fits(w.gov, at, surveyed)
    case _ => true
  }

  ghost predicate FittingRun(c: Config, w: World, steps: seq<Label>)
    requires Runnable(c, w, steps)
    decreases |steps|
  {
    steps == [] || (Fitting(c, w, steps[0]) && FittingRun(c, Step(c, w, steps[0]), steps[1..]))
  }

  // ----- Where nothing is evicted -----

  // Only these tasks and identities are about.
  predicate Few(s: State, tasks: set<Id>, ids: set<Id>) {
    s.tasks.Keys <= tasks && s.attemptIDs.Keys <= ids && forall w :: w in s.queue ==> w.request.task in tasks
  }

  predicate FewPermits(permits: seq<Permit>, tasks: set<Id>) {
    forall p :: p in permits ==> p.request.task in tasks
  }

  predicate Room(tasks: set<Id>, ids: set<Id>) {
    |tasks| <= MAX_TASKS && |ids| <= MAX_ATTEMPT_IDS
  }

  lemma NoOneGoes(ages: map<Id, Time>, removable: set<Id>, cap: nat)
    requires removable <= ages.Keys && |ages.Keys| <= cap
    ensures OldestFirst(ages, removable, cap, {})
  {
    assert |ages| == |ages.Keys|;
  }

  lemma FewTasksFit(all: map<Id, Task>, protected: set<Id>, tasks: set<Id>, now: Time)
    requires all.Keys <= tasks && |tasks| <= MAX_TASKS
    ensures TasksFit(all, protected, now, {})
  {
    hide OldestFirst;
    var young := YoungTasks(all, protected, now);
    SubsetSize(young.Keys, tasks);
    assert Ages(young).Keys == young.Keys;
    NoOneGoes(Ages(young), young.Keys - protected, MAX_TASKS);
  }

  lemma FewAttemptsFit(all: map<Id, Time>, ids: set<Id>, now: Time)
    requires all.Keys <= ids && |ids| <= MAX_ATTEMPT_IDS
    ensures AttemptsFit(all, now, {})
  {
    hide OldestFirst;
    var young := YoungAttempts(all, now);
    SubsetSize(young.Keys, ids);
    NoOneGoes(young, young.Keys, MAX_ATTEMPT_IDS);
  }

  lemma FewFit(s: State, tasks: set<Id>, ids: set<Id>, now: Time)
    requires Few(s, tasks, ids) && Room(tasks, ids)
    ensures Fits(s, now, NO_ONE)
  {
    hide TasksFit, AttemptsFit, Keepers;
    FewTasksFit(s.tasks, Protected(s), tasks, now);
    FewAttemptsFit(s.attemptIDs, ids, now);
  }

  // Nothing evicted, and only these tasks and identities named.
  predicate Bare(step: Label, tasks: set<Id>, ids: set<Id>) {
    match step
    case Admit(request, _, _, _, pruned, checked) => pruned == checked == NO_ONE && request.task in tasks
    case Join(request, _, pruned) => pruned == NO_ONE && request.task in tasks
    case Look(_, _, _, _, _, checked) => checked == NO_ONE
    case Begin(_, _, _, surveyed) => surveyed == NO_ONE
    case Finish(_, _, _, surveyed, draw) => surveyed == NO_ONE && draw.choice == NO_ONE
    case FinishWithReceipts(_, _, set_, _, draws) =>
      && draws.evicted == {} && draws.surveyed == NO_ONE && (forall d :: d in draws.outcomes ==> d.choice == NO_ONE)
      && (set_.Some? ==> forall r :: r in set_.value.receipts ==> r.attemptID in ids)
    case Save(_, pruned) => pruned == NO_ONE
    case Emit(task, _, surveyed) => surveyed == NO_ONE && task in tasks
    case _ => true
  }

  lemma PruneLeavesFew(s: State, tasks: set<Id>, ids: set<Id>, now: Time)
    requires Few(s, tasks, ids)
    ensures Few(Prune(s, now, NO_ONE), tasks, ids) && Prune(s, now, NO_ONE).queue == s.queue
  {
    hide PruneRequests, Keepers;
  }

  lemma ExpireLeavesFew(c: Config, s: State, tasks: set<Id>, ids: set<Id>, now: Time)
    requires Few(s, tasks, ids)
    ensures Few(Lane.Expire(c, s, now, NO_ONE), tasks, ids) && Lane.Expire(c, s, now, NO_ONE).queue == s.queue
  {
    hide Prune, RecentRates, ExpireTelemetry;
    PruneLeavesFew(s, tasks, ids, now);
  }

  lemma SurveyLeavesFew(c: Config, s: State, tasks: set<Id>, ids: set<Id>, task: Id, now: Time)
    requires Few(s, tasks, ids) && task in tasks
    ensures Few(Survey(c, s, task, now, NO_ONE), tasks, ids)
  {
    hide Lane.Expire;
    ExpireLeavesFew(c, s, tasks, ids, now);
  }

  lemma CheckLeavesFew(c: Config, s: State, tasks: set<Id>, ids: set<Id>, request: Request, now: Time, at: Time)
    requires Few(s, tasks, ids) && request.task in tasks
    ensures Few(Check(c, s, request, now, at, NO_ONE).0, tasks, ids) && Check(c, s, request, now, at, NO_ONE).0.queue == s.queue
  {
    hide Lane.Expire, CircuitChecked, GateVerdict, BudgetVerdict;
    ExpireLeavesFew(c, s, tasks, ids, now);
  }

  lemma RecordingLeavesFew(c: Config, s: State, tasks: set<Id>, ids: set<Id>, task: Id, now: Time, outcome: Outcome, draw: Draw)
    requires Few(s, tasks, ids) && task in tasks && draw.choice == NO_ONE
    ensures Few(RecordOutcome(c, s, task, now, outcome, draw).0, tasks, ids)
  {
    hide Lane.Expire, RateResponse, SelectedBackoff, OtherResponse, AsRecorded;
    ExpireLeavesFew(c, s, tasks, ids, now);
  }

  lemma {:induction false} RecordAllLeavesFew(c: Config, s: State, tasks: set<Id>, ids: set<Id>, task: Id, now: Time, outcomes: seq<Outcome>, draws: seq<Draw>)
    requires Few(s, tasks, ids) && task in tasks && Room(tasks, ids) && |draws| == |outcomes| && forall d :: d in draws ==> d.choice == NO_ONE
    ensures Few(RecordAll(c, s, task, now, outcomes, draws).0, tasks, ids) && DrawsFit(c, s, task, now, outcomes, draws)
  {
    hide RecordOutcome, ChoiceFits, AsRecorded, Few;
    if outcomes != [] {
      var last := |outcomes| - 1;
      RecordAllLeavesFew(c, s, tasks, ids, task, now, outcomes[..last], draws[..last]);
      var before := RecordAll(c, s, task, now, outcomes[..last], draws[..last]).0;
      RecordingLeavesFew(c, before, tasks, ids, task, now, outcomes[last], draws[last]);
      FewFit(before, tasks, ids, now);
    }
  }

  lemma {:induction false} DebitingLeavesFew(c: Config, s: State, tasks: set<Id>, ids: set<Id>, p: Permit, receipts: seq<Receipt>, now: Time)
    requires Few(s, tasks, ids) && p.request.task in tasks
    ensures Few(DebitReceipts(c, s, p, receipts, now), tasks, ids)
    decreases receipts
  {
    hide Normalized, Spend;
    if receipts != [] {
      DebitingLeavesFew(c, DebitReceipt(c, s, p, receipts[0], now), tasks, ids, p, receipts[1..], now);
    }
  }

  lemma {:induction false} RememberingLeavesFew(seen: map<Id, Time>, ids: set<Id>, receipts: seq<Receipt>, now: Time)
    requires seen.Keys <= ids && forall r :: r in receipts ==> r.attemptID in ids
    ensures Remember(seen, receipts, now).Keys <= ids
    decreases receipts
  {
    if receipts != [] {
      RememberingLeavesFew(seen[receipts[0].attemptID := now], ids, receipts[1..], now);
    }
  }

  lemma CompletingLeavesFew(s: State, tasks: set<Id>, ids: set<Id>, id: Id, now: Time)
    requires Few(s, tasks, ids)
    ensures Few(Vacate(Complete(s, id, now)), tasks, ids)
  {
  }

  lemma {:induction false} UnseenAreListed(receipts: seq<Receipt>, seen: map<Id, Time>)
    ensures forall r :: r in Unseen(receipts, seen) ==> r in receipts
  {
    if receipts != [] {
      UnseenAreListed(receipts[1..], seen);
    }
  }

  lemma FailingLeavesFew(c: Config, s: State, tasks: set<Id>, ids: set<Id>, p: Permit, error: PermitError, debit: bool, delivery: Delivery, now: Time)
    requires Few(s, tasks, ids) && p.request.task in tasks
    ensures Few(ReceiptFailure(c, s, p, error, debit, delivery, now, NO_ONE).0, tasks, ids)
  {
    hide Survey, Complete, Vacate, Spend;
    var s1 := Survey(c, Distrusted(s), p.request.task, now, NO_ONE);
    SurveyLeavesFew(c, Distrusted(s), tasks, ids, p.request.task, now);
    CompletingLeavesFew(if debit then DebitUncertain(c, s1, p.request, p.startedAt, now) else s1, tasks, ids, p.request.id, now);
  }

  lemma ReconcilingLeavesFew(c: Config, s: State, tasks: set<Id>, ids: set<Id>, p: Permit, novel: seq<Receipt>, now: Time)
    requires Few(s, tasks, ids) && p.request.task in tasks && forall r :: r in novel ==> r.attemptID in ids
    ensures Few(s.(attemptIDs := Remember(s.attemptIDs, novel, now)), tasks, ids)
    ensures Few(Lane.Reconciled(c, s, p, novel, now, NO_ONE), tasks, ids)
  {
    hide Survey, DebitReceipts, Remember;
    var remembered := s.(attemptIDs := Remember(s.attemptIDs, novel, now));
    RememberingLeavesFew(s.attemptIDs, ids, novel, now);
    SurveyLeavesFew(c, remembered, tasks, ids, p.request.task, now);
    DebitingLeavesFew(c, Survey(c, remembered, p.request.task, now, NO_ONE), tasks, ids, p, novel, now);
  }

  lemma ReceiptsLeaveFew(c: Config, s: State, tasks: set<Id>, ids: set<Id>, p: Permit, outcome: Outcome, set_: Option<ReceiptSet>, now: Time, draws: Draws)
    requires FinishError(p).None? && p.receiptAware && p.request.task in tasks && Few(s, tasks, ids) && Room(tasks, ids)
    requires Bare(Label.FinishWithReceipts(0, outcome, set_, now, draws), tasks, ids)
    requires Settles(c, s, p, outcome, set_, now, draws.evicted) ==>
      |draws.outcomes| == |OutcomesToRecord(NewReceipts(s, set_.value, now, draws.evicted), CallOutcome(outcome))|
    ensures DrawsOf(c, s, p, outcome, set_, now, draws)
    ensures Few(FinishReceipts(c, s, p, outcome, set_, now, draws).0, tasks, ids)
  {
    hide Rejection, ReceiptFailure, FinishReconciled, OutcomesToRecord, CallOutcome, Unseen, PolicyError, DrawsFit, ChoiceFits, Few, Lane.Reconciled, Remember;
    if set_.None? || Rejection(set_.value, Expected(c, p, now)).Some? {
      DistrustLeavesFew(s, tasks, ids, now);
      FailingLeavesFew(c, s, tasks, ids, p, ReceiptsInvalid, true, outcome.delivery, now);
    } else {
      var pruned := s.(attemptIDs := YoungAttempts(s.attemptIDs, now) - draws.evicted);
      var novel := NewReceipts(s, set_.value, now, draws.evicted);
      var policy := PolicyError(c, set_.value, p, now, |novel| < |set_.value.receipts|);
      PrunedIdsFit(s, tasks, ids, now);
      if novel == [] {
        DistrustLeavesFew(pruned, tasks, ids, now);
        FailingLeavesFew(c, pruned, tasks, ids, p, if policy.Some? then policy.value else ReceiptReplayed, false, outcome.delivery, now);
      } else {
        UnseenAreListed(set_.value.receipts, YoungAttempts(s.attemptIDs, now) - draws.evicted);
        SettlingLeavesFew(c, pruned, tasks, ids, p, outcome, set_.value.receipts, novel, policy, now, draws.outcomes);
      }
    }
  }

  lemma DistrustLeavesFew(s: State, tasks: set<Id>, ids: set<Id>, now: Time)
    requires Few(s, tasks, ids) && Room(tasks, ids)
    ensures Fits(Distrusted(s), now, NO_ONE)
  {
    hide ChoiceFits;
    FewFit(Distrusted(s), tasks, ids, now);
  }

  lemma PrunedIdsFit(s: State, tasks: set<Id>, ids: set<Id>, now: Time)
    requires Few(s, tasks, ids) && Room(tasks, ids)
    ensures AttemptsFit(s.attemptIDs, now, {}) && Few(s.(attemptIDs := YoungAttempts(s.attemptIDs, now) - {}), tasks, ids)
  {
    FewFit(s, tasks, ids, now);
  }

  lemma SettlingLeavesFew(c: Config, s: State, tasks: set<Id>, ids: set<Id>, p: Permit, outcome: Outcome, receipts: seq<Receipt>, novel: seq<Receipt>,
                          error: Option<PermitError>, now: Time, draws: seq<Draw>)
    requires Few(s, tasks, ids) && Room(tasks, ids) && p.request.task in tasks && novel != [] && forall r :: r in novel ==> r.attemptID in ids
    requires |draws| == |OutcomesToRecord(novel, CallOutcome(outcome))| && forall d :: d in draws ==> d.choice == NO_ONE
    ensures Fits(s.(attemptIDs := Remember(s.attemptIDs, novel, now)), now, NO_ONE)
    ensures DrawsFit(c, Lane.Reconciled(c, s, p, novel, now, NO_ONE), p.request.task, now, OutcomesToRecord(novel, CallOutcome(outcome)), draws)
    ensures Few(FinishReconciled(c, s, p, outcome, receipts, novel, error, now, NO_ONE, draws).0, tasks, ids)
  {
    hide Lane.Reconciled, RecordAll, OutcomesToRecord, CallOutcome, LatestStart, SettledClass, ConcludedResult, Remember, ChoiceFits, DrawsFit, Complete, Vacate;
    var plan := OutcomesToRecord(novel, CallOutcome(outcome));
    ReconcilingLeavesFew(c, s, tasks, ids, p, novel, now);
    FewFit(s.(attemptIDs := Remember(s.attemptIDs, novel, now)), tasks, ids, now);
    var s1 := Lane.Reconciled(c, s, p, novel, now, NO_ONE);
    RecordAllLeavesFew(c, s1, tasks, ids, p.request.task, now, plan, draws);
    var s2 := RecordAll(c, s1, p.request.task, now, plan, draws).0;
    var s3 := if error.Some? then Distrusted(s2) else s2;
    CompletingLeavesFew(s3.(lastStart := Max(s3.lastStart, LatestStart(novel, p.startedAt, now))), tasks, ids, p.request.id, now);
  }

  // ----- Steps and runs -----

  ghost predicate FewAbout(w: World, tasks: set<Id>, ids: set<Id>) {
    Few(w.gov, tasks, ids) && FewPermits(w.permits, tasks)
  }

  lemma AdmittingFits(c: Config, s: State, tasks: set<Id>, ids: set<Id>, request: Request, at: Time, observed: Option<TelemetrySnapshot>, cancelled: bool)
    requires Few(s, tasks, ids) && Room(tasks, ids) && request.task in tasks
    ensures AdmitFits(c, s, request, at, observed, cancelled, NO_ONE, NO_ONE)
    ensures Few(TryAdmit(c, s, request, at, observed, cancelled, NO_ONE, NO_ONE).0, tasks, ids)
  {
    hide Check, Prune, TelemetryAfter, CircuitAfter, CooldownAfter, ChoiceFits;
    var s1 := Prune(s, at, NO_ONE);
    PruneLeavesFew(s, tasks, ids, at);
    FewFit(s, tasks, ids, at);
    FewFit(Observe(c, s1, observed, at), tasks, ids, at);
    CheckLeavesFew(c, Observe(c, s1, observed, at), tasks, ids, request, at, at);
  }

  lemma LookingFits(c: Config, s: State, tasks: set<Id>, ids: set<Id>, index: nat, now: Time, at: Time, observed: Option<TelemetrySnapshot>, cancelled: bool)
    requires Few(s, tasks, ids) && Room(tasks, ids) && index < |s.queue|
    ensures Fits(Observe(c, s, observed, now), now, NO_ONE)
    ensures Few(QueueCheck(c, s, index, now, at, observed, cancelled, NO_ONE).0, tasks, ids)
  {
    hide Check, TelemetryAfter, CircuitAfter, CooldownAfter, ChoiceFits;
    var s1 := Observe(c, s, observed, now);
    FewFit(s1, tasks, ids, now);
    assert s.queue[index] in s.queue;
    CheckLeavesFew(c, s1, tasks, ids, s.queue[index].request, now, at);
  }

  lemma AskingFits(c: Config, w: World, step: Label, tasks: set<Id>, ids: set<Id>)
    requires Enabled(c, w, step) && FewAbout(w, tasks, ids) && Room(tasks, ids) && Bare(step, tasks, ids)
    requires step.Admit? || step.Join? || step.Look?
    ensures Fitting(c, w, step) && FewAbout(Step(c, w, step), tasks, ids)
  {
    hide TryAdmit, QueueCheck, Prune, AdmitFits, ChoiceFits;
    match step {
      case Admit(request, at, observed, cancelled, pruned, checked) =>
        AdmittingFits(c, w.gov, tasks, ids, request, at, observed, cancelled);
        GrantsTheRequest(c, w.gov, request, at, observed, cancelled);
      case Join(request, at, _) =>
        PruneLeavesFew(w.gov, tasks, ids, at);
        FewFit(w.gov, tasks, ids, at);
      case Look(index, now, at, observed, cancelled, _) =>
        LookingFits(c, w.gov, tasks, ids, index, now, at, observed, cancelled);
        GrantsTheWaiter(c, w.gov, index, now, at, observed, cancelled);
        assert w.gov.queue[index] in w.gov.queue;
    }
  }

  lemma GrantsTheRequest(c: Config, s: State, request: Request, at: Time, observed: Option<TelemetrySnapshot>, cancelled: bool)
    ensures var admission := TryAdmit(c, s, request, at, observed, cancelled, NO_ONE, NO_ONE).1;
            admission.Granted? ==> admission.permit.request == request
  {
    hide Check, Prune, Observe;
  }

  lemma GrantsTheWaiter(c: Config, s: State, index: nat, now: Time, at: Time, observed: Option<TelemetrySnapshot>, cancelled: bool)
    requires index < |s.queue|
    ensures var admission := QueueCheck(c, s, index, now, at, observed, cancelled, NO_ONE).1;
            admission.Granted? ==> admission.permit.request == s.queue[index].request
  {
    hide Check, Observe;
  }

  lemma CallingFits(c: Config, w: World, step: Label, tasks: set<Id>, ids: set<Id>)
    requires Enabled(c, w, step) && FewAbout(w, tasks, ids) && Room(tasks, ids) && Bare(step, tasks, ids)
    requires step.Begin? || step.Finish?
    ensures Fitting(c, w, step) && FewAbout(Step(c, w, step), tasks, ids)
  {
    hide Survey, RecordOutcome, ChoiceFits, Spend, Few, Complete, Vacate;
    var p, at := w.permits[step.permit], step.at;
    assert p in w.permits;
    FewFit(w.gov, tasks, ids, at);
    SurveyLeavesFew(c, w.gov, tasks, ids, p.request.task, at);
    var s1 := Survey(c, w.gov, p.request.task, at, NO_ONE);
    if step.Finish? {
      FewFit(s1, tasks, ids, at);
      RecordingLeavesFew(c, s1, tasks, ids, p.request.task, at, step.outcome, step.draw);
      CompletingLeavesFew(RecordOutcome(c, s1, p.request.task, at, step.outcome, step.draw).0, tasks, ids, p.request.id, at);
    } else {
      BeginningLeavesFew(c, w.gov, tasks, ids, p.request, step.receiptAware, at);
    }
  }

  lemma BeginningLeavesFew(c: Config, s: State, tasks: set<Id>, ids: set<Id>, request: Request, receiptAware: bool, at: Time)
    requires Few(s, tasks, ids) && request.task in tasks
    ensures Few(BeginAttempt(c, s, request, receiptAware, at, NO_ONE).0, tasks, ids)
  {
    hide Survey, Spend;
    SurveyLeavesFew(c, s, tasks, ids, request.task, at);
  }

  lemma OtherStepFits(c: Config, w: World, step: Label, tasks: set<Id>, ids: set<Id>)
    requires Enabled(c, w, step) && FewAbout(w, tasks, ids) && Room(tasks, ids) && Bare(step, tasks, ids)
    requires !(step.Admit? || step.Join? || step.Look? || step.Begin? || step.Finish?)
    ensures Fitting(c, w, step) && FewAbout(Step(c, w, step), tasks, ids)
  {
    hide FinishReceipts, Lane.Expire, ChoiceFits, Complete, Vacate, DrawsOf;
    match step {
      case Save(at, _) =>
        FewFit(w.gov, tasks, ids, at);
        ExpireLeavesFew(c, w.gov, tasks, ids, at);
      case Emit(task, at, _) =>
        FewFit(w.gov, tasks, ids, at);
        SurveyLeavesFew(c, w.gov, tasks, ids, task, at);
      case Abort(index, at) => CompletingLeavesFew(w.gov, tasks, ids, w.permits[index].request.id, at);
      case FinishWithReceipts(index, outcome, set_, at, draws) =>
        assert w.permits[index] in w.permits;
        if FinishError(w.permits[index]).None? && w.permits[index].receiptAware {
          ReceiptsLeaveFew(c, w.gov, tasks, ids, w.permits[index], outcome, set_, at, draws);
        }
        FinishedAlike(c, w.gov, w.permits[index], outcome, set_, at, draws);
      case Abandon(index) =>
        assert w.permits[index] in w.permits;
        AbandoningLeavesFew(w.gov, tasks, ids, w.permits[index]);
      case _ =>
    }
  }

  lemma AbandoningLeavesFew(s: State, tasks: set<Id>, ids: set<Id>, p: Permit)
    requires Few(s, tasks, ids)
    ensures Few(CancelBeforeStart(s, p).0, tasks, ids) && CancelBeforeStart(s, p).1.request == p.request
  {
  }

  lemma FinishedAlike(c: Config, s: State, p: Permit, outcome: Outcome, set_: Option<ReceiptSet>, now: Time, draws: Draws)
    requires Settles(c, s, p, outcome, set_, now, draws.evicted) ==>
      |draws.outcomes| == |OutcomesToRecord(NewReceipts(s, set_.value, now, draws.evicted), CallOutcome(outcome))|
    ensures FinishReceipts(c, s, p, outcome, set_, now, draws).1.request == p.request
    ensures FinishError(p).Some? || !p.receiptAware ==> FinishReceipts(c, s, p, outcome, set_, now, draws).0 == s
  {
    hide Rejection, NewReceipts, OutcomesToRecord, Survey, Lane.Reconciled, RecordAll, SettledClass, ConcludedResult, Conclude, Complete;
  }

  /** A run that names few enough tasks and receipts evicts no one, and may: its
      empty choices are the ones the caps ask for. */
  lemma {:induction false} BareRunFits(c: Config, w: World, steps: seq<Label>, tasks: set<Id>, ids: set<Id>)
    requires Runnable(c, w, steps) && FewAbout(w, tasks, ids) && Room(tasks, ids)
    requires forall i :: 0 <= i < |steps| ==> Bare(steps[i], tasks, ids)
    ensures FittingRun(c, w, steps) && FewAbout(Run(c, w, steps), tasks, ids)
    decreases |steps|
  {
    hide Step, Enabled, Fitting, FewAbout, Bare;
    if steps != [] {
      BareStepFits(c, w, steps[0], tasks, ids);
      BareRunFits(c, Step(c, w, steps[0]), steps[1..], tasks, ids);
    }
  }

  lemma BareStepFits(c: Config, w: World, step: Label, tasks: set<Id>, ids: set<Id>)
    requires Enabled(c, w, step) && FewAbout(w, tasks, ids) && Room(tasks, ids) && Bare(step, tasks, ids)
    ensures Fitting(c, w, step) && FewAbout(Step(c, w, step), tasks, ids)
  {
    hide Step, Enabled, Fitting, FewAbout, Bare;
    if step.Admit? || step.Join? || step.Look? {
      AskingFits(c, w, step, tasks, ids);
    } else if step.Begin? || step.Finish? {
      CallingFits(c, w, step, tasks, ids);
    } else {
      OtherStepFits(c, w, step, tasks, ids);
    }
  }
}
