/** What halts the lane: a security signal until a human acknowledges it, an
    expired credential until it is refreshed, an open window until it has
    passed, and a shutdown for good.
 */
module Halts {
  import opened Clock
  import opened Policy
  import opened Retention
  import opened AttemptReceipts
  import opened Lane
  import opened Runs
  import opened SingleLane
  import opened Cooldown
  import opened NoDoubleDebit

  const SIGNALS: set<OutcomeClass> :=
    {AuthenticationDenied, Http403, LoginChallenge, Captcha, SuspiciousActivity, AccountWarning, FeatureRestriction}

  // Nobody is let through until a human or a refresh says so.
  predicate Halted(circuit: Circuit) {
    circuit.refreshRequired || circuit.state.HumanReviewRequired?
  }

  // ----- Recording -----

  /** A plain call that ends in a security signal puts the circuit under review
      for that very signal. */
  lemma SignalDemandsReview(c: Config, s: State, p: Permit, outcome: Outcome, now: Time, surveyed: Choice, draw: Draw)
    requires FinishError(p).None? && !p.receiptAware && outcome.class_ in SIGNALS
    ensures var circuit := Lane.Finish(c, s, p, outcome, now, surveyed, draw).0.circuit;
            circuit.state == HumanReviewRequired && circuit.reason == outcome.class_
  {
    hide Survey;
  }

  /** One that ends with an expired credential demands a refresh. */
  lemma ExpiryDemandsRefresh(c: Config, s: State, p: Permit, outcome: Outcome, now: Time, surveyed: Choice, draw: Draw)
    requires FinishError(p).None? && !p.receiptAware && outcome.class_ == AuthenticationExpired
    ensures var circuit := Lane.Finish(c, s, p, outcome, now, surveyed, draw).0.circuit;
            circuit.refreshRequired && circuit.state == OpenUntil && circuit.reason == AuthenticationExpired && circuit.openUntil == ZERO
  {
    hide Survey;
  }

  /** Once under review, the circuit stays so whatever is recorded after it,
      unless a rate response comes before an announced reset and announces one
      itself, with too few remembered to demand the review again. */
  lemma RateResponseKeepsReviewExactly(c: Config, circuit: Circuit, outcome: Outcome, now: Time)
    requires circuit.state.HumanReviewRequired?
    ensures RateResponse(c, circuit, outcome, now).state.HumanReviewRequired?
       <==> || circuit.lastRateReset == ZERO || circuit.lastRateReset <= now || outcome.resetAt <= now
            || |circuit.rateEvents| + 1 >= c.rateResponseThreshold
  {
  }

  predicate Halts(outcome: Outcome) {
    outcome.class_ in SIGNALS || outcome.class_ == AuthenticationExpired
  }

  lemma RecordingHalts(c: Config, s: State, task: Id, now: Time, outcome: Outcome, draw: Draw)
    requires s.circuit.lastRateReset <= now
    ensures var circuit := RecordOutcome(c, s, task, now, outcome, draw).0.circuit;
            && (Halted(s.circuit) || Halts(outcome) ==> Halted(circuit))
            && (s.circuit.refreshRequired || outcome.class_.AuthenticationExpired? ==> circuit.refreshRequired)
            && (outcome.resetAt == ZERO ==> circuit.lastRateReset == s.circuit.lastRateReset)
  {
    hide PruneRequests, YoungTasks, YoungAttempts, Keepers, RecentRates, ExpireTelemetry, SelectedBackoff;
  }

  predicate AllButLastUndated(outcomes: seq<Outcome>) {
    forall i :: 0 <= i < |outcomes| - 1 ==> outcomes[i].resetAt == ZERO
  }

  lemma {:induction false} RecordAllHalts(c: Config, s: State, task: Id, now: Time, outcomes: seq<Outcome>, draws: seq<Draw>)
    requires |draws| == |outcomes| && s.circuit.lastRateReset <= now && AllButLastUndated(outcomes)
    ensures var circuit := RecordAll(c, s, task, now, outcomes, draws).0.circuit;
            && (Halted(s.circuit) || (exists o :: o in outcomes && Halts(o)) ==> Halted(circuit))
            && (s.circuit.refreshRequired || (exists o :: o in outcomes && o.class_.AuthenticationExpired?) ==> circuit.refreshRequired)
            && ((forall o :: o in outcomes ==> o.resetAt == ZERO) ==> circuit.lastRateReset == s.circuit.lastRateReset)
  {
    hide RecordOutcome;
    if outcomes != [] {
      var last := |outcomes| - 1;
      assert outcomes == outcomes[..last] + [outcomes[last]];
      RecordAllHalts(c, s, task, now, outcomes[..last], draws[..last]);
      RecordingHalts(c, RecordAll(c, s, task, now, outcomes[..last], draws[..last]).0, task, now, outcomes[last], draws[last]);
    }
  }

  // What is recorded of a call: every new receipt, and what the call itself
  // says, if anything.
  lemma PlanHoldsAll(novel: seq<Receipt>, call: Outcome)
    requires novel != []
    ensures var plan := OutcomesToRecord(novel, call);
            && plan != [] && AllButLastUndated(plan)
            && (forall r :: r in novel ==> exists o :: o in plan && o.class_ == ReceiptClassOf(r.outcome))
            && (call.class_ !in {Unclassified, Success} ==> exists o :: o in plan && o.class_ == call.class_)
  {
    var each, plan := ReceiptOutcomes(novel), OutcomesToRecord(novel, call);
    forall r | r in novel
      ensures exists o :: o in plan && o.class_ == ReceiptClassOf(r.outcome)
    {
      var k :| 0 <= k < |novel| && novel[k] == r;
      assert plan[k].class_ == each[k].class_ && plan[k] in plan;
    }
    if call.class_ !in {Unclassified, Success} {
      assert plan[|plan| - 1].class_ == call.class_ && plan[|plan| - 1] in plan;
    }
  }

  lemma SurveyKeepsCircuit(c: Config, s: State, task: Id, now: Time, choice: Choice)
    ensures var s' := Survey(c, s, task, now, choice); s'.circuit == s.circuit.(rateEvents := s'.circuit.rateEvents)
  {
    hide PruneRequests, YoungTasks, YoungAttempts, Keepers, RecentRates, ExpireTelemetry;
  }

  lemma {:induction false} DebitingKeepsCircuit(c: Config, s: State, p: Permit, receipts: seq<Receipt>, now: Time)
    ensures DebitReceipts(c, s, p, receipts, now).circuit == s.circuit
    decreases receipts
  {
    hide Normalized, Spend;
    if receipts != [] {
      DebitingKeepsCircuit(c, DebitReceipt(c, s, p, receipts[0], now), p, receipts[1..], now);
    }
  }

  lemma CompletingKeepsCircuit(s: State, id: Id, now: Time)
    ensures Complete(s, id, now).circuit == s.circuit
  {
  }

  // What an accepted set with a new receipt makes the governor record, the
  // call's own class included.
  predicate Reports(s: State, outcome: Outcome, set_: ReceiptSet, now: Time, evicted: set<Id>, class_: OutcomeClass) {
    && HoldsNew(s, set_, now, evicted)
    && (|| outcome.class_ == class_
        || exists r :: r in set_.receipts && r.attemptID !in YoungAttempts(s.attemptIDs, now) - evicted && r.outcome == ReceiptOutcome.Classified(class_))
  }

  lemma ReconcilingHalts(c: Config, s: State, p: Permit, outcome: Outcome, receipts: seq<Receipt>, novel: seq<Receipt>,
                         error: Option<PermitError>, now: Time, surveyed: Choice, draws: seq<Draw>, class_: OutcomeClass)
    requires novel != [] && |draws| == |OutcomesToRecord(novel, CallOutcome(outcome))| && s.circuit.lastRateReset <= now
    requires class_ in SIGNALS + {AuthenticationExpired}
    requires outcome.class_ == class_ || exists r :: r in novel && r.outcome == ReceiptOutcome.Classified(class_)
    ensures var circuit := FinishReconciled(c, s, p, outcome, receipts, novel, error, now, surveyed, draws).0.circuit;
            Halted(circuit) && (class_.AuthenticationExpired? ==> circuit.refreshRequired)
  {
    hide Survey, DebitReceipts, RecordAll, OutcomesToRecord, LatestStart, SettledClass, Remember, Complete;
    var task, plan := p.request.task, OutcomesToRecord(novel, CallOutcome(outcome));
    var remembered := s.(attemptIDs := Remember(s.attemptIDs, novel, now));
    var s1 := Survey(c, remembered, task, now, surveyed);
    var s2 := DebitReceipts(c, s1, p, novel, now);
    SurveyKeepsCircuit(c, remembered, task, now, surveyed);
    DebitingKeepsCircuit(c, s1, p, novel, now);
    PlanHoldsAll(novel, CallOutcome(outcome));
    assert exists o :: o in plan && o.class_ == class_ by {
      if outcome.class_ != class_ {
        var r :| r in novel && r.outcome == ReceiptOutcome.Classified(class_);
        assert ReceiptClassOf(r.outcome) == class_;
      }
    }
    RecordAllHalts(c, s2, task, now, plan, draws);
    var s3 := RecordAll(c, s2, task, now, plan, draws).0;
    var s4 := if error.Some? then Distrusted(s3) else s3;
    CompletingKeepsCircuit(s4.(lastStart := Max(s4.lastStart, LatestStart(novel, p.startedAt, now))), p.request.id, now);
  }

  /** With receipts as well: whatever signal or expired credential an accepted
      set with a new receipt reports, for an attempt or for the call, halts the
      lane, in whatever order they are recorded, unless an announced reset is
      still ahead. */
  lemma ReceiptsHalt(c: Config, s: State, p: Permit, outcome: Outcome, set_: ReceiptSet, now: Time, draws: Draws, class_: OutcomeClass)
    requires FinishError(p).None? && p.receiptAware && Rejection(set_, Expected(c, p, now)).None? && s.circuit.lastRateReset <= now
    requires Settles(c, s, p, outcome, Some(set_), now, draws.evicted) ==>
      |draws.outcomes| == |OutcomesToRecord(NewReceipts(s, set_, now, draws.evicted), CallOutcome(outcome))|
    requires class_ in SIGNALS + {AuthenticationExpired} && Reports(s, outcome, set_, now, draws.evicted, class_)
    ensures var circuit := FinishReceipts(c, s, p, outcome, Some(set_), now, draws).0.circuit;
            Halted(circuit) && (class_.AuthenticationExpired? ==> circuit.refreshRequired)
  {
    hide Rejection, FinishReconciled, PolicyError, OutcomesToRecord, CallOutcome, YoungAttempts, Unseen;
    var seen := YoungAttempts(s.attemptIDs, now) - draws.evicted;
    var novel := NewReceipts(s, set_, now, draws.evicted);
    forall r
      ensures r in novel <==> r in set_.receipts && r.attemptID !in seen
    {
      UnseenIsMissing(set_.receipts, seen, r);
    }
    var policy := PolicyError(c, set_, p, now, |novel| < |set_.receipts|);
    ReconcilingHalts(c, s.(attemptIDs := seen), p, outcome, set_.receipts, novel, policy, now, draws.surveyed, draws.outcomes, class_);
  }

  // ----- Announced resets -----

  // No reset is announced for later than the cooldown reaches; so none is
  // ahead once a caller was let through.
  predicate ResetsServed(w: World) {
    && w.gov.circuit.lastRateReset <= Max(w.gov.cooldownUntil, w.clock)
    && (w.gov.inFlight ==> w.gov.circuit.lastRateReset <= w.clock)
  }

  lemma RecordingServesReset(c: Config, s: State, task: Id, now: Time, outcome: Outcome, draw: Draw)
    requires s.circuit.lastRateReset <= now && ZERO < now
    ensures var s' := RecordOutcome(c, s, task, now, outcome, draw).0; s'.circuit.lastRateReset <= Max(s'.cooldownUntil, now)
  {
    hide PruneRequests, YoungTasks, YoungAttempts, Keepers, RecentRates, ExpireTelemetry, SelectedBackoff;
    if AsRecorded(outcome).class_.RateCapacity? {
      RecordingHeeds(c, s, task, now, AsRecorded(outcome), draw);
    }
  }

  lemma RecordAllServesReset(c: Config, s: State, task: Id, now: Time, outcomes: seq<Outcome>, draws: seq<Draw>)
    requires |draws| == |outcomes| && outcomes != [] && s.circuit.lastRateReset <= now && ZERO < now && AllButLastUndated(outcomes)
    ensures var s' := RecordAll(c, s, task, now, outcomes, draws).0; s'.circuit.lastRateReset <= Max(s'.cooldownUntil, now)
  {
    hide RecordOutcome;
    var last := |outcomes| - 1;
    RecordAllHalts(c, s, task, now, outcomes[..last], draws[..last]);
    RecordingServesReset(c, RecordAll(c, s, task, now, outcomes[..last], draws[..last]).0, task, now, outcomes[last], draws[last]);
  }

  lemma ReconcilingServesReset(c: Config, s: State, p: Permit, outcome: Outcome, receipts: seq<Receipt>, novel: seq<Receipt>,
                               error: Option<PermitError>, now: Time, surveyed: Choice, draws: seq<Draw>)
    requires novel != [] && |draws| == |OutcomesToRecord(novel, CallOutcome(outcome))| && s.circuit.lastRateReset <= now && ZERO < now
    ensures var s' := FinishReconciled(c, s, p, outcome, receipts, novel, error, now, surveyed, draws).0;
            s'.circuit.lastRateReset <= Max(s'.cooldownUntil, now)
  {
    hide Survey, DebitReceipts, RecordAll, OutcomesToRecord, LatestStart, SettledClass, Remember, Complete;
    var task, plan := p.request.task, OutcomesToRecord(novel, CallOutcome(outcome));
    var remembered := s.(attemptIDs := Remember(s.attemptIDs, novel, now));
    var s1 := Survey(c, remembered, task, now, surveyed);
    var s2 := DebitReceipts(c, s1, p, novel, now);
    SurveyKeepsCircuit(c, remembered, task, now, surveyed);
    DebitingKeepsCircuit(c, s1, p, novel, now);
    PlanHoldsAll(novel, CallOutcome(outcome));
    RecordAllServesReset(c, s2, task, now, plan, draws);
    var s3 := RecordAll(c, s2, task, now, plan, draws).0;
    var s4 := if error.Some? then Distrusted(s3) else s3;
    CompletingKeepsCircuit(s4.(lastStart := Max(s4.lastStart, LatestStart(novel, p.startedAt, now))), p.request.id, now);
    CompletingKeeps(s4.(lastStart := Max(s4.lastStart, LatestStart(novel, p.startedAt, now))), p.request.id, now);
  }

  lemma FailingKeepsReset(c: Config, s: State, p: Permit, error: PermitError, debit: bool, delivery: Delivery, now: Time, choice: Choice)
    ensures ReceiptFailure(c, s, p, error, debit, delivery, now, choice).0.circuit.lastRateReset == s.circuit.lastRateReset
  {
    hide Survey, Spend;
    SurveyKeepsCircuit(c, Distrusted(s), p.request.task, now, choice);
  }

  lemma ReceiptsServeReset(c: Config, s: State, p: Permit, outcome: Outcome, set_: Option<ReceiptSet>, now: Time, draws: Draws)
    requires s.circuit.lastRateReset <= now && ZERO < now
    requires Settles(c, s, p, outcome, set_, now, draws.evicted) ==>
      |draws.outcomes| == |OutcomesToRecord(NewReceipts(s, set_.value, now, draws.evicted), CallOutcome(outcome))|
    ensures var s' := FinishReceipts(c, s, p, outcome, set_, now, draws).0; s'.circuit.lastRateReset <= Max(s'.cooldownUntil, now)
  {
    hide Rejection, ReceiptFailure, FinishReconciled, PolicyError, OutcomesToRecord, CallOutcome, YoungAttempts, Unseen;
    if FinishError(p).None? && p.receiptAware {
      if set_.None? || Rejection(set_.value, Expected(c, p, now)).Some? {
        FailingKeepsReset(c, s, p, ReceiptsInvalid, true, outcome.delivery, now, draws.surveyed);
      } else {
        var pruned := s.(attemptIDs := YoungAttempts(s.attemptIDs, now) - draws.evicted);
        var novel := NewReceipts(s, set_.value, now, draws.evicted);
        var policy := PolicyError(c, set_.value, p, now, |novel| < |set_.value.receipts|);
        if novel == [] {
          FailingKeepsReset(c, pruned, p, if policy.Some? then policy.value else ReceiptReplayed, false, outcome.delivery, now, draws.surveyed);
        } else {
          ReconcilingServesReset(c, pruned, p, outcome, set_.value.receipts, novel, policy, now, draws.surveyed, draws.outcomes);
        }
      }
    }
  }

  lemma CheckingKeepsReset(c: Config, s: State, request: Request, now: Time, at: Time, choice: Choice)
    ensures Check(c, s, request, now, at, choice).0.circuit.lastRateReset == s.circuit.lastRateReset
  {
    hide PruneRequests, YoungTasks, YoungAttempts, Keepers, RecentRates, ExpireTelemetry, CircuitVerdict, GateVerdict, BudgetVerdict, Touched;
  }

  lemma AskingKeepsReset(c: Config, w: World, step: Label)
    requires Enabled(c, w, step) && (step.Admit? || step.Look? || step.Join?)
    ensures Step(c, w, step).gov.circuit.lastRateReset == w.gov.circuit.lastRateReset
    ensures Step(c, w, step).gov.inFlight == w.gov.inFlight || |Step(c, w, step).permits| > |w.permits|
  {
    hide Check, PruneRequests, YoungTasks, YoungAttempts, Keepers, TelemetryAfter, CooldownAfter;
    match step {
      case Admit(request, at, observed, cancelled, pruned, checked) =>
        CheckingKeepsReset(c, Observe(c, Prune(w.gov, at, pruned), observed, at), request, at, at, checked);
        CheckNeedsFreeLane(c, Observe(c, Prune(w.gov, at, pruned), observed, at), request, at, at, checked);
      case Look(index, now, at, observed, cancelled, checked) =>
        CheckingKeepsReset(c, Observe(c, w.gov, observed, now), w.gov.queue[index].request, now, at, checked);
        CheckNeedsFreeLane(c, Observe(c, w.gov, observed, now), w.gov.queue[index].request, now, at, checked);
      case Join(_, _, _) =>
    }
  }

  lemma QuietStepKeepsReset(c: Config, w: World, step: Label)
    requires Enabled(c, w, step) && !(step.Admit? || step.Look? || step.Join? || step.Finish? || step.FinishWithReceipts?)
    ensures var s := Step(c, w, step).gov;
            && (s.circuit.lastRateReset == w.gov.circuit.lastRateReset || s.circuit.lastRateReset == ZERO) && (s.inFlight ==> w.gov.inFlight)
  {
    hide Survey, Lane.Expire, Spend, Complete;
    match step {
      case Begin(index, _, at, surveyed) =>
        SurveyKeepsCircuit(c, w.gov, w.permits[index].request.task, at, surveyed);
        SurveyKeepsFlight(c, w.gov, w.permits[index].request.task, at, surveyed);
      case Emit(task, at, surveyed) =>
        SurveyKeepsCircuit(c, w.gov, task, at, surveyed);
        SurveyKeepsFlight(c, w.gov, task, at, surveyed);
      case Save(at, pruned) =>
        SurveyKeepsCircuit(c, w.gov, "", at, pruned);
        SurveyKeepsFlight(c, w.gov, "", at, pruned);
        SurveyOnlyTouches(c, w.gov, at, pruned);
      case Abort(index, at) => CompletingKeepsCircuit(w.gov, w.permits[index].request.id, at);
      case _ =>
    }
  }

  lemma SurveyKeepsFlight(c: Config, s: State, task: Id, now: Time, choice: Choice)
    ensures Survey(c, s, task, now, choice).inFlight == s.inFlight
  {
    hide PruneRequests, YoungTasks, YoungAttempts, Keepers, RecentRates, ExpireTelemetry;
  }

  lemma SurveyOnlyTouches(c: Config, s: State, now: Time, choice: Choice)
    ensures var (expired, surveyed) := (Lane.Expire(c, s, now, choice), Survey(c, s, "", now, choice));
            expired.circuit == surveyed.circuit && expired.inFlight == surveyed.inFlight
  {
    hide Lane.Expire;
  }

  lemma FinishServesReset(c: Config, w: World, step: Label)
    requires Enabled(c, w, step) && OneLane(w) && ResetsServed(w) && ZERO < w.clock && (step.Finish? || step.FinishWithReceipts?)
    ensures ResetsServed(Step(c, w, step))
  {
    hide Survey, RecordOutcome, FinishReceipts, Rejection, NewReceipts, OutcomesToRecord, CallOutcome, NewSightings;
    var p := w.permits[step.permit];
    if step.Finish? {
      var s1 := Survey(c, w.gov, p.request.task, step.at, step.surveyed);
      SurveyKeepsCircuit(c, w.gov, p.request.task, step.at, step.surveyed);
      if FinishError(p).None? {
        RecordingServesReset(c, s1, p.request.task, step.at, step.outcome, step.draw);
      }
    } else {
      ReceiptFinishCompletes(c, w.gov, p, step.outcome, step.set_, step.at, step.draws);
      if FinishError(p).None? {
        ReceiptsServeReset(c, w.gov, p, step.outcome, step.set_, step.at, step.draws);
      }
    }
  }

  lemma AskedByThen(c: Config, w: World, step: Label)
    requires Enabled(c, w, step)
    ensures step.Admit? || step.Look? ==> Asked(step) <= Instant(w, step)
  {
  }

  lemma StepServesResets(c: Config, w: World, step: Label)
    requires Enabled(c, w, step) && OneLane(w) && ResetsServed(w) && ZERO < w.clock
    ensures ResetsServed(Step(c, w, step)) && ZERO < Step(c, w, step).clock
  {
    hide Step, OneLane, HoldsUntil, Names;
    StepSetsClock(c, w, step);
    if step.Finish? || step.FinishWithReceipts? {
      FinishServesReset(c, w, step);
    } else {
      StepHolds(c, w, step);
      if step.Admit? || step.Look? || step.Join? {
        AskingKeepsReset(c, w, step);
        AskedByThen(c, w, step);
      } else {
        QuietStepKeepsReset(c, w, step);
      }
    }
  }

  lemma {:induction false} RunServesResets(c: Config, w: World, steps: seq<Label>)
    requires Runnable(c, w, steps) && OneLane(w) && ResetsServed(w) && ZERO < w.clock
    ensures ResetsServed(Run(c, w, steps)) && OneLane(Run(c, w, steps))
    decreases |steps|
  {
    hide Step, OneLane, ResetsServed, Enabled;
    if steps != [] {
      StepKeepsOneLane(c, w, steps[0]);
      StepServesResets(c, w, steps[0]);
      RunServesResets(c, Step(c, w, steps[0]), steps[1..]);
    }
  }

  // ----- A halted lane -----

  predicate AllCompleted(permits: seq<Permit>) {
    forall i :: 0 <= i < |permits| ==> permits[i].completed
  }

  // The sections that may let a halted lane go: an acknowledgement, a refresh
  // that succeeds and, for a review, a snapshot that opens a window.
  predicate Releases(step: Label) {
    step.Acknowledge? || (step.FinishRefresh? && step.success)
  }

  predicate OpensWindow(step: Label) {
    (step.Admit? || step.Look?) && step.observed.Some? && (step.observed.value.rateLimited || step.observed.value.capacityExhausted)
  }

  lemma ObservingKeepsHalt(c: Config, s: State, observed: Option<TelemetrySnapshot>, now: Time)
    ensures var circuit := Observe(c, s, observed, now).circuit;
            && circuit.refreshRequired == s.circuit.refreshRequired
            && (s.circuit.state.HumanReviewRequired? && (observed.None? || !(observed.value.rateLimited || observed.value.capacityExhausted)) ==>
                  circuit.state.HumanReviewRequired?)
  {
    hide TelemetryAfter, CooldownAfter;
  }

  lemma CheckRefusesHalted(c: Config, s: State, request: Request, now: Time, at: Time, choice: Choice)
    requires Halted(s.circuit)
    ensures var (s', verdict) := Check(c, s, request, now, at, choice);
            && !verdict.Pass? && s'.circuit.refreshRequired == s.circuit.refreshRequired && s'.circuit.state == s.circuit.state
  {
    hide PruneRequests, YoungTasks, YoungAttempts, Keepers, RecentRates, UpstreamVerdict, BudgetVerdict, ExpireTelemetry;
  }

  lemma PruningKeepsCircuit(s: State, now: Time, choice: Choice)
    ensures Prune(s, now, choice).circuit == s.circuit
  {
    hide PruneRequests, YoungTasks, YoungAttempts, Keepers;
  }

  lemma AskingStaysHalted(c: Config, w: World, step: Label)
    requires Enabled(c, w, step) && (step.Admit? || step.Look? || step.Join?)
    requires w.gov.circuit.refreshRequired || (w.gov.circuit.state.HumanReviewRequired? && !OpensWindow(step))
    ensures var w' := Step(c, w, step);
            && w'.permits == w.permits && w'.gov.circuit.refreshRequired == w.gov.circuit.refreshRequired
            && (w.gov.circuit.state.HumanReviewRequired? && !OpensWindow(step) ==> w'.gov.circuit.state.HumanReviewRequired?)
  {
    hide Check, Prune, Observe;
    match step {
      case Admit(request, at, observed, cancelled, pruned, checked) =>
        var s1 := Prune(w.gov, at, pruned);
        PruningKeepsCircuit(w.gov, at, pruned);
        ObservingKeepsHalt(c, s1, observed, at);
        CheckRefusesHalted(c, Observe(c, s1, observed, at), request, at, at, checked);
      case Look(index, now, at, observed, cancelled, checked) =>
        ObservingKeepsHalt(c, w.gov, observed, now);
        CheckRefusesHalted(c, Observe(c, w.gov, observed, now), w.gov.queue[index].request, now, at, checked);
      case Join(_, at, pruned) => PruningKeepsCircuit(w.gov, at, pruned);
    }
  }

  lemma OtherStepStaysHalted(c: Config, w: World, step: Label)
    requires Enabled(c, w, step) && !(step.Admit? || step.Look? || step.Join?) && AllCompleted(w.permits) && !Releases(step)
    ensures var w' := Step(c, w, step);
            && |w'.permits| == |w.permits| && w'.gov.circuit.refreshRequired == w.gov.circuit.refreshRequired
            && (w.gov.circuit.state.HumanReviewRequired? ==> w'.gov.circuit.state.HumanReviewRequired?)
  {
    hide Survey, Lane.Expire, RecordOutcome, Rejection, NewReceipts, PolicyError, OutcomesToRecord, CallOutcome;
    match step {
      case Emit(task, at, surveyed) => SurveyKeepsCircuit(c, w.gov, task, at, surveyed);
      case Save(at, pruned) =>
        SurveyKeepsCircuit(c, w.gov, "", at, pruned);
        SurveyOnlyTouches(c, w.gov, at, pruned);
      case _ =>
    }
  }

  lemma StepStaysHalted(c: Config, w: World, step: Label)
    requires Enabled(c, w, step) && AllCompleted(w.permits) && !Releases(step)
    requires w.gov.circuit.refreshRequired || (w.gov.circuit.state.HumanReviewRequired? && !OpensWindow(step))
    ensures var w' := Step(c, w, step);
            && |w'.permits| == |w.permits| && AllCompleted(w'.permits) && w'.gov.circuit.refreshRequired == w.gov.circuit.refreshRequired
            && (w.gov.circuit.state.HumanReviewRequired? && !OpensWindow(step) ==> w'.gov.circuit.state.HumanReviewRequired?)
  {
    hide Step, Enabled;
    var w' := Step(c, w, step);
    if step.Admit? || step.Look? || step.Join? {
      AskingStaysHalted(c, w, step);
    } else {
      OtherStepStaysHalted(c, w, step);
    }
    forall i | 0 <= i < |w'.permits|
      ensures w'.permits[i].completed
    {
      CompletedForGood(c, w, step, i);
    }
  }

  lemma {:induction false} RunStaysHalted(c: Config, w: World, steps: seq<Label>)
    requires Runnable(c, w, steps) && AllCompleted(w.permits) && Halted(w.gov.circuit)
    requires forall i :: 0 <= i < |steps| ==> !Releases(steps[i]) && (OpensWindow(steps[i]) ==> w.gov.circuit.refreshRequired)
    ensures |Run(c, w, steps).permits| == |w.permits| && Halted(Run(c, w, steps).gov.circuit)
    decreases |steps|
  {
    hide Step, Enabled, Releases, OpensWindow, AllCompleted;
    if steps != [] {
      StepStaysHalted(c, w, steps[0]);
      RunStaysHalted(c, Step(c, w, steps[0]), steps[1..]);
    }
  }

  // Whether the step lets a call finish that reports `class_`, and the
  // governor believes it.
  predicate FinishReports(c: Config, w: World, step: Label, class_: OutcomeClass)
    requires Enabled(c, w, step)
  {
    match step
    case Finish(index, outcome, _, _, _) => FinishError(w.permits[index]).None? && !w.permits[index].receiptAware && outcome.class_ == class_
    case FinishWithReceipts(index, outcome, set_, at, draws) =>
      var p := w.permits[index];
      && FinishError(p).None? && p.receiptAware && set_.Some? && Rejection(set_.value, Expected(c, p, at)).None?
      && Reports(w.gov, outcome, set_.value, at, draws.evicted, class_)
    case _ => false
  }

  lemma ReportHalts(c: Config, w: World, step: Label, class_: OutcomeClass)
    requires Enabled(c, w, step) && OneLane(w) && ResetsServed(w) && class_ in SIGNALS + {AuthenticationExpired} && FinishReports(c, w, step, class_)
    ensures var w' := Step(c, w, step);
            && |w'.permits| == |w.permits| && AllCompleted(w'.permits) && Halted(w'.gov.circuit)
            && (class_.AuthenticationExpired? ==> w'.gov.circuit.refreshRequired)
  {
    hide Lane.Finish, FinishReceipts, Rejection, NewReceipts, OutcomesToRecord, CallOutcome, NewSightings, Reports;
    var p := w.permits[step.permit];
    StepKeepsOneLane(c, w, step);
    if step.Finish? {
      PlainHalts(c, w.gov, p, step.outcome, step.at, step.surveyed, step.draw);
      FinishCompletes(c, w.gov, p, step.outcome, step.at, step.surveyed, step.draw);
    } else {
      ReceiptsHalt(c, w.gov, p, step.outcome, step.set_.value, step.at, step.draws, class_);
      ReceiptFinishCompletes(c, w.gov, p, step.outcome, step.set_, step.at, step.draws);
    }
  }

  lemma PlainHalts(c: Config, s: State, p: Permit, outcome: Outcome, now: Time, surveyed: Choice, draw: Draw)
    requires FinishError(p).None? && !p.receiptAware && outcome.class_ in SIGNALS + {AuthenticationExpired}
    ensures var circuit := Lane.Finish(c, s, p, outcome, now, surveyed, draw).0.circuit;
            Halted(circuit) && (outcome.class_.AuthenticationExpired? ==> circuit.refreshRequired)
  {
    hide Lane.Finish;
    if outcome.class_ in SIGNALS {
      SignalDemandsReview(c, s, p, outcome, now, surveyed, draw);
    } else {
      ExpiryDemandsRefresh(c, s, p, outcome, now, surveyed, draw);
    }
  }

  lemma FinishCompletes(c: Config, s: State, p: Permit, outcome: Outcome, now: Time, surveyed: Choice, draw: Draw)
    requires FinishError(p).None? && !p.receiptAware
    ensures Lane.Finish(c, s, p, outcome, now, surveyed, draw).1 == p.(completed := true)
  {
    hide Survey, RecordOutcome, Complete;
  }

  /** After any history, once a call that ends reports a security signal or an
      expired credential, for itself or for an attempt it made, no later run
      grants a permit before a human acknowledges it or a refresh succeeds; a
      review alone also ends where telemetry opens a window. */
  lemma ReportHaltsTheLane(c: Config, clock: Time, history: seq<Label>, step: Label, class_: OutcomeClass, steps: seq<Label>)
    requires ZERO < clock && Runnable(c, Initially(clock), history)
    requires var w := Run(c, Initially(clock), history);
             && Enabled(c, w, step) && FinishReports(c, w, step, class_) && class_ in SIGNALS + {AuthenticationExpired}
             && Runnable(c, Step(c, w, step), steps)
    requires forall i :: 0 <= i < |steps| ==> !Releases(steps[i]) && (OpensWindow(steps[i]) ==> class_ == AuthenticationExpired)
    ensures var w := Run(c, Initially(clock), history); |Run(c, Step(c, w, step), steps).permits| == |w.permits|
  {
    hide Runnable, Run, Step, Enabled, FinishReports, Releases, OpensWindow, AllCompleted, Halted;
    FreshServesResets(clock);
    RunServesResets(c, Initially(clock), history);
    var w := Run(c, Initially(clock), history);
    ReportHalts(c, w, step, class_);
    RunStaysHalted(c, Step(c, w, step), steps);
  }

  lemma FreshServesResets(clock: Time)
    requires ZERO < clock
    ensures OneLane(Initially(clock)) && ResetsServed(Initially(clock))
  {
  }

  /** A halt ends exactly there: on an idle trusted lane the circuit holds nobody
      back after an acknowledgement of a review or a refresh that succeeds. What
      an acknowledgement leaves is a new circuit, but for a refresh under way. */
  lemma ReleasesEndHalts(s: State, now: Time)
    requires !s.inFlight && !s.telemetry.unsafe
    ensures CircuitVerdict(Lane.FinishRefresh(s, true), now).Pass?
    ensures s.circuit.state.HumanReviewRequired? ==> CircuitVerdict(Lane.Acknowledge(s).0, now).Pass?
    ensures var (s', acknowledged) := Lane.Acknowledge(s);
            if s.circuit.state.HumanReviewRequired? then
              acknowledged && s' == s.(circuit := FRESH.circuit.(refreshInFlight := s.circuit.refreshInFlight))
            else !acknowledged && s' == s
    ensures Halted(s.circuit) ==> !CircuitVerdict(s, now).Pass?
    ensures var failed := Lane.FinishRefresh(s, false);
            && failed.circuit.state == HumanReviewRequired && failed.circuit.reason == AuthenticationExpired
            && failed.circuit.refreshRequired == s.circuit.refreshRequired && !CircuitVerdict(failed, now).Pass?
  {
  }

  // ----- A shutdown -----

  // A closed governor has nobody waiting.
  predicate Deserted(w: World) {
    w.gov.closed ==> w.gov.queue == []
  }

  predicate SameDoor(s: State, s': State) {
    s'.closed == s.closed && s'.queue == s.queue
  }

  lemma SurveyKeepsDoor(c: Config, s: State, task: Id, now: Time, choice: Choice)
    ensures SameDoor(s, Survey(c, s, task, now, choice)) && SameDoor(s, Lane.Expire(c, s, now, choice))
  {
    hide PruneRequests, YoungTasks, YoungAttempts, Keepers, RecentRates, ExpireTelemetry;
  }

  lemma RecordingKeepsDoor(c: Config, s: State, task: Id, now: Time, outcome: Outcome, draw: Draw)
    ensures SameDoor(s, RecordOutcome(c, s, task, now, outcome, draw).0)
  {
    hide Lane.Expire, RateResponse, SelectedBackoff, OtherResponse, AsRecorded;
    SurveyKeepsDoor(c, s, task, now, draw.choice);
  }

  lemma {:induction false} RecordAllKeepsDoor(c: Config, s: State, task: Id, now: Time, outcomes: seq<Outcome>, draws: seq<Draw>)
    requires |draws| == |outcomes|
    ensures SameDoor(s, RecordAll(c, s, task, now, outcomes, draws).0)
  {
    hide RecordOutcome;
    if outcomes != [] {
      var last := |outcomes| - 1;
      RecordAllKeepsDoor(c, s, task, now, outcomes[..last], draws[..last]);
      RecordingKeepsDoor(c, RecordAll(c, s, task, now, outcomes[..last], draws[..last]).0, task, now, outcomes[last], draws[last]);
    }
  }

  lemma {:induction false} DebitingKeepsDoor(c: Config, s: State, p: Permit, receipts: seq<Receipt>, now: Time)
    ensures SameDoor(s, DebitReceipts(c, s, p, receipts, now))
    decreases receipts
  {
    hide Normalized, Spend;
    if receipts != [] {
      DebitingKeepsDoor(c, DebitReceipt(c, s, p, receipts[0], now), p, receipts[1..], now);
    }
  }

  lemma ReceiptsKeepDoor(c: Config, s: State, p: Permit, outcome: Outcome, set_: Option<ReceiptSet>, now: Time, draws: Draws)
    requires Settles(c, s, p, outcome, set_, now, draws.evicted) ==>
      |draws.outcomes| == |OutcomesToRecord(NewReceipts(s, set_.value, now, draws.evicted), CallOutcome(outcome))|
    ensures SameDoor(s, FinishReceipts(c, s, p, outcome, set_, now, draws).0)
  {
    hide Rejection, PolicyError, OutcomesToRecord, CallOutcome, YoungAttempts, Unseen, Survey, DebitReceipts, RecordAll, Remember, LatestStart,
         SettledClass, ConcludedResult, Spend;
    if FinishError(p).None? && p.receiptAware {
      SurveyKeepsDoor(c, Distrusted(s), p.request.task, now, draws.surveyed);
      if set_.Some? && Rejection(set_.value, Expected(c, p, now)).None? {
        var pruned := s.(attemptIDs := YoungAttempts(s.attemptIDs, now) - draws.evicted);
        var novel := NewReceipts(s, set_.value, now, draws.evicted);
        SurveyKeepsDoor(c, Distrusted(pruned), p.request.task, now, draws.surveyed);
        if novel != [] {
          var remembered := pruned.(attemptIDs := Remember(pruned.attemptIDs, novel, now));
          var s1 := Survey(c, remembered, p.request.task, now, draws.surveyed);
          SurveyKeepsDoor(c, remembered, p.request.task, now, draws.surveyed);
          DebitingKeepsDoor(c, s1, p, novel, now);
          RecordAllKeepsDoor(c, DebitReceipts(c, s1, p, novel, now), p.request.task, now, OutcomesToRecord(novel, CallOutcome(outcome)), draws.outcomes);
        }
      }
    }
  }

  lemma AskingKeepsDeserted(c: Config, w: World, step: Label)
    requires Enabled(c, w, step) && Deserted(w) && (step.Admit? || step.Look? || step.Join?)
    ensures var w' := Step(c, w, step); Deserted(w') && (w.gov.closed ==> w'.gov.closed && |w'.permits| == |w.permits|)
  {
    hide Check, PruneRequests, YoungTasks, YoungAttempts, Keepers, TelemetryAfter, CircuitAfter, CooldownAfter;
    match step {
      case Admit(request, at, observed, cancelled, pruned, checked) =>
        CheckingKeepsDoor(c, Observe(c, Prune(w.gov, at, pruned), observed, at), request, at, at, checked);
      case Look(index, now, at, observed, cancelled, checked) =>
        CheckingKeepsDoor(c, Observe(c, w.gov, observed, now), w.gov.queue[index].request, now, at, checked);
      case Join(_, _, _) =>
    }
  }

  lemma CheckingKeepsDoor(c: Config, s: State, request: Request, now: Time, at: Time, choice: Choice)
    ensures SameDoor(s, Check(c, s, request, now, at, choice).0)
  {
    hide Lane.Expire, CircuitChecked, GateVerdict, BudgetVerdict;
    SurveyKeepsDoor(c, s, request.task, now, choice);
  }

  lemma StepKeepsDeserted(c: Config, w: World, step: Label)
    requires Enabled(c, w, step) && Deserted(w)
    ensures var w' := Step(c, w, step); Deserted(w') && (w.gov.closed ==> w'.gov.closed && |w'.permits| == |w.permits|)
  {
    hide Lane.TryAdmit, QueueCheck, Enqueue, Survey, Lane.Expire, RecordOutcome, FinishReceipts, OutcomesToRecord, CallOutcome, NewReceipts, NewSightings,
         Spend;
    match step {
      case Begin(index, _, at, surveyed) => SurveyKeepsDoor(c, w.gov, w.permits[index].request.task, at, surveyed);
      case Finish(index, outcome, at, surveyed, draw) =>
        var task := w.permits[index].request.task;
        SurveyKeepsDoor(c, w.gov, task, at, surveyed);
        RecordingKeepsDoor(c, Survey(c, w.gov, task, at, surveyed), task, at, outcome, draw);
      case FinishWithReceipts(index, outcome, set_, at, draws) => ReceiptsKeepDoor(c, w.gov, w.permits[index], outcome, set_, at, draws);
      case Emit(task, at, surveyed) => SurveyKeepsDoor(c, w.gov, task, at, surveyed);
      case Save(at, pruned) => SurveyKeepsDoor(c, w.gov, "", at, pruned);
      case Admit(_, _, _, _, _, _) => AskingKeepsDeserted(c, w, step);
      case Look(_, _, _, _, _, _) => AskingKeepsDeserted(c, w, step);
      case Join(_, _, _) => AskingKeepsDeserted(c, w, step);
      case _ =>
    }
  }

  lemma {:induction false} RunKeepsDeserted(c: Config, w: World, steps: seq<Label>)
    requires Runnable(c, w, steps) && Deserted(w)
    ensures var w' := Run(c, w, steps); Deserted(w') && (w.gov.closed ==> w'.gov.closed && |w'.permits| == |w.permits|)
    decreases |steps|
  {
    hide Step, Enabled, Deserted;
    if steps != [] {
      StepKeepsDeserted(c, w, steps[0]);
      RunKeepsDeserted(c, Step(c, w, steps[0]), steps[1..]);
    }
  }

  /** A shutdown is for good: after any history, once the governor is closed no
      later run grants a permit, to those who waited or to anybody else. */
  lemma NothingIsGrantedAfterClose(c: Config, clock: Time, history: seq<Label>, steps: seq<Label>)
    requires Runnable(c, Initially(clock), history)
    requires var w := Run(c, Initially(clock), history); Enabled(c, w, Shut) && Runnable(c, Step(c, w, Shut), steps)
    ensures var w := Run(c, Initially(clock), history);
            var w' := Run(c, Step(c, w, Shut), steps);
            w'.gov.closed && w'.gov.queue == [] && |w'.permits| == |w.permits|
  {
    hide Runnable, Run, Enabled;
    RunKeepsDeserted(c, Initially(clock), history);
    var w := Run(c, Initially(clock), history);
    StepKeepsDeserted(c, w, Shut);
    ShuttingCloses(c, w);
    RunKeepsDeserted(c, Step(c, w, Shut), steps);
  }

  lemma ShuttingCloses(c: Config, w: World)
    requires Enabled(c, w, Shut)
    ensures Step(c, w, Shut).gov.closed && Step(c, w, Shut).permits == w.permits
  {
  }

  // ----- Windows -----

  // The circuit is open until `until`: a check before then does not pass, and
  // one from then on is not held back by it.
  ghost predicate ShutUntil(s: State, until: Time) {
    && s.circuit.state.OpenUntil? && s.circuit.openUntil == until
    && forall t :: !s.inFlight && !s.telemetry.unsafe && !s.circuit.refreshRequired && until != ZERO ==>
         (CircuitVerdict(s, t).Pass? <==> until <= t)
  }

  /** A snapshot that reports a limit while an announced reset is ahead, and
      announces one itself, opens the circuit until the later of the two has
      passed by the safety margin. */
  lemma LimitsOpenAWindow(c: Config, s: State, snap: TelemetrySnapshot, now: Time)
    requires (snap.rateLimited || snap.capacityExhausted) && now < s.telemetry.resetAt && now < snap.resetAt
    ensures ShutUntil(Observe(c, s, Some(snap), now), Max(s.telemetry.resetAt, snap.resetAt) + c.resetSafetyMargin)
  {
    hide TelemetryAfter, CooldownAfter;
  }

  /** So does a rate response before an announced reset, short of the threshold,
      where the circuit remembers the reset announced last. */
  lemma EarlyResponsesOpenAWindow(c: Config, s: State, p: Permit, outcome: Outcome, now: Time, surveyed: Choice, draw: Draw)
    requires FinishError(p).None? && !p.receiptAware && outcome.class_.RateCapacity? && outcome.resetAt != ZERO
    ensures var s' := Lane.Finish(c, s, p, outcome, now, surveyed, draw).0;
            && s'.circuit.lastRateReset == outcome.resetAt
            && (s.circuit.lastRateReset != ZERO && now < s.circuit.lastRateReset && now < outcome.resetAt && !s'.circuit.state.HumanReviewRequired? ==>
                  ShutUntil(s', Max(s.circuit.lastRateReset, outcome.resetAt) + c.resetSafetyMargin))
  {
    hide Survey, Lane.Expire, SelectedBackoff;
    ExpireKeepsReset(c, s, p.request.task, now, surveyed);
    ExpireKeepsReset(c, Survey(c, s, p.request.task, now, surveyed), p.request.task, now, draw.choice);
  }

  lemma ExpireKeepsReset(c: Config, s: State, task: Id, now: Time, choice: Choice)
    ensures Survey(c, s, task, now, choice).circuit.lastRateReset == s.circuit.lastRateReset
    ensures Lane.Expire(c, s, now, choice).circuit.lastRateReset == s.circuit.lastRateReset
  {
    hide PruneRequests, YoungTasks, YoungAttempts, Keepers, RecentRates, ExpireTelemetry;
  }
}
