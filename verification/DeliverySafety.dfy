/** Ambiguous deliveries and retries.

    A call whose delivery was observed to be ambiguous may already have had its
    effect upstream, so it must not be repeated automatically. Plain attempts
    keep that promise. Receipt-aware ones do, except for a call whose one
    receipt says it was rate limited.
 */
module DeliverySafety {
  import opened Clock
  import opened Policy
  import opened Ledger
  import opened Retention
  import opened AttemptReceipts
  import opened Lane
  import opened SingleLane
  import opened BudgetRuns
  import opened RateThreshold
  import opened ReceiptConservation
  import Windows

  // The retries a task has left and a circuit that lets them through, as a
  // finish leaves them.
  predicate MayRetry(c: Config, s: State, task: Id) {
    TaskOf(s, task).retries < c.retryBudget && s.circuit.state.Closed?
  }

  // An outcome whose repetition cannot repeat an unconfirmed effect.
  predicate RetrySafe(outcome: Outcome) {
    && outcome.class_ in {RateCapacity, ConnectionReset, Timeout, EmptyResponse, MalformedUpstream, UpstreamServerFailure}
    && outcome.delivery !in {SentUnconfirmed, ResponseStarted}
  }

  lemma CompletingKeepsChances(c: Config, s: State, id: Id, now: Time, task: Id)
    ensures MayRetry(c, Vacate(Complete(s, id, now)), task) == MayRetry(c, s, task)
  {
  }

  lemma RecordedEligibility(c: Config, s: State, task: Id, now: Time, outcome: Outcome, draw: Draw)
    ensures var (s', result) := RecordOutcome(c, s, task, now, outcome, draw);
            result.retryEligible <==> Recoverable(AsRecorded(outcome).class_) && MayRetry(c, s', task)
  {
    hide Lane.Expire, RateResponse, SelectedBackoff, OtherResponse, AsRecorded;
  }

  lemma PlainEligibility(c: Config, s: State, p: Permit, reported: Outcome, now: Time, surveyed: Choice, draw: Draw)
    requires FinishError(p).None? && !p.receiptAware
    ensures var (s', _, result) := Lane.Finish(c, s, p, WithDeliveryEvidence(reported), now, surveyed, draw);
            result.retryEligible <==> RetrySafe(reported) && MayRetry(c, s', p.request.task)
  {
    hide Survey, RecordOutcome, Complete, Vacate, MayRetry;
    var s1, task := Survey(c, s, p.request.task, now, surveyed), p.request.task;
    RecordedEligibility(c, s1, task, now, WithDeliveryEvidence(reported), draw);
    CompletingKeepsChances(c, RecordOutcome(c, s1, task, now, WithDeliveryEvidence(reported), draw).0, p.request.id, now, task);
  }

  /** A finished plain call reports the class it was given, unless nobody knows
      what became of it: it has no class, its delivery is ambiguous, or it was
      cancelled and not seen to be unsent. Then it counts as reached. */
  lemma UnknownCountsAsReached(c: Config, s: State, p: Permit, reported: Outcome, now: Time, surveyed: Choice, draw: Draw)
    requires FinishError(p).None? && !p.receiptAware
    ensures var result := Lane.Finish(c, s, p, WithDeliveryEvidence(reported), now, surveyed, draw).2;
            && result.error.None? && result.debited == 1 && result.delivery == reported.delivery
            && result.outcome == if reported.class_ == Unclassified || reported.delivery in {SentUnconfirmed, ResponseStarted}
                                    || (reported.class_ == CancelledBeforeUpstream && reported.delivery != NotSent)
                                 then UncertainReached else reported.class_
  {
    hide Survey, Lane.Expire, RateResponse, SelectedBackoff, OtherResponse, TaskOf;
  }

  // ----- The same, asked before the call finishes -----

  // The rate events a finish at `now` still finds; it expires them twice.
  function Remembered(c: Config, events: seq<Time>, now: Time): nat {
    |RecentRates(c, RecentRates(c, events, now), now)|
  }

  /** On events in time order, those are the ones inside the window. */
  lemma RememberedIsWithinWindow(c: Config, events: seq<Time>, now: Time)
    requires Windows.Ascending(events)
    ensures Remembered(c, events, now) <= |events|
    ensures forall i :: 0 <= i < |events| ==> (events[i] > now - c.rateResponseWindow <==> i >= |events| - Remembered(c, events, now))
  {
    hide Bisect;
    var cutoff := now - c.rateResponseWindow;
    BisectIsExact(events, cutoff, 0, |events|);
    var recent := RecentRates(c, events, now);
    BisectIsExact(recent, cutoff, 0, |recent|);
    if recent != [] {
      assert recent[0] > cutoff;
    }
  }

  // The circuit is closed and this outcome leaves it so: no rate response that
  // fills the window or comes back before an announced reset.
  predicate StaysClosed(c: Config, circuit: Circuit, outcome: Outcome, now: Time) {
    && circuit.state.Closed?
    && (outcome.class_.RateCapacity? ==>
          && Remembered(c, circuit.rateEvents, now) + 1 < c.rateResponseThreshold
          && !(circuit.lastRateReset != ZERO && now < circuit.lastRateReset && now < outcome.resetAt))
  }

  lemma HolderIsKept(s: State, task: Id, now: Time, choice: Choice)
    requires s.inFlight && s.activeTask == task && Fits(s, now, choice)
    ensures Recent(s, task, now) && task !in choice.tasks
  {
    assert task in Protected(s);
  }

  lemma SurveyedCircuit(c: Config, s: State, task: Id, now: Time, choice: Choice)
    ensures var s' := Survey(c, s, task, now, choice);
            s'.circuit == s.circuit.(rateEvents := RecentRates(c, s.circuit.rateEvents, now))
  {
    hide PruneRequests, YoungTasks, YoungAttempts, Keepers, RecentRates, ExpireTelemetry;
  }

  // What recording a recoverable outcome leaves of the chances.
  lemma RecordingKeepsChances(c: Config, s: State, task: Id, now: Time, outcome: Outcome, draw: Draw)
    requires s.inFlight && s.activeTask == task && Recoverable(outcome.class_)
    requires outcome.class_.RateCapacity? ==> Fits(s, now, draw.choice)
    ensures var s' := RecordOutcome(c, s, task, now, outcome, draw).0;
            && TaskOf(s', task).retries == TaskOf(s, task).retries
            && (s'.circuit.state.Closed? <==>
                  && s.circuit.state.Closed?
                  && (outcome.class_.RateCapacity? ==>
                        && |RecentRates(c, s.circuit.rateEvents, now)| + 1 < c.rateResponseThreshold
                        && !(s.circuit.lastRateReset != ZERO && now < s.circuit.lastRateReset && now < outcome.resetAt)))
  {
    hide Lane.Expire, RecentRates, SelectedBackoff, ChoiceFits, Recent, SameCounts;
    if outcome.class_.RateCapacity? {
      HolderIsKept(s, task, now, draw.choice);
      ExpireKeepsCounts(c, s, now, draw.choice, task);
      SameCountsMeans(s, Lane.Expire(c, s, now, draw.choice), task);
      ExpiredCircuit(c, s, now, draw.choice);
    }
  }

  lemma ExpiredCircuit(c: Config, s: State, now: Time, choice: Choice)
    ensures Lane.Expire(c, s, now, choice).circuit == s.circuit.(rateEvents := RecentRates(c, s.circuit.rateEvents, now))
  {
    hide PruneRequests, YoungTasks, YoungAttempts, Keepers, RecentRates, ExpireTelemetry;
  }

  /** Whether a plain attempt may be retried can be told before it finishes: its
      class is recoverable, its delivery was not observed to be ambiguous, the
      task has retries left, and the circuit is closed and this outcome leaves
      it so. */
  lemma PlainRetriesExactly(c: Config, s: State, p: Permit, reported: Outcome, now: Time, surveyed: Choice, draw: Draw)
    requires FinishError(p).None? && !p.receiptAware && s.inFlight && s.activeTask == p.request.task
    requires FinishFits(c, s, p, WithDeliveryEvidence(reported), now, surveyed, draw)
    ensures Lane.Finish(c, s, p, WithDeliveryEvidence(reported), now, surveyed, draw).2.retryEligible
       <==> RetrySafe(reported) && TaskOf(s, p.request.task).retries < c.retryBudget && StaysClosed(c, s.circuit, reported, now)
  {
    hide Survey, RecordOutcome, Complete, Vacate, ChoiceFits, Recent, SameCounts, RecentRates;
    var task := p.request.task;
    PlainEligibility(c, s, p, reported, now, surveyed, draw);
    if RetrySafe(reported) {
      var s1 := Survey(c, s, task, now, surveyed);
      HolderIsKept(s, task, now, surveyed);
      SurveyKeepsCounts(c, s, task, now, surveyed, task);
      SameCountsMeans(s, s1, task);
      SurveyedCircuit(c, s, task, now, surveyed);
      RecordingKeepsChances(c, s1, task, now, reported, draw);
      CompletingKeepsChances(c, RecordOutcome(c, s1, task, now, reported, draw).0, p.request.id, now, task);
    }
  }

  // The set holds one receipt, not seen before, that says the attempt was rate
  // limited.
  predicate OneRateLimited(s: State, set_: ReceiptSet, now: Time, evicted: set<Id>) {
    && |set_.receipts| == 1
    && set_.receipts[0].attemptID !in YoungAttempts(s.attemptIDs, now) - evicted
    && set_.receipts[0].outcome == ReceiptOutcome.Classified(RateCapacity)
  }

  // An uncertain call is settled as something recoverable only by a receipt
  // that outranks the doubt.
  lemma SettledRecoverably(call: Outcome, r: Receipt)
    requires call.class_.UncertainReached?
    ensures Recoverable(SettledClass(call, [r], [r])) <==> ReceiptClassOf(r.outcome).RateCapacity?
  {
    assert Aggregate(UncertainReached, [r][..0]) == UncertainReached;
    assert Aggregate(UncertainReached, [r]) == Stronger(UncertainReached, ReceiptClassOf([r][0].outcome));
  }

  lemma ReconciledEligibility(c: Config, s: State, p: Permit, outcome: Outcome, receipts: seq<Receipt>, novel: seq<Receipt>,
                              error: Option<PermitError>, now: Time, surveyed: Choice, draws: seq<Draw>)
    requires novel != [] && |draws| == |OutcomesToRecord(novel, CallOutcome(outcome))|
    ensures var (s', _, result) := FinishReconciled(c, s, p, outcome, receipts, novel, error, now, surveyed, draws);
            result.retryEligible <==>
              error.None? && Recoverable(SettledClass(CallOutcome(outcome), receipts, novel)) && MayRetry(c, s', p.request.task)
  {
    hide Reconciled, RecordAll, OutcomesToRecord, CallOutcome, SettledClass, LatestStart, Complete, Vacate, Recoverable, MayRetry;
    var call := CallOutcome(outcome);
    var s1 := Reconciled(c, s, p, novel, now, surveyed);
    var s2 := RecordAll(c, s1, p.request.task, now, OutcomesToRecord(novel, call), draws).0;
    ConcludingKeepsChances(c, s2, p.request.id, error.Some?, LatestStart(novel, p.startedAt, now), now, p.request.task);
    ConcludedEligibility(c, s2, p.request.task, SettledClass(call, receipts, novel), error);
  }

  lemma ConcludingKeepsChances(c: Config, s: State, id: Id, unsafe: bool, latest: Time, now: Time, task: Id)
    ensures MayRetry(c, Conclude(s, id, unsafe, latest, now), task) == MayRetry(c, s, task)
  {
  }

  lemma ConcludedEligibility(c: Config, s: State, task: Id, settled: OutcomeClass, error: Option<PermitError>)
    ensures forall backoff, debited, delivery ::
              ConcludedResult(c, s, task, settled, backoff, debited, delivery, error).retryEligible
              <==> error.None? && Recoverable(settled) && MayRetry(c, s, task)
  {
  }

  lemma AmbiguousEligibility(c: Config, s: State, p: Permit, reported: Outcome, set_: Option<ReceiptSet>, now: Time, draws: Draws)
    requires FinishError(p).None? && p.receiptAware && Ambiguous(reported.delivery)
    requires Settles(c, s, p, WithDeliveryEvidence(reported), set_, now, draws.evicted) ==>
      |draws.outcomes| == |OutcomesToRecord(NewReceipts(s, set_.value, now, draws.evicted), CallOutcome(WithDeliveryEvidence(reported)))|
    ensures var (s', _, result) := FinishReceipts(c, s, p, WithDeliveryEvidence(reported), set_, now, draws);
            result.retryEligible <==>
              && set_.Some? && Rejection(set_.value, Expected(c, p, now)).None?
              && OneRateLimited(s, set_.value, now, draws.evicted)
              && MayRetry(c, s', p.request.task)
  {
    hide Complaints, ReceiptFailure, FinishReconciled, OutcomesToRecord, SettledClass, MayRetry, YoungAttempts, Unseen, IdentifierValid;
    var outcome := WithDeliveryEvidence(reported);
    if set_.None? || Rejection(set_.value, Expected(c, p, now)).Some? {
      FailureIsNoRetry(c, s, p, ReceiptsInvalid, true, outcome.delivery, now, draws.surveyed);
    } else {
      var seen := YoungAttempts(s.attemptIDs, now) - draws.evicted;
      var pruned := s.(attemptIDs := seen);
      var receipts, novel := set_.value.receipts, NewReceipts(s, set_.value, now, draws.evicted);
      var policy := PolicyError(c, set_.value, p, now, |novel| < |receipts|);
      UnseenSize(receipts, seen);
      if novel == [] {
        FailureIsNoRetry(c, pruned, p, if policy.Some? then policy.value else ReceiptReplayed, false, outcome.delivery, now, draws.surveyed);
      } else {
        ReconciledEligibility(c, pruned, p, outcome, receipts, novel, policy, now, draws.surveyed, draws.outcomes);
        if |receipts| == 1 {
          assert receipts == [receipts[0]];
          OneUnseen(receipts[0], seen);
          SettledRecoverably(CallOutcome(outcome), receipts[0]);
        } else {
          SeveralAreRefused(c, set_.value, p, now);
        }
      }
    }
  }

  lemma OneUnseen(r: Receipt, seen: map<Id, Time>)
    ensures Unseen([r], seen) == if r.attemptID in seen then [] else [r]
  {
    assert [r][1..] == [];
  }

  lemma FailureIsNoRetry(c: Config, s: State, p: Permit, error: PermitError, debit: bool, delivery: Delivery, now: Time, choice: Choice)
    ensures !ReceiptFailure(c, s, p, error, debit, delivery, now, choice).2.retryEligible
  {
    hide Survey, Complete, Vacate, DebitUncertain;
  }

  lemma OneDebit(c: Config, s: State, p: Permit, r: Receipt, now: Time)
    ensures DebitReceipts(c, s, p, [r], now) == DebitReceipt(c, s, p, r, now)
  {
    hide Normalized, Spend;
    assert DebitReceipts(c, DebitReceipt(c, s, p, r, now), p, [r][1..], now) == DebitReceipt(c, s, p, r, now);
  }

  // What the one receipt and the doubtful call leave of the chances.
  lemma {:induction false} ReconcilingKeepsChances(c: Config, s: State, p: Permit, r: Receipt, call: Outcome, now: Time, surveyed: Choice, draws: seq<Draw>)
    requires s.inFlight && s.activeTask == p.request.task && r.outcome == ReceiptOutcome.Classified(RateCapacity) && r.sequence == 1
    requires call.class_.UncertainReached? && |draws| == 2
    requires Fits(s.(attemptIDs := Remember(s.attemptIDs, [r], now)), now, surveyed)
    requires Fits(Lane.Reconciled(c, s, p, [r], now, surveyed), now, draws[0].choice)
    ensures OutcomesToRecord([r], call) == [Outcome(RateCapacity, 0, ZERO, Unobserved), call]
    ensures var s' := RecordAll(c, Lane.Reconciled(c, s, p, [r], now, surveyed), p.request.task, now, OutcomesToRecord([r], call), draws).0;
            MayRetry(c, s', p.request.task) <==>
              && TaskOf(s, p.request.task).retries + (if p.request.retry then 1 else 0) < c.retryBudget
              && StaysClosed(c, s.circuit, Outcome(RateCapacity, 0, ZERO, Unobserved), now)
  {
    hide Survey, RecordOutcome, ChoiceFits, Recent, SameCounts, RecentRates, Remember, Spend, Normalized;
    var task, rated := p.request.task, Outcome(RateCapacity, 0, ZERO, Unobserved);
    var remembered := s.(attemptIDs := Remember(s.attemptIDs, [r], now));
    var s1 := Survey(c, remembered, task, now, surveyed);
    HolderIsKept(remembered, task, now, surveyed);
    SurveyKeepsCounts(c, remembered, task, now, surveyed, task);
    SameCountsMeans(remembered, s1, task);
    SurveyedCircuit(c, remembered, task, now, surveyed);
    var s2 := DebitReceipt(c, s1, p, r, now);
    OneDebit(c, s1, p, r, now);
    assert Lane.Reconciled(c, s, p, [r], now, surveyed) == s2;
    assert OutcomesToRecord([r], call) == [rated, call];
    var s3 := RecordOutcome(c, s2, task, now, rated, draws[0]).0;
    RecordingKeepsChances(c, s2, task, now, rated, draws[0]);
    assert [rated, call][..1] == [rated] && draws[..1] == [draws[0]];
    assert RecordAll(c, s2, task, now, [rated][..0], [draws[0]][..0]) == (s2, 0);
    assert RecordAll(c, s2, task, now, [rated], [draws[0]]).0 == s3;
    RecordingDoubt(c, s3, task, now, call, draws[1]);
  }

  lemma RecordingDoubt(c: Config, s: State, task: Id, now: Time, call: Outcome, draw: Draw)
    requires call.class_.UncertainReached?
    ensures MayRetry(c, RecordOutcome(c, s, task, now, call, draw).0, task) == MayRetry(c, s, task)
  {
  }

  /** Whether an ambiguous receipt-aware call may be retried can be told before
      it finishes: its accepted set is one new receipt saying the attempt was
      rate limited, the task has a retry left beyond this attempt's own, and
      the circuit is closed and one more rate response leaves it so. */
  lemma AmbiguousRetriesExactly(c: Config, s: State, p: Permit, reported: Outcome, set_: Option<ReceiptSet>, now: Time, draws: Draws)
    requires FinishError(p).None? && p.receiptAware && Ambiguous(reported.delivery) && s.inFlight && s.activeTask == p.request.task
    requires DrawsOf(c, s, p, WithDeliveryEvidence(reported), set_, now, draws)
    ensures FinishReceipts(c, s, p, WithDeliveryEvidence(reported), set_, now, draws).2.retryEligible
       <==> && set_.Some? && Rejection(set_.value, Expected(c, p, now)).None?
            && OneRateLimited(s, set_.value, now, draws.evicted)
            && TaskOf(s, p.request.task).retries + (if p.request.retry then 1 else 0) < c.retryBudget
            && StaysClosed(c, s.circuit, Outcome(RateCapacity, 0, ZERO, Unobserved), now)
  {
    hide Rejection, ReceiptFailure, FinishReconciled, OutcomesToRecord, SettledClass, MayRetry, YoungAttempts, Unseen, ChoiceFits, StaysClosed,
         DrawsFit, Lane.Reconciled, RecordAll, AttemptsFit;
    AmbiguousEligibility(c, s, p, reported, set_, now, draws);
    if set_.Some? && Rejection(set_.value, Expected(c, p, now)).None? && OneRateLimited(s, set_.value, now, draws.evicted) {
      OneReconciled(c, s, p, WithDeliveryEvidence(reported), set_.value, now, draws);
    }
  }

  lemma OneReconciled(c: Config, s: State, p: Permit, call: Outcome, set_: ReceiptSet, now: Time, draws: Draws)
    requires FinishError(p).None? && p.receiptAware && call.class_.UncertainReached? && s.inFlight && s.activeTask == p.request.task
    requires Rejection(set_, Expected(c, p, now)).None? && OneRateLimited(s, set_, now, draws.evicted)
    requires DrawsOf(c, s, p, call, Some(set_), now, draws)
    ensures var s' := FinishReceipts(c, s, p, call, Some(set_), now, draws).0;
            MayRetry(c, s', p.request.task) <==>
              && TaskOf(s, p.request.task).retries + (if p.request.retry then 1 else 0) < c.retryBudget
              && StaysClosed(c, s.circuit, Outcome(RateCapacity, 0, ZERO, Unobserved), now)
  {
    hide Rejection, OutcomesToRecord, SettledClass, MayRetry, YoungAttempts, Unseen, ChoiceFits, StaysClosed, Lane.Reconciled, RecordAll,
         AttemptsFit, Conclude, ConcludedResult, LatestStart, Remember, PolicyError;
    var r, task := set_.receipts[0], p.request.task;
    assert set_.receipts == [r];
    OneUnseen(r, YoungAttempts(s.attemptIDs, now) - draws.evicted);
    FirstIsInitial(c, set_, p, now);
    var pruned := s.(attemptIDs := YoungAttempts(s.attemptIDs, now) - draws.evicted);
    var plan := OutcomesToRecord([r], CallOutcome(call));
    TwoOutcomes(r, call);
    DrawsFitFirst(c, Lane.Reconciled(c, pruned, p, [r], now, draws.surveyed), task, now, plan, draws.outcomes);
    ReconcilingKeepsChances(c, pruned, p, r, call, now, draws.surveyed, draws.outcomes);
    var s2 := RecordAll(c, Lane.Reconciled(c, pruned, p, [r], now, draws.surveyed), task, now, plan, draws.outcomes).0;
    ConcludingKeepsChances(c, s2, p.request.id, PolicyError(c, set_, p, now, false).Some?, LatestStart([r], p.startedAt, now), now, task);
  }

  lemma TwoOutcomes(r: Receipt, call: Outcome)
    requires r.outcome == ReceiptOutcome.Classified(RateCapacity) && call.class_.UncertainReached?
    ensures CallOutcome(call) == call && OutcomesToRecord([r], call) == [Outcome(RateCapacity, 0, ZERO, Unobserved), call]
  {
  }

  lemma FirstIsInitial(c: Config, set_: ReceiptSet, p: Permit, now: Time)
    requires Rejection(set_, Expected(c, p, now)).None?
    ensures set_.receipts != [] && set_.receipts[0].sequence == 1
  {
    hide Complaints, IdentifierValid, WellFormedReceipt;
    AcceptsExactlyWellFormed(set_, Expected(c, p, now));
    FirstSequence(set_.receipts[0], set_.clientRequestID, Expected(c, p, now));
  }

  lemma FirstSequence(r: Receipt, clientRequestID: Id, expected: Expectation)
    requires WellFormedReceipt(r, 0, clientRequestID, expected)
    ensures r.sequence == 1
  {
  }

  lemma DrawsFitFirst(c: Config, s: State, task: Id, now: Time, outcomes: seq<Outcome>, draws: seq<Draw>)
    requires |outcomes| == |draws| == 2 && outcomes[0] == Outcome(RateCapacity, 0, ZERO, Unobserved) && DrawsFit(c, s, task, now, outcomes, draws)
    ensures Fits(s, now, draws[0].choice)
  {
    hide RecordOutcome, ChoiceFits;
    assert outcomes[..1] == [outcomes[0]] && draws[..1] == [draws[0]];
    assert outcomes[..1][..0] == [] && draws[..1][..0] == [];
    assert DrawsFit(c, s, task, now, outcomes[..1], draws[..1]);
    assert RecordAll(c, s, task, now, outcomes[..1][..0], draws[..1][..0]).0 == s;
  }
}
