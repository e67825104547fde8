/** What receipts are worth: every attempt a believed receipt reports is debited
    exactly once, and a receipt set that cannot be believed ends all grants.
 */
module ReceiptConservation {
  import opened Clock
  import opened Policy
  import opened Ledger
  import opened Retention
  import opened AttemptReceipts
  import opened Lane
  import opened Runs
  import opened SingleLane
  import opened LedgerOrder

  // ----- The ledger -----

  lemma AgingKeepsCounts(s: State, s': State, now: Time, cutoff: Time)
    requires Aged(s, s', now) && now - THREE_HOURS <= cutoff
    ensures CountAfter(s'.ledger, cutoff) == CountAfter(s.ledger, cutoff)
  {
    var dropped := |s.ledger| - |s'.ledger|;
    assert s.ledger == s.ledger[..dropped] + s'.ledger;
    CountAfterConcat(s.ledger[..dropped], s'.ledger, cutoff);
    CountAfterNone(s.ledger[..dropped], cutoff);
  }

  // ----- The task's counters -----

  // The task in flight keeps its counters whatever is pruned.
  ghost predicate KeepsTask(s: State, s': State, task: Id) {
    && SameLane(s, s') && s'.queue == s.queue
    && TaskOf(s', task).attempts == TaskOf(s, task).attempts
    && (s.telemetry.unsafe ==> s'.telemetry.unsafe)
  }

  lemma PruneKeepsTask(s: State, now: Time, choice: Choice, task: Id)
    requires s.inFlight && s.activeTask == task && Fits(s, now, choice)
    ensures KeepsTask(s, Prune(s, now, choice), task)
  {
    hide PruneRequests, YoungAttempts, AttemptsFit;
    assert task in Protected(s);
    assert task !in choice.tasks;
  }

  lemma ExpireKeepsTask(c: Config, s: State, now: Time, choice: Choice, task: Id)
    requires s.inFlight && s.activeTask == task && Fits(s, now, choice)
    ensures KeepsTask(s, Lane.Expire(c, s, now, choice), task)
  {
    hide Prune, ChoiceFits, RecentRates;
    PruneKeepsTask(s, now, choice, task);
  }

  lemma SurveyKeepsTask(c: Config, s: State, now: Time, choice: Choice, task: Id)
    requires s.inFlight && s.activeTask == task && Fits(s, now, choice)
    ensures KeepsTask(s, Survey(c, s, task, now, choice), task)
  {
    hide Lane.Expire, ChoiceFits;
    ExpireKeepsTask(c, s, now, choice, task);
  }

  lemma RecordOutcomeKeepsTask(c: Config, s: State, task: Id, now: Time, outcome: Outcome, draw: Draw)
    requires s.inFlight && s.activeTask == task
    requires AsRecorded(outcome).class_.RateCapacity? ==> Fits(s, now, draw.choice)
    ensures KeepsTask(s, RecordOutcome(c, s, task, now, outcome, draw).0, task)
  {
    hide Lane.Expire, ChoiceFits, RateResponse, SelectedBackoff, OtherResponse, AsRecorded;
    if AsRecorded(outcome).class_.RateCapacity? {
      ExpireKeepsTask(c, s, now, draw.choice, task);
    }
  }

  lemma {:induction false} RecordAllKeepsTask(c: Config, s: State, task: Id, now: Time, outcomes: seq<Outcome>, draws: seq<Draw>)
    requires |draws| == |outcomes| && s.inFlight && s.activeTask == task && DrawsFit(c, s, task, now, outcomes, draws)
    ensures KeepsTask(s, RecordAll(c, s, task, now, outcomes, draws).0, task)
  {
    hide RecordOutcome, ChoiceFits, AsRecorded;
    if outcomes != [] {
      var last := |outcomes| - 1;
      RecordAllKeepsTask(c, s, task, now, outcomes[..last], draws[..last]);
      RecordOutcomeKeepsTask(c, RecordAll(c, s, task, now, outcomes[..last], draws[..last]).0, task, now, outcomes[last], draws[last]);
    }
  }

  // ----- One finish -----

  // From `s` to `s'` the task gained one attempt per charge, and every window
  // the governor still answers for gained exactly the charges inside it.
  ghost predicate Billed(s: State, s': State, task: Id, charges: seq<Event>, now: Time) {
    && TaskOf(s', task).attempts == TaskOf(s, task).attempts + |charges|
    && (forall cutoff :: now - THREE_HOURS <= cutoff ==>
          CountAfter(s'.ledger, cutoff) == CountAfter(s.ledger, cutoff) + CountAfter(charges, cutoff))
  }

  lemma AgingCharges(s: State, s': State, task: Id, now: Time)
    requires Aged(s, s', now) && KeepsTask(s, s', task)
    ensures Billed(s, s', task, [], now)
  {
    forall cutoff | now - THREE_HOURS <= cutoff
      ensures CountAfter(s'.ledger, cutoff) == CountAfter(s.ledger, cutoff) + CountAfter([], cutoff)
    {
      AgingKeepsCounts(s, s', now, cutoff);
    }
  }

  lemma ChargesAdd(s: State, s1: State, s2: State, task: Id, first: seq<Event>, second: seq<Event>, now: Time)
    requires Billed(s, s1, task, first, now) && Billed(s1, s2, task, second, now)
    ensures Billed(s, s2, task, first + second, now)
  {
    forall cutoff | now - THREE_HOURS <= cutoff
      ensures CountAfter(s2.ledger, cutoff) == CountAfter(s.ledger, cutoff) + CountAfter(first + second, cutoff)
    {
      CountAfterConcat(first, second, cutoff);
    }
  }

  lemma AppendingCharges(s: State, s': State, task: Id, charges: seq<Event>, now: Time)
    requires s'.ledger == s.ledger + charges && TaskOf(s', task).attempts == TaskOf(s, task).attempts + |charges|
    ensures Billed(s, s', task, charges, now)
  {
    forall cutoff | now - THREE_HOURS <= cutoff
      ensures CountAfter(s'.ledger, cutoff) == CountAfter(s.ledger, cutoff) + CountAfter(charges, cutoff)
    {
      CountAfterConcat(s.ledger, charges, cutoff);
    }
  }

  // The lane, the request records and the last start are no charge.
  lemma NothingCharged(s: State, s': State, task: Id, now: Time)
    requires s'.ledger == s.ledger && TaskOf(s', task).attempts == TaskOf(s, task).attempts
    ensures Billed(s, s', task, [], now)
  {
  }

  lemma ReconcilingCharges(c: Config, s: State, p: Permit, novel: seq<Receipt>, now: Time, surveyed: Choice)
    requires s.inFlight && s.activeTask == p.request.task
    requires Fits(s.(attemptIDs := Remember(s.attemptIDs, novel, now)), now, surveyed)
    ensures var s' := Reconciled(c, s, p, novel, now, surveyed);
            Billed(s, s', p.request.task, Charged(p, novel, now), now) && s'.inFlight && s'.activeTask == p.request.task
  {
    hide Survey, Remember, DebitReceipts, Aged, Billed, ChoiceFits;
    var task := p.request.task;
    var remembered := s.(attemptIDs := Remember(s.attemptIDs, novel, now));
    var s1 := Survey(c, remembered, task, now, surveyed);
    var s2 := DebitReceipts(c, s1, p, novel, now);
    SurveyAges(c, remembered, task, now, surveyed);
    SurveyKeepsTask(c, remembered, now, surveyed, task);
    NothingCharged(s, remembered, task, now);
    AgingCharges(remembered, s1, task, now);
    DebitReceiptsAdd(c, s1, p, novel, now);
    AppendingCharges(s1, s2, task, Charged(p, novel, now), now);
    ChargesAdd(s, remembered, s1, task, [], [], now);
    ChargesAdd(s, s1, s2, task, [] + [], Charged(p, novel, now), now);
    assert [] + [] + Charged(p, novel, now) == Charged(p, novel, now);
  }

  lemma FinishReconciledCharges(c: Config, s: State, p: Permit, outcome: Outcome, receipts: seq<Receipt>, novel: seq<Receipt>,
                                error: Option<PermitError>, now: Time, surveyed: Choice, draws: seq<Draw>)
    requires s.inFlight && s.activeTask == p.request.task && novel != []
    requires |draws| == |OutcomesToRecord(novel, CallOutcome(outcome))|
    requires Fits(s.(attemptIDs := Remember(s.attemptIDs, novel, now)), now, surveyed)
    requires DrawsFit(c, Reconciled(c, s, p, novel, now, surveyed), p.request.task, now, OutcomesToRecord(novel, CallOutcome(outcome)), draws)
    ensures var (s', _, result) := FinishReconciled(c, s, p, outcome, receipts, novel, error, now, surveyed, draws);
            && Billed(s, s', p.request.task, Charged(p, novel, now), now)
            && result.debited == |novel|
            && result.error == error && (error.Some? ==> s'.telemetry.unsafe)
  {
    hide Reconciled, RecordAll, OutcomesToRecord, CallOutcome, LatestStart, SettledClass, DrawsFit, Billed, Aged, Remember, ChoiceFits;
    var task := p.request.task;
    var plan := OutcomesToRecord(novel, CallOutcome(outcome));
    var s1 := Reconciled(c, s, p, novel, now, surveyed);
    var s2 := RecordAll(c, s1, task, now, plan, draws).0;
    var s3 := Conclude(s2, p.request.id, error.Some?, LatestStart(novel, p.startedAt, now), now);
    var charges := Charged(p, novel, now);
    ReconcilingCharges(c, s, p, novel, now, surveyed);
    RecordAllAges(c, s1, task, now, plan, draws);
    RecordAllKeepsTask(c, s1, task, now, plan, draws);
    AgingCharges(s1, s2, task, now);
    NothingCharged(s2, s3, task, now);
    ChargesAdd(s, s1, s2, task, charges, [], now);
    ChargesAdd(s, s2, s3, task, charges + [], [], now);
    assert charges + [] + [] == charges;
  }

  lemma DebitUncertainCharges(c: Config, s: State, p: Permit, now: Time)
    ensures var s' := DebitUncertain(c, s, p.request, p.startedAt, now);
            Billed(s, s', p.request.task, Charges(s, p, None, false, now, {}), now) && (s.telemetry.unsafe ==> s'.telemetry.unsafe)
  {
    hide Billed;
    AppendingCharges(s, DebitUncertain(c, s, p.request, p.startedAt, now), p.request.task, Charges(s, p, None, false, now, {}), now);
  }

  lemma CompletingCharges(s: State, task: Id, id: Id, now: Time)
    ensures var s' := Vacate(Complete(s, id, now)); Billed(s, s', task, [], now) && s'.telemetry == s.telemetry
  {
    hide Billed;
    NothingCharged(s, Vacate(Complete(s, id, now)), task, now);
  }

  lemma ReceiptFailureCharges(c: Config, s: State, p: Permit, error: PermitError, debit: bool, delivery: Delivery, now: Time, surveyed: Choice)
    requires s.inFlight && s.activeTask == p.request.task && Fits(Distrusted(s), now, surveyed)
    ensures var (s', _, result) := ReceiptFailure(c, s, p, error, debit, delivery, now, surveyed);
            && Billed(s, s', p.request.task, if debit then Charges(s, p, None, false, now, {}) else [], now)
            && result.debited == (if debit then 1 else 0)
            && result.error == Some(error) && s'.telemetry.unsafe
  {
    hide Survey, Billed, Aged, ChoiceFits, DebitUncertain, Complete, Vacate, Charges;
    var task := p.request.task;
    var charges := Charges(s, p, None, false, now, {});
    var s1 := Distrusted(s);
    var s2 := Survey(c, s1, task, now, surveyed);
    NothingCharged(s, s1, task, now);
    SurveyAges(c, s1, task, now, surveyed);
    SurveyKeepsTask(c, s1, now, surveyed, task);
    AgingCharges(s1, s2, task, now);
    ChargesAdd(s, s1, s2, task, [], [], now);
    assert [] + charges == charges && charges + [] == charges;
    if debit {
      var s3 := DebitUncertain(c, s2, p.request, p.startedAt, now);
      DebitUncertainCharges(c, s2, p, now);
      SameCharges(s, s2, p, now);
      ChargesAdd(s, s2, s3, task, [], charges, now);
      CompletingCharges(s3, task, p.request.id, now);
      ChargesAdd(s, s3, Vacate(Complete(s3, p.request.id, now)), task, charges, [], now);
    } else {
      CompletingCharges(s2, task, p.request.id, now);
      ChargesAdd(s, s2, Vacate(Complete(s2, p.request.id, now)), task, [], [], now);
    }
  }

  lemma SameCharges(s: State, s': State, p: Permit, now: Time)
    ensures Charges(s, p, None, false, now, {}) == Charges(s', p, None, false, now, {})
  {
  }

  /** One receipt finish: what it reports as debited is what the ledger gained
      in every window, and what the task's attempt counter gained. It is one
      when the set is refused outright, otherwise one per receipt not seen
      before, so nothing is debited exactly when every receipt was a replay;
      and any complaint leaves the lane unsafe. */
  lemma DebitsAreConserved(c: Config, s: State, p: Permit, outcome: Outcome, set_: Option<ReceiptSet>, now: Time, draws: Draws)
    requires FinishError(p).None? && p.receiptAware && s.inFlight && s.activeTask == p.request.task
    requires DrawsOf(c, s, p, outcome, set_, now, draws)
    ensures var valid := set_.Some? && Rejection(set_.value, Expected(c, p, now)).None?;
            var charges := Charges(s, p, set_, valid, now, draws.evicted);
            var (s', _, result) := FinishReceipts(c, s, p, outcome, set_, now, draws);
            && Billed(s, s', p.request.task, charges, now)
            && result.debited == |charges|
            && (result.debited == 0 <==> valid && forall r :: r in set_.value.receipts ==> r.attemptID in YoungAttempts(s.attemptIDs, now) - draws.evicted)
            && (result.error.Some? ==> s'.telemetry.unsafe)
            && (!valid || |set_.value.receipts| > 1 || result.debited < |set_.value.receipts| ==> result.error.Some?)
  {
    hide Rejection, Billed, ReceiptFailure, FinishReconciled, OutcomesToRecord, CallOutcome, Unseen, YoungAttempts, AttemptsFit, ChoiceFits,
         DrawsFit, Reconciled, Remember;
    if set_.None? || Rejection(set_.value, Expected(c, p, now)).Some? {
      ReceiptFailureCharges(c, s, p, ReceiptsInvalid, true, outcome.delivery, now, draws.surveyed);
    } else {
      var seen := YoungAttempts(s.attemptIDs, now) - draws.evicted;
      var pruned := s.(attemptIDs := seen);
      var novel := NewReceipts(s, set_.value, now, draws.evicted);
      var policy := PolicyError(c, set_.value, p, now, |novel| < |set_.value.receipts|);
      UnseenSize(set_.value.receipts, seen);
      if |set_.value.receipts| > 1 {
        SeveralAreRefused(c, set_.value, p, now);
      }
      BilledAlike(s, pruned, p.request.task, now);
      if novel == [] {
        ReceiptFailureCharges(c, pruned, p, if policy.Some? then policy.value else ReceiptReplayed, false, outcome.delivery, now, draws.surveyed);
      } else {
        FinishReconciledCharges(c, pruned, p, outcome, set_.value.receipts, novel, policy, now, draws.surveyed, draws.outcomes);
      }
      var charges := Charged(p, novel, now);
      ChargesAdd(s, pruned, FinishReceipts(c, s, p, outcome, set_, now, draws).0, p.request.task, [], charges, now);
      assert [] + charges == charges;
    }
  }

  /** A call given up before it was sent is free beyond what its start debited:
      it reports no debit, no window and no counter gains one, and nothing is to
      be retried. */
  lemma AbortIsFree(s: State, p: Permit, now: Time)
    requires FinishError(p).None?
    ensures var (s', _, result) := CancelAfterStart(s, p, now);
            && Billed(s, s', p.request.task, [], now) && result.debited == 0 && s'.tasks == s.tasks
            && result.error.None? && !result.retryEligible && result.outcome == CancelledBeforeUpstream && result.backoff == 0
  {
    hide Billed, Complete;
    CompletingCharges(s, p.request.task, p.request.id, now);
    CompletingKeepsTasks(s, p.request.id, now);
  }

  lemma CompletingKeepsTasks(s: State, id: Id, now: Time)
    ensures Complete(s, id, now).tasks == s.tasks
  {
  }

  lemma BilledAlike(s: State, s': State, task: Id, now: Time)
    requires s'.ledger == s.ledger && s'.tasks == s.tasks
    ensures Billed(s, s', task, [], now)
  {
  }

  lemma {:induction false} UnseenSize(receipts: seq<Receipt>, seen: map<Id, Time>)
    ensures |Unseen(receipts, seen)| <= |receipts|
    ensures Unseen(receipts, seen) == [] <==> forall r :: r in receipts ==> r.attemptID in seen
  {
    if receipts != [] {
      UnseenSize(receipts[1..], seen);
      assert receipts == [receipts[0]] + receipts[1..];
    }
  }

  // A policy of one attempt refuses every longer set.
  lemma SeveralAreRefused(c: Config, set_: ReceiptSet, p: Permit, now: Time)
    requires |set_.receipts| > 1
    ensures Rejection(set_, Expected(c, p, now).(singleAttempt := true)).Some?
  {
  }
}
