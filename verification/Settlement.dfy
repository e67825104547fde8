/** How a receipt-aware call is settled when it finishes: which of the things
    the call and its receipts say wins, what its attempts cost the task in
    retries and in sequence numbers, and whether the call may be retried.
 */
module Settlement {
  import opened Clock
  import opened Policy
  import opened Ledger
  import opened Retention
  import opened AttemptReceipts
  import opened Lane
  import opened Runs
  import opened SingleLane
  import opened LedgerOrder
  import opened BudgetRuns
  import opened ReceiptConservation
  import opened DeliverySafety
  import Halts

  // ----- Who outranks whom -----

  const FAILURES: set<OutcomeClass> := {ConnectionReset, Timeout, EmptyResponse, MalformedUpstream, UpstreamServerFailure}

  // Every class there is, the weakest first.
  const TIERS: seq<set<OutcomeClass>> :=
    [{Success}, {Unclassified, CancelledBeforeUpstream}, {EmptyResponse, MalformedUpstream, UpstreamServerFailure},
     {ConnectionReset, Timeout}, {UncertainReached}, {RateCapacity}, {AuthenticationExpired}, Halts.SIGNALS]

  predicate InTier(class_: OutcomeClass, k: nat) {
    k < |TIERS| && class_ in TIERS[k]
  }

  ghost predicate Outranks(a: OutcomeClass, b: OutcomeClass) {
    exists i: nat, j: nat :: j < i && InTier(a, i) && InTier(b, j)
  }

  // The tier of a priority.
  function TierOf(priority: int): nat {
    if priority == 0 then 0 else if priority == 50 then 1 else if priority == 60 then 2 else if priority == 70 then 3
    else if priority == 80 then 4 else if priority == 90 then 5 else if priority == 95 then 6 else 7
  }

  lemma TierIs(class_: OutcomeClass, k: nat)
    ensures InTier(class_, k) <==> k == TierOf(Priority(class_))
  {
  }

  lemma TiersAscend(a: OutcomeClass, b: OutcomeClass)
    ensures TierOf(Priority(a)) > TierOf(Priority(b)) <==> Priority(a) > Priority(b)
  {
  }

  lemma RankIsPriority(a: OutcomeClass, b: OutcomeClass)
    ensures Outranks(a, b) <==> Priority(a) > Priority(b)
  {
    hide InTier, Priority, TierOf;
    forall k: nat
      ensures (InTier(a, k) <==> k == TierOf(Priority(a))) && (InTier(b, k) <==> k == TierOf(Priority(b)))
    {
      TierIs(a, k);
      TierIs(b, k);
    }
    TiersAscend(a, b);
    if Priority(a) > Priority(b) {
      assert InTier(a, TierOf(Priority(a))) && InTier(b, TierOf(Priority(b)));
    }
  }

  // ----- What was said -----

  function Saying(r: Receipt): (class_: OutcomeClass)
    ensures r.outcome.Classified? ==> class_ == r.outcome.class_
    ensures r.outcome.Ok? ==> class_ == Success
    ensures !r.outcome.Classified? && !r.outcome.Ok? ==> class_ == UncertainReached
  {
    ReceiptClassOf(r.outcome)
  }

  // The receipt leaves open whether the attempt had its effect.
  predicate Doubtful(r: Receipt) {
    match r.outcome
    case Error => true
    case HttpError => true
    case TransportError => true
    case Cancelled => true
    case Uncertain => true
    case Classified(class_) => class_ in {ConnectionReset, Timeout}
    case _ => false
  }

  // What the call itself says: a call cancelled before the upstream is doubtful
  // unless its delivery says it was not sent, and one without a class says
  // nothing against it.
  function OwnSaying(call: Outcome): OutcomeClass {
    if call.class_ == CancelledBeforeUpstream && call.delivery != NotSent then UncertainReached
    else if call.class_ == Unclassified then Success
    else call.class_
  }

  // Everything said: by the call, by each new receipt, by a doubt in any
  // receipt, and by a refusal of the set.
  function Sayings(call: Outcome, receipts: seq<Receipt>, novel: seq<Receipt>, refused: bool): seq<OutcomeClass> {
    [OwnSaying(call)] + seq(|novel|, i requires 0 <= i < |novel| => Saying(novel[i]))
    + (if exists r :: r in receipts && Doubtful(r) then [UncertainReached] else [])
    + (if refused then [UncertainReached] else [])
  }

  // The first of the strongest sayings.
  ghost predicate Prevails(sayings: seq<OutcomeClass>, k: nat) {
    && k < |sayings|
    && (forall i :: 0 <= i < k ==> Outranks(sayings[k], sayings[i]))
    && (forall i :: 0 <= i < |sayings| ==> !Outranks(sayings[i], sayings[k]))
  }

  ghost predicate Settled(sayings: seq<OutcomeClass>, class_: OutcomeClass) {
    exists k: nat :: Prevails(sayings, k) && sayings[k] == class_
  }

  lemma OneSaying(class_: OutcomeClass)
    ensures Settled([class_], class_)
  {
    RankIsPriority(class_, class_);
    assert Prevails([class_], 0);
  }

  lemma AnotherSaying(sayings: seq<OutcomeClass>, class_: OutcomeClass, next: OutcomeClass)
    requires Settled(sayings, class_)
    ensures Settled(sayings + [next], Stronger(class_, next))
  {
    hide Outranks, Priority;
    var k: nat :| Prevails(sayings, k) && sayings[k] == class_;
    var all := sayings + [next];
    forall a, b
      ensures Outranks(a, b) <==> Priority(a) > Priority(b)
    {
      RankIsPriority(a, b);
    }
    assert Prevails(all, if Priority(next) > Priority(class_) then |sayings| else k);
  }

  lemma {:induction false} AggregateIsSettled(first: OutcomeClass, novel: seq<Receipt>)
    ensures Settled([first] + seq(|novel|, i requires 0 <= i < |novel| => Saying(novel[i])), Aggregate(first, novel))
  {
    hide Settled, Saying;
    var says := seq(|novel|, i requires 0 <= i < |novel| => Saying(novel[i]));
    if novel == [] {
      OneSaying(first);
      assert [first] + says == [first];
    } else {
      var last := |novel| - 1;
      var before := seq(last, i requires 0 <= i < last => Saying(novel[..last][i]));
      AggregateIsSettled(first, novel[..last]);
      AnotherSaying([first] + before, Aggregate(first, novel[..last]), Saying(novel[last]));
      assert [first] + says == [first] + before + [Saying(novel[last])];
      assert Saying(novel[last]) == ReceiptClassOf(novel[last].outcome) by {
        SayingIs(novel[last]);
      }
    }
  }

  lemma SayingIs(r: Receipt)
    ensures Saying(r) == ReceiptClassOf(r.outcome)
  {
  }

  lemma DoubtIs(receipts: seq<Receipt>)
    ensures ContainsUncertain(receipts) <==> exists r :: r in receipts && Doubtful(r)
  {
    forall r
      ensures Doubtful(r) <==> r.outcome in {Error, HttpError, TransportError, Cancelled, Uncertain}
                               || r.outcome in {ReceiptOutcome.Classified(ConnectionReset), ReceiptOutcome.Classified(Timeout)}
    {
    }
  }

  lemma OwnSayingIs(outcome: Outcome)
    ensures var call := CallOutcome(outcome); OwnSaying(outcome) == if call.class_.Unclassified? then Success else call.class_
  {
  }

  lemma SettledClassIs(outcome: Outcome, receipts: seq<Receipt>, novel: seq<Receipt>, refused: bool)
    ensures var settled := SettledClass(CallOutcome(outcome), receipts, novel);
            Settled(Sayings(outcome, receipts, novel, refused), if refused then Stronger(settled, UncertainReached) else settled)
  {
    hide Settled, Saying, ContainsUncertain, Doubtful, Aggregate, CallOutcome, OwnSaying;
    var call := CallOutcome(outcome);
    var first := OwnSaying(outcome);
    OwnSayingIs(outcome);
    DoubtIs(receipts);
    var aggregate := Aggregate(first, novel);
    var heard := [first] + seq(|novel|, i requires 0 <= i < |novel| => Saying(novel[i]));
    AggregateIsSettled(first, novel);
    var doubt := ContainsUncertain(receipts);
    var settled := if doubt then Stronger(aggregate, UncertainReached) else aggregate;
    assert Stronger(Success, settled) == settled;
    var all := if doubt then heard + [UncertainReached] else heard;
    AnotherSaying(heard, aggregate, UncertainReached);
    assert Settled(all, settled);
    AnotherSaying(all, settled, UncertainReached);
    assert Sayings(outcome, receipts, novel, refused) == if refused then all + [UncertainReached] else all;
  }

  /** The outcome a receipt-aware finish reports is the first of the strongest
      things said of the call: by the call's own class, by each receipt not seen
      before, by any receipt that leaves its effect in doubt, and by a complaint
      about the set. */
  lemma TheStrongestPrevails(c: Config, s: State, p: Permit, outcome: Outcome, set_: ReceiptSet, now: Time, draws: Draws)
    requires Settles(c, s, p, outcome, Some(set_), now, draws.evicted)
    requires |draws.outcomes| == |OutcomesToRecord(NewReceipts(s, set_, now, draws.evicted), CallOutcome(outcome))|
    ensures var result := FinishReceipts(c, s, p, outcome, Some(set_), now, draws).2;
            Settled(Sayings(outcome, set_.receipts, NewReceipts(s, set_, now, draws.evicted), result.error.Some?), result.outcome)
  {
    hide Rejection, OutcomesToRecord, Lane.Reconciled, RecordAll, Conclude, LatestStart, YoungAttempts, Unseen, PolicyError, SettledClass, Stronger,
         CallOutcome, Settled, Sayings, TaskOf;
    var novel := NewReceipts(s, set_, now, draws.evicted);
    var result := FinishReceipts(c, s, p, outcome, Some(set_), now, draws).2;
    SettledClassIs(outcome, set_.receipts, novel, result.error.Some?);
  }

  // ----- What the attempts cost -----

  // The receipts of attempts that were not the first of their set.
  function Later(receipts: seq<Receipt>): nat {
    if receipts == [] then 0 else (if receipts[0].sequence > 1 then 1 else 0) + Later(receipts[1..])
  }

  function Repeated(p: Permit, receipts: seq<Receipt>): nat {
    if p.request.retry then |receipts| else Later(receipts)
  }

  // From `s` to `s'` the task in flight used `retries` retries and the governor
  // `numbers` sequence numbers.
  predicate Used(s: State, s': State, task: Id, retries: int, numbers: int) {
    && SameLane(s, s')
    && TaskOf(s', task).retries == TaskOf(s, task).retries + retries
    && s'.nextAttempt == s.nextAttempt + numbers
  }

  lemma SurveyUses(c: Config, s: State, task: Id, now: Time, choice: Choice)
    requires s.inFlight && s.activeTask == task && Fits(s, now, choice)
    ensures Used(s, Survey(c, s, task, now, choice), task, 0, 0)
  {
    hide ChoiceFits, Recent, RecentRates, ExpireTelemetry, PruneRequests, YoungAttempts;
    HolderIsKept(s, task, now, choice);
    SurveyKeepsCounts(c, s, task, now, choice, task);
  }

  lemma RecordingUses(c: Config, s: State, task: Id, now: Time, outcome: Outcome, draw: Draw)
    requires s.inFlight && s.activeTask == task && (AsRecorded(outcome).class_.RateCapacity? ==> Fits(s, now, draw.choice))
    ensures Used(s, RecordOutcome(c, s, task, now, outcome, draw).0, task, 0, 0)
  {
    hide ChoiceFits, Recent, RecentRates, ExpireTelemetry, PruneRequests, YoungAttempts, RateResponse, SelectedBackoff, OtherResponse, AsRecorded;
    if AsRecorded(outcome).class_.RateCapacity? {
      HolderIsKept(s, task, now, draw.choice);
      ExpireKeepsCounts(c, s, now, draw.choice, task);
    }
  }

  lemma {:induction false} RecordingAllUses(c: Config, s: State, task: Id, now: Time, outcomes: seq<Outcome>, draws: seq<Draw>)
    requires |draws| == |outcomes| && s.inFlight && s.activeTask == task && DrawsFit(c, s, task, now, outcomes, draws)
    ensures Used(s, RecordAll(c, s, task, now, outcomes, draws).0, task, 0, 0)
  {
    hide RecordOutcome, ChoiceFits, AsRecorded;
    if outcomes != [] {
      var last := |outcomes| - 1;
      var s1 := RecordAll(c, s, task, now, outcomes[..last], draws[..last]).0;
      RecordingAllUses(c, s, task, now, outcomes[..last], draws[..last]);
      RecordingUses(c, s1, task, now, outcomes[last], draws[last]);
    }
  }

  lemma {:induction false} DebitingUses(c: Config, s: State, p: Permit, receipts: seq<Receipt>, now: Time)
    ensures Used(s, DebitReceipts(c, s, p, receipts, now), p.request.task, Repeated(p, receipts), Later(receipts))
    decreases receipts
  {
    hide Normalized, Spend;
    if receipts != [] {
      DebitingUses(c, DebitReceipt(c, s, p, receipts[0], now), p, receipts[1..], now);
    }
  }

  lemma ReconcilingUses(c: Config, s: State, p: Permit, outcome: Outcome, receipts: seq<Receipt>, novel: seq<Receipt>,
                        error: Option<PermitError>, now: Time, surveyed: Choice, draws: seq<Draw>)
    requires s.inFlight && s.activeTask == p.request.task && novel != []
    requires |draws| == |OutcomesToRecord(novel, CallOutcome(outcome))|
    requires Fits(s.(attemptIDs := Remember(s.attemptIDs, novel, now)), now, surveyed)
    requires DrawsFit(c, Lane.Reconciled(c, s, p, novel, now, surveyed), p.request.task, now, OutcomesToRecord(novel, CallOutcome(outcome)), draws)
    ensures var s' := FinishReconciled(c, s, p, outcome, receipts, novel, error, now, surveyed, draws).0;
            && TaskOf(s', p.request.task).retries == TaskOf(s, p.request.task).retries + Repeated(p, novel)
            && s'.nextAttempt == s.nextAttempt + Later(novel)
  {
    hide Survey, RecordAll, DebitReceipts, OutcomesToRecord, CallOutcome, LatestStart, SettledClass, DrawsFit, Remember, ChoiceFits, Repeated, Later;
    var task, plan := p.request.task, OutcomesToRecord(novel, CallOutcome(outcome));
    var remembered := s.(attemptIDs := Remember(s.attemptIDs, novel, now));
    var s1 := Survey(c, remembered, task, now, surveyed);
    SurveyUses(c, remembered, task, now, surveyed);
    DebitingUses(c, s1, p, novel, now);
    RecordingAllUses(c, DebitReceipts(c, s1, p, novel, now), task, now, plan, draws);
  }

  lemma FailingUses(c: Config, s: State, p: Permit, error: PermitError, debit: bool, delivery: Delivery, now: Time, choice: Choice)
    requires s.inFlight && s.activeTask == p.request.task && Fits(Distrusted(s), now, choice)
    ensures var s' := ReceiptFailure(c, s, p, error, debit, delivery, now, choice).0;
            && TaskOf(s', p.request.task).retries == TaskOf(s, p.request.task).retries + (if debit && p.request.retry then 1 else 0)
            && s'.nextAttempt == s.nextAttempt
  {
    hide Survey, ChoiceFits, Spend;
    SurveyUses(c, Distrusted(s), p.request.task, now, choice);
  }

  // The first of a set is the one receipt of it that is no retry.
  predicate FirstIsNew(receipts: seq<Receipt>, seen: map<Id, Time>) {
    receipts != [] && receipts[0].attemptID !in seen
  }

  lemma LaterOf(r: Receipt, rest: seq<Receipt>)
    ensures Later([r] + rest) == (if r.sequence > 1 then 1 else 0) + Later(rest)
  {
    assert ([r] + rest)[1..] == rest;
  }

  lemma {:induction false} LaterAreAll(receipts: seq<Receipt>, seen: map<Id, Time>)
    requires forall i :: 0 <= i < |receipts| ==> receipts[i].sequence > 1
    ensures Later(Unseen(receipts, seen)) == |Unseen(receipts, seen)|
  {
    if receipts != [] {
      LaterAreAll(receipts[1..], seen);
      LaterOf(receipts[0], Unseen(receipts[1..], seen));
      assert [] + Unseen(receipts[1..], seen) == Unseen(receipts[1..], seen);
    }
  }

  lemma LaterButTheFirst(c: Config, set_: ReceiptSet, p: Permit, now: Time, seen: map<Id, Time>)
    requires Rejection(set_, Expected(c, p, now)).None?
    ensures var novel := Unseen(set_.receipts, seen); Later(novel) == |novel| - (if FirstIsNew(set_.receipts, seen) then 1 else 0)
  {
    hide Rejection, WellFormedReceipt;
    var receipts, expected := set_.receipts, Expected(c, p, now);
    AcceptsExactlyWellFormed(set_, expected);
    forall i | 0 <= i < |receipts|
      ensures receipts[i].sequence == i + 1
    {
      SequenceOf(receipts[i], i, set_.clientRequestID, expected);
    }
    LaterAreAll(receipts[1..], seen);
    LaterOf(receipts[0], Unseen(receipts[1..], seen));
    assert [] + Unseen(receipts[1..], seen) == Unseen(receipts[1..], seen);
  }

  lemma SequenceOf(r: Receipt, index: nat, clientRequestID: Id, expected: Expectation)
    requires WellFormedReceipt(r, index, clientRequestID, expected)
    ensures r.sequence == index + 1
  {
    hide IdentifierValid, KnownOutcome, TimestampsValid;
  }

  /** What one receipt finish costs beside its debits: each debited attempt but
      the first of the set takes a sequence number, and one of the task's
      retries; the first took its number when the permit started, and takes a
      retry if the call itself was one. */
  lemma RetriesAreConserved(c: Config, s: State, p: Permit, outcome: Outcome, set_: Option<ReceiptSet>, now: Time, draws: Draws)
    requires FinishError(p).None? && p.receiptAware && s.inFlight && s.activeTask == p.request.task
    requires DrawsOf(c, s, p, outcome, set_, now, draws)
    ensures var valid := set_.Some? && Rejection(set_.value, Expected(c, p, now)).None?;
            var first := !valid || FirstIsNew(set_.value.receipts, YoungAttempts(s.attemptIDs, now) - draws.evicted);
            var (s', _, result) := FinishReceipts(c, s, p, outcome, set_, now, draws);
            var later := result.debited - (if first then 1 else 0);
            && s'.nextAttempt == s.nextAttempt + later
            && TaskOf(s', p.request.task).retries == TaskOf(s, p.request.task).retries + (if p.request.retry then result.debited else later)
  {
    hide Rejection, ReceiptFailure, FinishReconciled, OutcomesToRecord, CallOutcome, Unseen, YoungAttempts, AttemptsFit, ChoiceFits,
         DrawsFit, Lane.Reconciled, Remember, FirstIsNew, PolicyError;
    if set_.None? || Rejection(set_.value, Expected(c, p, now)).Some? {
      FailingUses(c, s, p, ReceiptsInvalid, true, outcome.delivery, now, draws.surveyed);
      FailureDebits(c, s, p, ReceiptsInvalid, true, outcome.delivery, now, draws.surveyed);
    } else {
      var seen := YoungAttempts(s.attemptIDs, now) - draws.evicted;
      var pruned := s.(attemptIDs := seen);
      var novel := NewReceipts(s, set_.value, now, draws.evicted);
      var policy := PolicyError(c, set_.value, p, now, |novel| < |set_.value.receipts|);
      LaterButTheFirst(c, set_.value, p, now, seen);
      if novel == [] {
        var error := if policy.Some? then policy.value else ReceiptReplayed;
        FailingUses(c, pruned, p, error, false, outcome.delivery, now, draws.surveyed);
        FailureDebits(c, pruned, p, error, false, outcome.delivery, now, draws.surveyed);
      } else {
        ReconcilingUses(c, pruned, p, outcome, set_.value.receipts, novel, policy, now, draws.surveyed, draws.outcomes);
        ReconciledDebits(c, pruned, p, outcome, set_.value.receipts, novel, policy, now, draws.surveyed, draws.outcomes);
      }
    }
  }

  lemma FailureDebits(c: Config, s: State, p: Permit, error: PermitError, debit: bool, delivery: Delivery, now: Time, choice: Choice)
    ensures ReceiptFailure(c, s, p, error, debit, delivery, now, choice).2.debited == if debit then 1 else 0
  {
    hide Survey, DebitUncertain, Complete, Vacate;
  }

  lemma ReconciledDebits(c: Config, s: State, p: Permit, outcome: Outcome, receipts: seq<Receipt>, novel: seq<Receipt>,
                         error: Option<PermitError>, now: Time, surveyed: Choice, draws: seq<Draw>)
    requires novel != [] && |draws| == |OutcomesToRecord(novel, CallOutcome(outcome))|
    ensures FinishReconciled(c, s, p, outcome, receipts, novel, error, now, surveyed, draws).2.debited == |novel|
  {
    hide Lane.Reconciled, RecordAll, OutcomesToRecord, CallOutcome, LatestStart, SettledClass, Conclude;
  }

  // ----- Whether the call may be retried -----

  // Two things said, with or without a doubt, together are a failure that can
  // be tried again: the provider was out of capacity, or nobody doubts that the
  // attempt ended without an effect.
  predicate Retryable(a: OutcomeClass, b: OutcomeClass, doubt: bool) {
    && {a, b} !! Halts.SIGNALS && AuthenticationExpired !in {a, b}
    && (RateCapacity in {a, b} || (UncertainReached !in {a, b} && !doubt && !({a, b} !! FAILURES)))
  }

  predicate CanBeTriedAgain(outcome: Outcome, r: Receipt) {
    Retryable(OwnSaying(outcome), Saying(r), Doubtful(r))
  }

  lemma SettledTogether(outcome: Outcome, r: Receipt)
    ensures Recoverable(SettledClass(CallOutcome(outcome), [r], [r])) <==> CanBeTriedAgain(outcome, r)
  {
    hide CallOutcome, OwnSaying, Retryable, Recoverable;
    var call, first := CallOutcome(outcome), OwnSaying(outcome);
    OwnSayingIs(outcome);
    DoubtIs([r]);
    SayingIs(r);
    assert (exists x :: x in [r] && Doubtful(x)) <==> Doubtful(r) by {
      assert r in [r];
    }
    assert Aggregate(first, [r][..0]) == first;
    assert Aggregate(first, [r]) == Stronger(first, ReceiptClassOf([r][0].outcome));
    TogetherIs(first, Saying(r));
    DoubtfulTogether(first, Saying(r));
  }

  lemma TogetherIs(a: OutcomeClass, b: OutcomeClass)
    ensures Recoverable(Stronger(a, b)) <==> Retryable(a, b, false)
  {
  }

  lemma DoubtfulTogether(a: OutcomeClass, b: OutcomeClass)
    ensures Recoverable(Stronger(Stronger(a, b), UncertainReached)) <==> Retryable(a, b, true)
  {
  }

  /** Whether a receipt-aware call may be retried: its set was accepted and holds
      one receipt, not seen before; what the call and that receipt say is
      together a failure that can be tried again; the task has a retry left
      beyond this attempt's own; and the circuit ends closed. Whatever is known
      of the delivery. */
  lemma ReceiptRetriesExactly(c: Config, s: State, p: Permit, outcome: Outcome, set_: Option<ReceiptSet>, now: Time, draws: Draws)
    requires FinishError(p).None? && p.receiptAware && s.inFlight && s.activeTask == p.request.task
    requires DrawsOf(c, s, p, outcome, set_, now, draws)
    ensures var (s', _, result) := FinishReceipts(c, s, p, outcome, set_, now, draws);
            result.retryEligible <==>
              && set_.Some? && Rejection(set_.value, Expected(c, p, now)).None?
              && |set_.value.receipts| == 1 && FirstIsNew(set_.value.receipts, YoungAttempts(s.attemptIDs, now) - draws.evicted)
              && CanBeTriedAgain(outcome, set_.value.receipts[0])
              && TaskOf(s, p.request.task).retries + (if p.request.retry then 1 else 0) < c.retryBudget
              && s'.circuit.state.Closed?
  {
    hide Rejection, ReceiptFailure, FinishReconciled, OutcomesToRecord, CallOutcome, Unseen, YoungAttempts, AttemptsFit, ChoiceFits,
         DrawsFit, Lane.Reconciled, Remember, SettledClass, CanBeTriedAgain, TaskOf, PolicyError;
    RetriesAreConserved(c, s, p, outcome, set_, now, draws);
    if set_.None? || Rejection(set_.value, Expected(c, p, now)).Some? {
      FailureIsNoRetry(c, s, p, ReceiptsInvalid, true, outcome.delivery, now, draws.surveyed);
    } else {
      var seen := YoungAttempts(s.attemptIDs, now) - draws.evicted;
      var pruned := s.(attemptIDs := seen);
      var receipts, novel := set_.value.receipts, NewReceipts(s, set_.value, now, draws.evicted);
      var policy := PolicyError(c, set_.value, p, now, |novel| < |receipts|);
      UnseenSize(receipts, seen);
      OnlyOneIsAccepted(c, set_.value, p, now, |novel| < |receipts|);
      if novel == [] {
        FailureIsNoRetry(c, pruned, p, if policy.Some? then policy.value else ReceiptReplayed, false, outcome.delivery, now, draws.surveyed);
      } else {
        ReconciledEligibility(c, pruned, p, outcome, receipts, novel, policy, now, draws.surveyed, draws.outcomes);
        if |receipts| == 1 {
          assert receipts == [receipts[0]];
          OneUnseen(receipts[0], seen);
          SettledTogether(outcome, receipts[0]);
          ReconciledDebits(c, pruned, p, outcome, receipts, novel, policy, now, draws.surveyed, draws.outcomes);
        }
      }
    }
  }

  lemma OnlyOneIsAccepted(c: Config, set_: ReceiptSet, p: Permit, now: Time, replayed: bool)
    requires Rejection(set_, Expected(c, p, now)).None?
    ensures PolicyError(c, set_, p, now, replayed).None? <==> |set_.receipts| == 1 && !replayed
  {
    hide Rejection;
    AcceptsExactlyWellFormed(set_, Expected(c, p, now));
    if |set_.receipts| > 1 {
      SeveralAreRefused(c, set_, p, now);
    }
  }
}
