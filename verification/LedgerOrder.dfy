/** The rolling ledger is in time order in every reachable state, whether its
    debits come from plain starts or from receipts, so the retry instant it
    offers a blocked caller is exact.
 */
module LedgerOrder {
  import opened Clock
  import opened Policy
  import opened Ledger
  import opened Retention
  import opened AttemptReceipts
  import opened Lane
  import opened Runs
  import opened SingleLane
  import opened RetryInstants

  // ----- Sections that only let entries expire -----

  // `s'` lacks at most a prefix of the ledger of `s`, old enough at `now`.
  ghost predicate Aged(s: State, s': State, now: Time) {
    && s'.lastStart == s.lastStart
    && SameLane(s, s')
    && |s'.ledger| <= |s.ledger|
    && s'.ledger == s.ledger[|s.ledger| - |s'.ledger|..]
    && (forall i :: 0 <= i < |s.ledger| - |s'.ledger| ==> s.ledger[i].at + THREE_HOURS <= now)
  }

  lemma SameIsAged(s: State, s': State, now: Time)
    requires s'.lastStart == s.lastStart && SameLane(s, s') && s'.ledger == s.ledger
    ensures Aged(s, s', now)
  {
  }

  lemma AgedSameLane(s: State, s': State, now: Time)
    requires Aged(s, s', now)
    ensures SameLane(s, s')
  {
  }

  lemma AgedThenAged(s: State, s1: State, s2: State, now: Time, at: Time)
    requires Aged(s, s1, now) && Aged(s1, s2, at) && now <= at
    ensures Aged(s, s2, at)
  {
  }

  lemma ExpireAges(c: Config, s: State, now: Time, choice: Choice)
    ensures Aged(s, Lane.Expire(c, s, now, choice), now)
  {
    hide PruneRequests, YoungTasks, YoungAttempts, Keepers, RecentRates, ExpireTelemetry;
  }

  lemma SurveyAges(c: Config, s: State, task: Id, now: Time, choice: Choice)
    ensures Aged(s, Survey(c, s, task, now, choice), now)
  {
    hide Lane.Expire;
    ExpireAges(c, s, now, choice);
  }

  lemma CheckAges(c: Config, s: State, request: Request, now: Time, at: Time, choice: Choice)
    ensures Aged(s, Check(c, s, request, now, at, choice).0, now)
  {
    hide Lane.Expire, CircuitChecked, GateVerdict, BudgetVerdict;
    ExpireAges(c, s, now, choice);
  }

  lemma RecordOutcomeAges(c: Config, s: State, task: Id, now: Time, outcome: Outcome, draw: Draw)
    ensures Aged(s, RecordOutcome(c, s, task, now, outcome, draw).0, now)
  {
    hide Lane.Expire, RateResponse, SelectedBackoff, OtherResponse, AsRecorded;
    ExpireAges(c, s, now, draw.choice);
  }

  lemma {:induction false} RecordAllAges(c: Config, s: State, task: Id, now: Time, outcomes: seq<Outcome>, draws: seq<Draw>)
    requires |draws| == |outcomes|
    ensures Aged(s, RecordAll(c, s, task, now, outcomes, draws).0, now)
  {
    hide RecordOutcome, Aged;
    if outcomes == [] {
      SameIsAged(s, s, now);
    } else {
      var last := |outcomes| - 1;
      var s1 := RecordAll(c, s, task, now, outcomes[..last], draws[..last]).0;
      RecordAllAges(c, s, task, now, outcomes[..last], draws[..last]);
      RecordOutcomeAges(c, s1, task, now, outcomes[last], draws[last]);
      AgedThenAged(s, s1, RecordOutcome(c, s1, task, now, outcomes[last], draws[last]).0, now, now);
    }
  }

  lemma ObserveAges(c: Config, s: State, observed: Option<TelemetrySnapshot>, now: Time)
    ensures Aged(s, Observe(c, s, observed, now), now)
  {
    hide TelemetryAfter, CircuitAfter, CooldownAfter;
  }

  lemma PruneAges(s: State, now: Time, choice: Choice)
    ensures Aged(s, Prune(s, now, choice), now)
  {
    hide PruneRequests, YoungTasks, YoungAttempts, Keepers;
  }

  // Up to the grant itself, asking for admission only lets entries expire.
  lemma AdmitAges(c: Config, s: State, request: Request, at: Time, observed: Option<TelemetrySnapshot>, cancelled: bool,
                  pruned: Choice, checked: Choice)
    ensures var (s', admission) := TryAdmit(c, s, request, at, observed, cancelled, pruned, checked);
            && Aged(s, s'.(inFlight := s.inFlight, activeTask := s.activeTask), at)
            && (!admission.Granted? ==> SameLane(s, s'))
  {
    hide Check, Prune, Observe, Aged;
    var s1 := Prune(s, at, pruned);
    var s2 := Observe(c, s1, observed, at);
    var s3 := Check(c, s2, request, at, at, checked).0;
    PruneAges(s, at, pruned);
    ObserveAges(c, s1, observed, at);
    CheckAges(c, s2, request, at, at, checked);
    AgedThenAged(s1, s2, s3, at, at);
    AgedThenAged(s, s1, s3, at, at);
    var (s', admission) := TryAdmit(c, s, request, at, observed, cancelled, pruned, checked);
    SameIsAged(s, s, at);
    if s' != s {
      AgedAlike(s, if s' == s1 then s1 else s3, s'.(inFlight := s.inFlight, activeTask := s.activeTask), at);
    }
    AgedSameLane(s, s1, at);
    AgedSameLane(s, s3, at);
  }

  lemma AgedAlike(s: State, s1: State, s2: State, now: Time)
    requires Aged(s, s1, now) && s2.ledger == s1.ledger && s2.lastStart == s1.lastStart && SameLane(s, s2)
    ensures Aged(s, s2, now)
  {
  }

  // What a step that debits nothing leaves of the governor, the lane aside.
  ghost predicate AgedStep(w: World, w': World) {
    Aged(w.gov, w'.gov.(inFlight := w.gov.inFlight, activeTask := w.gov.activeTask), w'.clock)
  }

  lemma LookAges(c: Config, s: State, index: nat, now: Time, at: Time, observed: Option<TelemetrySnapshot>, cancelled: bool, checked: Choice)
    requires index < |s.queue| && now <= at
    ensures var (s', admission) := QueueCheck(c, s, index, now, at, observed, cancelled, checked);
            && Aged(s, s'.(inFlight := s.inFlight, activeTask := s.activeTask), at)
            && (!admission.Granted? ==> SameLane(s, s'))
  {
    hide Check, Observe, Aged;
    var request := s.queue[index].request;
    var s1 := Observe(c, s, observed, now);
    var s2 := Check(c, s1, request, now, at, checked).0;
    ObserveAges(c, s, observed, now);
    CheckAges(c, s1, request, now, at, checked);
    SameIsAged(s2, s2, at);
    SameIsAged(s1, s1, at);
    AgedThenAged(s1, s2, s2, now, at);
    AgedThenAged(s, s1, s2, now, at);
    AgedThenAged(s, s1, s1, now, at);
    var (s', admission) := QueueCheck(c, s, index, now, at, observed, cancelled, checked);
    AgedSameLane(s, s1, at);
    AgedSameLane(s, s2, at);
    AgedAlike(s, if cancelled then s1 else s2, s'.(inFlight := s.inFlight, activeTask := s.activeTask), at);
  }

  lemma CallerStepAges(c: Config, w: World, step: Label)
    requires Enabled(c, w, step) && (step.Admit? || step.Look? || step.Join?)
    ensures AgedStep(w, Step(c, w, step))
  {
    hide Lane.TryAdmit, QueueCheck, Prune, Aged;
    match step {
      case Admit(request, at, observed, cancelled, pruned, checked) => AdmitAges(c, w.gov, request, at, observed, cancelled, pruned, checked);
      case Look(index, now, at, observed, cancelled, checked) => LookAges(c, w.gov, index, now, at, observed, cancelled, checked);
      case Join(request, at, pruned) =>
        var s1 := Prune(w.gov, at, pruned);
        PruneAges(w.gov, at, pruned);
        SameIsAged(w.gov, w.gov, at);
        AgedSameLane(w.gov, s1, at);
        var s' := Enqueue(c, w.gov, request, at, pruned).0;
        AgedAlike(w.gov, if w.gov.closed then w.gov else s1, s'.(inFlight := w.gov.inFlight, activeTask := w.gov.activeTask), at);
    }
  }

  lemma QuietStepAges(c: Config, w: World, step: Label)
    requires Enabled(c, w, step)
    requires step.Leave? || step.Abandon? || step.Abort? || step.BeginRefresh? || step.FinishRefresh? || step.Acknowledge? || step.Shut? || step.Save? || step.Emit?
    ensures AgedStep(w, Step(c, w, step))
  {
    hide Lane.Expire, Aged;
    var w' := Step(c, w, step);
    if step.Save? {
      ExpireAges(c, w.gov, step.at, step.pruned);
      AgedAlike(w.gov, w'.gov, w'.gov.(inFlight := w.gov.inFlight, activeTask := w.gov.activeTask), step.at);
    } else if step.Emit? {
      SurveyAges(c, w.gov, step.task, step.at, step.surveyed);
      AgedAlike(w.gov, w'.gov, w'.gov.(inFlight := w.gov.inFlight, activeTask := w.gov.activeTask), step.at);
    } else {
      SameIsAged(w.gov, w'.gov.(inFlight := w.gov.inFlight, activeTask := w.gov.activeTask), w'.clock);
    }
  }

  lemma FinishAges(c: Config, s: State, p: Permit, outcome: Outcome, at: Time, surveyed: Choice, draw: Draw)
    ensures var s' := Lane.Finish(c, s, p, outcome, at, surveyed, draw).0;
            Aged(s, s'.(inFlight := s.inFlight, activeTask := s.activeTask), at)
  {
    hide Survey, RecordOutcome, Aged, AsRecorded;
    var s1 := Survey(c, s, p.request.task, at, surveyed);
    var s2 := RecordOutcome(c, s1, p.request.task, at, outcome, draw).0;
    SurveyAges(c, s, p.request.task, at, surveyed);
    RecordOutcomeAges(c, s1, p.request.task, at, outcome, draw);
    AgedThenAged(s, s1, s2, at, at);
    SameIsAged(s, s, at);
    var s' := Lane.Finish(c, s, p, outcome, at, surveyed, draw).0;
    AgedAlike(s, if s' == s then s else s2, s'.(inFlight := s.inFlight, activeTask := s.activeTask), at);
  }

  lemma FinishStepAges(c: Config, w: World, step: Label)
    requires Enabled(c, w, step) && step.Finish?
    ensures AgedStep(w, Step(c, w, step))
  {
    hide Lane.Finish, Aged;
    FinishAges(c, w.gov, w.permits[step.permit], step.outcome, step.at, step.surveyed, step.draw);
  }

  // ----- What every section puts on the ledger -----

  // The debits a finish adds, in the order it adds them.
  function Charges(s: State, p: Permit, set_: Option<ReceiptSet>, valid: bool, now: Time, evicted: set<Id>): seq<Event> {
    if !valid || set_.None? then [Event(if p.startedAt == ZERO then now else p.startedAt, p.request.task)]
    else Charged(p, NewReceipts(s, set_.value, now, evicted), now)
  }

  function Charged(p: Permit, receipts: seq<Receipt>, now: Time): (events: seq<Event>)
    ensures |events| == |receipts|
    ensures p.startedAt <= now ==> forall i :: 0 <= i < |events| ==> p.startedAt <= events[i].at <= now
  {
    if receipts == [] then []
    else [Event(Normalized(receipts[0].startedAt, p.startedAt, now), p.request.task)] + Charged(p, receipts[1..], now)
  }

  lemma {:induction false} DebitReceiptsAdd(c: Config, s: State, p: Permit, receipts: seq<Receipt>, now: Time)
    ensures var s' := DebitReceipts(c, s, p, receipts, now);
            && s'.ledger == s.ledger + Charged(p, receipts, now)
            && TaskOf(s', p.request.task).attempts == TaskOf(s, p.request.task).attempts + |receipts|
            && SameLane(s, s') && s'.queue == s.queue && s'.lastStart == s.lastStart && s'.attemptIDs == s.attemptIDs && (s.telemetry.unsafe <==> s'.telemetry.unsafe)
    decreases receipts
  {
    hide Normalized;
    if receipts == [] {
      assert s.ledger + [] == s.ledger;
    } else {
      var s1 := DebitReceipt(c, s, p, receipts[0], now);
      DebitReceiptsAdd(c, s1, p, receipts[1..], now);
    }
  }

  // What a section puts on the ledger, in the order it does.
  function ChargesOf(c: Config, w: World, step: Label): seq<Event>
    requires Enabled(c, w, step)
  {
    match step
    case Begin(index, receiptAware, at, _) =>
      if receiptAware || StartError(w.gov, w.permits[index]).Some? then [] else [Event(at, w.permits[index].request.task)]
    case FinishWithReceipts(index, _, set_, at, draws) =>
      var p := w.permits[index];
      if FinishError(p).Some? || !p.receiptAware then []
      else Charges(w.gov, p, set_, set_.Some? && Rejection(set_.value, Expected(c, p, at)).None?, at, draws.evicted)
    case _ => []
  }

  // The ledger `after` is `before` and the charges, less a prefix that is old
  // enough at `now`.
  ghost predicate Grown(before: seq<Event>, after: seq<Event>, charges: seq<Event>, now: Time) {
    var all := before + charges;
    && |after| <= |all| && after == all[|all| - |after|..]
    && forall i :: 0 <= i < |all| - |after| ==> all[i].at + THREE_HOURS <= now
  }

  lemma GrownTwice(l: seq<Event>, l1: seq<Event>, l2: seq<Event>, first: seq<Event>, second: seq<Event>, now: Time)
    requires Grown(l, l1, first, now) && Grown(l1, l2, second, now)
    ensures Grown(l, l2, first + second, now)
  {
    var all, gone := l + (first + second), |l + first| - |l1|;
    assert all == (l + first) + second;
    assert l1 + second == all[gone..];
    forall i | 0 <= i < |all| - |l2|
      ensures all[i].at + THREE_HOURS <= now
    {
      if i >= gone {
        assert all[i] == (l1 + second)[i - gone];
      }
    }
  }

  lemma AgedIsGrown(s: State, s': State, now: Time)
    requires Aged(s, s', now)
    ensures Grown(s.ledger, s'.ledger, [], now)
  {
    assert s.ledger + [] == s.ledger;
  }

  lemma AppendedIsGrown(l: seq<Event>, charges: seq<Event>, now: Time)
    ensures Grown(l, l + charges, charges, now)
  {
  }

  lemma StartGrows(c: Config, s: State, p: Permit, receiptAware: bool, at: Time, choice: Choice)
    ensures Grown(s.ledger, Lane.Start(c, s, p, receiptAware, at, choice).0.ledger,
                  if receiptAware || StartError(s, p).Some? then [] else [Event(at, p.request.task)], at)
  {
    hide Survey, Spend, Grown;
    var s1 := Survey(c, s, p.request.task, at, choice);
    var charges := if receiptAware || StartError(s, p).Some? then [] else [Event(at, p.request.task)];
    SurveyAges(c, s, p.request.task, at, choice);
    AgedIsGrown(s, s1, at);
    AppendedIsGrown(s.ledger, [], at);
    AppendedIsGrown(s1.ledger, charges, at);
    GrownTwice(s.ledger, s1.ledger, s1.ledger + charges, [], charges, at);
    assert [] + charges == charges && s.ledger + [] == s.ledger && s1.ledger + [] == s1.ledger;
  }

  lemma ReconcilingGrows(c: Config, s: State, p: Permit, outcome: Outcome, receipts: seq<Receipt>, novel: seq<Receipt>,
                         error: Option<PermitError>, now: Time, surveyed: Choice, draws: seq<Draw>)
    requires novel != [] && |draws| == |OutcomesToRecord(novel, CallOutcome(outcome))|
    ensures Grown(s.ledger, FinishReconciled(c, s, p, outcome, receipts, novel, error, now, surveyed, draws).0.ledger, Charged(p, novel, now), now)
  {
    hide Survey, DebitReceipts, RecordAll, OutcomesToRecord, CallOutcome, LatestStart, SettledClass, Remember, ConcludedResult, Grown, Aged;
    var task, charges := p.request.task, Charged(p, novel, now);
    var remembered := s.(attemptIDs := Remember(s.attemptIDs, novel, now));
    var s1 := Survey(c, remembered, task, now, surveyed);
    var s2 := DebitReceipts(c, s1, p, novel, now);
    var plan := OutcomesToRecord(novel, CallOutcome(outcome));
    var s3 := RecordAll(c, s2, task, now, plan, draws).0;
    SurveyAges(c, remembered, task, now, surveyed);
    AgedIsGrown(remembered, s1, now);
    DebitReceiptsAdd(c, s1, p, novel, now);
    AppendedIsGrown(s1.ledger, charges, now);
    GrownTwice(s.ledger, s1.ledger, s2.ledger, [], charges, now);
    RecordAllAges(c, s2, task, now, plan, draws);
    AgedIsGrown(s2, s3, now);
    GrownTwice(s.ledger, s2.ledger, s3.ledger, [] + charges, [], now);
    assert [] + charges + [] == charges;
  }

  lemma FailureGrows(c: Config, s: State, p: Permit, error: PermitError, debit: bool, delivery: Delivery, now: Time, choice: Choice)
    ensures Grown(s.ledger, ReceiptFailure(c, s, p, error, debit, delivery, now, choice).0.ledger,
                  if debit then Charges(s, p, None, false, now, {}) else [], now)
  {
    hide Survey, Spend, Grown, Aged;
    var unsafe := Distrusted(s);
    var s1 := Survey(c, unsafe, p.request.task, now, choice);
    var charges := if debit then Charges(s, p, None, false, now, {}) else [];
    SurveyAges(c, unsafe, p.request.task, now, choice);
    AgedIsGrown(unsafe, s1, now);
    AppendedIsGrown(s1.ledger, charges, now);
    GrownTwice(s.ledger, s1.ledger, s1.ledger + charges, [], charges, now);
    assert [] + charges == charges && s1.ledger + [] == s1.ledger;
  }

  lemma ReceiptsGrow(c: Config, s: State, p: Permit, outcome: Outcome, set_: Option<ReceiptSet>, now: Time, draws: Draws)
    requires FinishError(p).None? && p.receiptAware
    requires Settles(c, s, p, outcome, set_, now, draws.evicted) ==>
      |draws.outcomes| == |OutcomesToRecord(NewReceipts(s, set_.value, now, draws.evicted), CallOutcome(outcome))|
    ensures var valid := set_.Some? && Rejection(set_.value, Expected(c, p, now)).None?;
            var charges := Charges(s, p, set_, valid, now, draws.evicted);
            var (s', _, result) := FinishReceipts(c, s, p, outcome, set_, now, draws);
            Grown(s.ledger, s'.ledger, charges, now) && result.debited == |charges|
  {
    hide Rejection, ReceiptFailure, FinishReconciled, OutcomesToRecord, CallOutcome, Unseen, YoungAttempts, PolicyError, Grown;
    if set_.None? || Rejection(set_.value, Expected(c, p, now)).Some? {
      FailureGrows(c, s, p, ReceiptsInvalid, true, outcome.delivery, now, draws.surveyed);
      FailureDebits(c, s, p, ReceiptsInvalid, true, outcome.delivery, now, draws.surveyed);
    } else {
      var pruned := s.(attemptIDs := YoungAttempts(s.attemptIDs, now) - draws.evicted);
      var novel := NewReceipts(s, set_.value, now, draws.evicted);
      var policy := PolicyError(c, set_.value, p, now, |novel| < |set_.value.receipts|);
      if novel == [] {
        var error := if policy.Some? then policy.value else ReceiptReplayed;
        FailureGrows(c, pruned, p, error, false, outcome.delivery, now, draws.surveyed);
        FailureDebits(c, pruned, p, error, false, outcome.delivery, now, draws.surveyed);
      } else {
        ReconcilingGrows(c, pruned, p, outcome, set_.value.receipts, novel, policy, now, draws.surveyed, draws.outcomes);
        ReconcilingDebits(c, pruned, p, outcome, set_.value.receipts, novel, policy, now, draws.surveyed, draws.outcomes);
      }
    }
  }

  lemma FailureDebits(c: Config, s: State, p: Permit, error: PermitError, debit: bool, delivery: Delivery, now: Time, choice: Choice)
    ensures ReceiptFailure(c, s, p, error, debit, delivery, now, choice).2.debited == if debit then 1 else 0
  {
    hide Survey, Complete, DebitUncertain;
  }

  lemma ReconcilingDebits(c: Config, s: State, p: Permit, outcome: Outcome, receipts: seq<Receipt>, novel: seq<Receipt>,
                          error: Option<PermitError>, now: Time, surveyed: Choice, draws: seq<Draw>)
    requires novel != [] && |draws| == |OutcomesToRecord(novel, CallOutcome(outcome))|
    ensures FinishReconciled(c, s, p, outcome, receipts, novel, error, now, surveyed, draws).2.debited == |novel|
  {
    hide Reconciled, RecordAll, OutcomesToRecord, CallOutcome, SettledClass, LatestStart, Conclude, Recoverable;
  }

  lemma StepGrows(c: Config, w: World, step: Label)
    requires Enabled(c, w, step)
    ensures Grown(w.gov.ledger, Step(c, w, step).gov.ledger, ChargesOf(c, w, step), Instant(w, step))
  {
    hide Lane.Start, FinishReceipts, Grown, Aged, Charges, Rejection, Lane.TryAdmit, QueueCheck, Enqueue, Lane.Finish, Lane.Expire;
    AppendedIsGrown(w.gov.ledger, [], Instant(w, step));
    assert w.gov.ledger + [] == w.gov.ledger;
    match step {
      case Begin(index, receiptAware, at, surveyed) => StartGrows(c, w.gov, w.permits[index], receiptAware, at, surveyed);
      case FinishWithReceipts(index, outcome, set_, at, draws) =>
        if FinishError(w.permits[index]).None? && w.permits[index].receiptAware {
          ReceiptsGrow(c, w.gov, w.permits[index], outcome, set_, at, draws);
        } else {
          RefusedFinish(c, w.gov, w.permits[index], outcome, set_, at, draws);
        }
      case _ => QuietStepGrows(c, w, step);
    }
  }

  lemma RefusedFinish(c: Config, s: State, p: Permit, outcome: Outcome, set_: Option<ReceiptSet>, now: Time, draws: Draws)
    requires FinishError(p).Some? || !p.receiptAware
    requires Settles(c, s, p, outcome, set_, now, draws.evicted) ==>
      |draws.outcomes| == |OutcomesToRecord(NewReceipts(s, set_.value, now, draws.evicted), CallOutcome(outcome))|
    ensures FinishReceipts(c, s, p, outcome, set_, now, draws).0 == s
  {
  }

  lemma QuietStepGrows(c: Config, w: World, step: Label)
    requires Enabled(c, w, step) && !step.Begin? && !step.FinishWithReceipts?
    ensures Grown(w.gov.ledger, Step(c, w, step).gov.ledger, [], Instant(w, step))
  {
    hide Step, Aged;
    var w' := Step(c, w, step);
    StepSetsClock(c, w, step);
    if step.Admit? || step.Look? || step.Join? {
      CallerStepAges(c, w, step);
    } else if step.Finish? {
      FinishStepAges(c, w, step);
    } else {
      QuietStepAges(c, w, step);
    }
    AgedIsGrown(w.gov, w'.gov.(inFlight := w.gov.inFlight, activeTask := w.gov.activeTask), w'.clock);
  }

  // ----- Order -----

  ghost predicate Bounded(events: seq<Event>, latest: Time) {
    forall i :: 0 <= i < |events| ==> events[i].at <= latest
  }

  lemma AppendingKeepsOrder(before: seq<Event>, charges: seq<Event>, floor: Time, latest: Time)
    requires EarliestFirst(before, floor) && Bounded(before, latest)
    requires Sorted(charges) && (forall i :: 0 <= i < |charges| ==> latest <= charges[i].at)
    ensures EarliestFirst(before + charges, floor) && (Sorted(before) ==> Sorted(before + charges))
  {
    var all := before + charges;
    forall i, j | Inverted(all, floor, i, j)
      ensures Preceded(all, i, j)
    {
      assert Inverted(before, floor, i, j);
      var h :| 0 <= h < i && before[j].at <= before[h].at;
      assert all[h] == before[h];
    }
  }

  // What goes from the front counts no more.
  lemma DroppingKeepsOrder(all: seq<Event>, gone: nat, floor: Time, cutoff: Time)
    requires EarliestFirst(all, floor) && floor <= cutoff && gone <= |all|
    requires forall i :: 0 <= i < gone ==> all[i].at <= cutoff
    ensures EarliestFirst(all[gone..], cutoff) && (Sorted(all) ==> Sorted(all[gone..]))
  {
    var after := all[gone..];
    forall i, j | Inverted(after, cutoff, i, j)
      ensures Preceded(after, i, j)
    {
      assert Inverted(all, floor, gone + i, gone + j);
      var h :| 0 <= h < gone + i && all[gone + j].at <= all[h].at;
      assert after[h - gone] == all[h];
    }
  }

  lemma GrowingKeepsOrder(before: seq<Event>, after: seq<Event>, charges: seq<Event>, floor: Time, latest: Time, now: Time)
    requires EarliestFirst(before, floor) && floor <= now - THREE_HOURS && Bounded(before, latest)
    requires Sorted(charges) && (forall i :: 0 <= i < |charges| ==> latest <= charges[i].at)
    requires Grown(before, after, charges, now)
    ensures EarliestFirst(after, now - THREE_HOURS) && (Sorted(before) ==> Sorted(after))
    ensures forall later :: Bounded(before, later) && Bounded(charges, later) ==> Bounded(after, later)
  {
    hide EarliestFirst, Sorted;
    AppendingKeepsOrder(before, charges, floor, latest);
    DroppingKeepsOrder(before + charges, |before + charges| - |after|, floor, now - THREE_HOURS);
  }

  predicate StartsInOrder(receipts: seq<Receipt>) {
    forall i, j :: 0 <= i < j < |receipts| ==> receipts[i].startedAt <= receipts[j].startedAt
  }

  lemma {:induction false} UnseenInOrder(receipts: seq<Receipt>, seen: map<Id, Time>)
    requires StartsInOrder(receipts)
    ensures StartsInOrder(Unseen(receipts, seen))
    ensures forall r :: r in Unseen(receipts, seen) ==> r in receipts && r.attemptID !in seen
  {
    if receipts != [] {
      var rest := Unseen(receipts[1..], seen);
      UnseenInOrder(receipts[1..], seen);
      forall j | 0 <= j < |rest|
        ensures receipts[0].startedAt <= rest[j].startedAt
      {
        assert rest[j] in receipts[1..];
      }
      PrependInOrder(receipts[0], rest);
    }
  }

  lemma PrependInOrder(first: Receipt, rest: seq<Receipt>)
    requires StartsInOrder(rest) && forall j :: 0 <= j < |rest| ==> first.startedAt <= rest[j].startedAt
    ensures StartsInOrder([first] + rest) && StartsInOrder([] + rest)
  {
  }

  // What a step charges comes in order, after everything on the ledger.
  lemma ChargesInTime(c: Config, w: World, step: Label, once: bool)
    requires Enabled(c, w, step) && InTime(w, once)
    ensures var charges := ChargesOf(c, w, step);
            && Sorted(charges) && Bounded(charges, Instant(w, step))
            && forall i, j :: 0 <= i < |charges| && 0 <= j < |w.gov.ledger| ==> w.gov.ledger[j].at <= charges[i].at
  {
    hide Rejection, NewReceipts;
    if step.FinishWithReceipts? && FinishError(w.permits[step.permit]).None? && w.permits[step.permit].receiptAware {
      var p := w.permits[step.permit];
      if step.set_.Some? && Rejection(step.set_.value, Expected(c, p, step.at)).None? {
        NovelInOrder(c, w.gov, p, step.set_.value, step.at, step.draws.evicted);
        ChargedInOrder(p, NewReceipts(w.gov, step.set_.value, step.at, step.draws.evicted), step.at);
      }
    }
  }

  lemma NovelInOrder(c: Config, s: State, p: Permit, set_: ReceiptSet, now: Time, evicted: set<Id>)
    requires Rejection(set_, Expected(c, p, now)).None?
    ensures StartsInOrder(NewReceipts(s, set_, now, evicted))
  {
    hide Rejection, YoungAttempts;
    AcceptedInOrder(set_, Expected(c, p, now));
    UnseenInOrder(set_.receipts, YoungAttempts(s.attemptIDs, now) - evicted);
  }

  lemma {:induction false} ChargedInOrder(p: Permit, receipts: seq<Receipt>, now: Time)
    requires StartsInOrder(receipts) && p.startedAt <= now
    ensures Sorted(Charged(p, receipts, now))
    ensures forall i :: 0 <= i < |receipts| ==> Charged(p, receipts, now)[i].at == Normalized(receipts[i].startedAt, p.startedAt, now)
  {
    if receipts != [] {
      ChargedInOrder(p, receipts[1..], now);
    }
  }

  // ----- Runs -----

  // Nothing is debited later than the clock, nor later than the start of the
  // call in flight, whose own debits are still to come; and the ledger is in
  // time order as long as the projection was restored `once` at most.
  ghost predicate InTime(w: World, once: bool) {
    && OneLane(w)
    && EarliestFirst(w.gov.ledger, w.clock - THREE_HOURS) && (once ==> Sorted(w.gov.ledger)) && Bounded(w.gov.ledger, w.clock)
    && (forall i :: 0 <= i < |w.permits| && !w.permits[i].completed && w.permits[i].started ==>
          w.permits[i].startedAt <= w.clock && Bounded(w.gov.ledger, w.permits[i].startedAt))
  }

  // No step but a start makes a permit start.
  lemma OnlyBeginStarts(c: Config, w: World, step: Label, index: nat)
    requires Enabled(c, w, step) && !step.Begin? && index < |Step(c, w, step).permits|
    requires var p := Step(c, w, step).permits[index]; p.started && !p.completed
    ensures index < |w.permits| && w.permits[index] == Step(c, w, step).permits[index]
  {
    hide Check, Prune, Observe, Survey, RecordOutcome, Rejection, NewReceipts, Reconciled, RecordAll, OutcomesToRecord, CallOutcome, PolicyError,
         SettledClass, ConcludedResult, Conclude, Complete;
  }

  lemma LedgerStaysInTime(c: Config, w: World, step: Label, once: bool)
    requires Enabled(c, w, step) && InTime(w, once)
    ensures var (after, clock) := (Step(c, w, step).gov.ledger, Instant(w, step));
            && EarliestFirst(after, clock - THREE_HOURS) && (once ==> Sorted(after)) && Bounded(after, clock)
            && forall later :: Bounded(w.gov.ledger, later) && ChargesOf(c, w, step) == [] ==> Bounded(after, later)
  {
    hide Step, Enabled, ChargesOf, OneLane, Grown, EarliestFirst;
    var before, charges, clock := w.gov.ledger, ChargesOf(c, w, step), Instant(w, step);
    ChargesInTime(c, w, step, once);
    StepGrows(c, w, step);
    StepSetsClock(c, w, step);
    var latest := if charges == [] then clock else charges[0].at;
    assert w.clock <= clock by {
      assert Enabled(c, w, step);
      EnabledMeansLater(c, w, step);
    }
    GrowingKeepsOrder(before, Step(c, w, step).gov.ledger, charges, w.clock - THREE_HOURS, latest, clock);
  }

  lemma EnabledMeansLater(c: Config, w: World, step: Label)
    requires Enabled(c, w, step)
    ensures w.clock <= Instant(w, step)
  {
    hide Names;
  }

  lemma StartStepKeepsTime(c: Config, w: World, step: Label, once: bool)
    requires Enabled(c, w, step) && InTime(w, once) && step.Begin?
    ensures InTime(Step(c, w, step), once)
  {
    hide BeginAttempt, EarliestFirst, Bounded;
    StepKeepsOneLane(c, w, step);
    LedgerStaysInTime(c, w, step, once);
  }

  lemma OtherStepKeepsTime(c: Config, w: World, step: Label, once: bool)
    requires Enabled(c, w, step) && InTime(w, once) && !step.Begin? && !step.FinishWithReceipts?
    ensures InTime(Step(c, w, step), once)
  {
    hide Step, Enabled, EarliestFirst, Bounded, OneLane;
    var w' := Step(c, w, step);
    StepKeepsOneLane(c, w, step);
    StepSetsClock(c, w, step);
    EnabledMeansLater(c, w, step);
    LedgerStaysInTime(c, w, step, once);
    forall i | 0 <= i < |w'.permits| && !w'.permits[i].completed && w'.permits[i].started
      ensures i < |w.permits| && w.permits[i] == w'.permits[i]
    {
      OnlyBeginStarts(c, w, step, i);
    }
  }

  lemma ReceiptStepKeepsTime(c: Config, w: World, step: Label, once: bool)
    requires Enabled(c, w, step) && InTime(w, once) && step.FinishWithReceipts?
    ensures InTime(Step(c, w, step), once)
  {
    hide FinishReceipts, Rejection, NewReceipts, OutcomesToRecord, CallOutcome, EarliestFirst, Bounded, NewSightings, Charges;
    StepKeepsOneLane(c, w, step);
    LedgerStaysInTime(c, w, step, once);
    ReceiptFinishCompletes(c, w.gov, w.permits[step.permit], step.outcome, step.set_, step.at, step.draws);
  }

  lemma StepKeepsTime(c: Config, w: World, step: Label, once: bool)
    requires Enabled(c, w, step) && InTime(w, once)
    ensures InTime(Step(c, w, step), once)
  {
    hide Step, Enabled, InTime;
    if step.Begin? {
      StartStepKeepsTime(c, w, step, once);
    } else if step.FinishWithReceipts? {
      ReceiptStepKeepsTime(c, w, step, once);
    } else {
      OtherStepKeepsTime(c, w, step, once);
    }
  }

  lemma {:induction false} RunKeepsTime(c: Config, w: World, steps: seq<Label>, once: bool)
    requires Runnable(c, w, steps) && InTime(w, once)
    ensures InTime(Run(c, w, steps), once)
    decreases |steps|
  {
    hide Step, InTime;
    if steps != [] {
      StepKeepsTime(c, w, steps[0], once);
      RunKeepsTime(c, Step(c, w, steps[0]), steps[1..], once);
    }
  }

  /** In every run, plain or with receipts, a caller that is put off, queueing or
      not, hears the first instant that can help: a full window is named with
      the instant at which it first holds fewer debits, everything else with
      the instant at which it ends. The ledger behind it is in time order. */
  lemma RetryInstantIsExact(c: Config, clock: Time, history: seq<Label>, step: Label)
    requires c.Valid() && Runnable(c, Initially(clock), history)
    requires Enabled(c, Run(c, Initially(clock), history), step) && Asks(step)
    ensures var w := Run(c, Initially(clock), history); OffersExactly(c, w, step) && Sorted(w.gov.ledger)
  {
    hide Runnable, Run, OffersExactly, Enabled;
    var w := Run(c, Initially(clock), history);
    RunKeepsTime(c, Initially(clock), history, true);
    SortedComesFirst(w.gov.ledger, AskedAt(step) - THREE_HOURS);
    OffersAreExact(c, w, step);
  }
}
