/** Rate responses that receipts report: each of them is remembered, counts
    towards the threshold and makes the governor back off, wherever it stands in
    its set.
 */
module RateReceipts {
  import opened Clock
  import opened Policy
  import opened Retention
  import opened AttemptReceipts
  import opened Lane
  import opened Runs
  import opened SingleLane
  import opened Windows
  import opened RateThreshold
  import opened Cooldown
  import opened ReceiptConservation
  import Halts
  import DeliverySafety

  function Copies(at: Time, n: nat): (copies: seq<Time>)
    ensures |copies| == n && forall i :: 0 <= i < n ==> copies[i] == at
  {
    if n == 0 then [] else Copies(at, n - 1) + [at]
  }

  predicate Past(events: seq<Time>, now: Time) {
    Ascending(events) && forall i :: 0 <= i < |events| ==> events[i] <= now
  }

  // Forgetting the old responses again forgets nothing more.
  lemma RecentAgain(c: Config, events: seq<Time>, n: nat, now: Time)
    requires Past(events, now) && c.rateResponseWindow > 0
    ensures var recent := RecentRates(c, events, now) + Copies(now, n); Past(recent, now) && RecentRates(c, recent, now) == recent
  {
    hide Bisect, Copies, Past, Ascending;
    RecentIsPast(c, events, now);
    CopiesArePast(RecentRates(c, events, now), n, now, now - c.rateResponseWindow);
    NothingToForget(c, RecentRates(c, events, now) + Copies(now, n), now);
  }

  lemma RecentIsPast(c: Config, events: seq<Time>, now: Time)
    requires Past(events, now)
    ensures var recent := RecentRates(c, events, now);
            Past(recent, now) && forall i :: 0 <= i < |recent| ==> recent[i] > now - c.rateResponseWindow
  {
    hide Bisect;
    BisectIsExact(events, now - c.rateResponseWindow, 0, |events|);
  }

  lemma CopiesArePast(recent: seq<Time>, n: nat, now: Time, cutoff: Time)
    requires Past(recent, now) && now > cutoff && forall i :: 0 <= i < |recent| ==> recent[i] > cutoff
    ensures var all := recent + Copies(now, n);
            Ascending(all) && Past(all, now) && forall i :: 0 <= i < |all| ==> all[i] > cutoff
  {
    hide Copies;
  }

  lemma NothingToForget(c: Config, recent: seq<Time>, now: Time)
    requires Ascending(recent) && forall i :: 0 <= i < |recent| ==> recent[i] > now - c.rateResponseWindow
    ensures RecentRates(c, recent, now) == recent
  {
    hide Bisect;
    BisectIsExact(recent, now - c.rateResponseWindow, 0, |recent|);
    assert recent != [] ==> recent[0] > now - c.rateResponseWindow;
    assert recent[0..] == recent;
  }

  // How many of the outcomes are rate responses.
  function Limited(outcomes: seq<Outcome>): nat {
    if outcomes == [] then 0
    else Limited(outcomes[..|outcomes| - 1]) + (if outcomes[|outcomes| - 1].class_.RateCapacity? then 1 else 0)
  }

  // After `n` rate responses at `now`, on top of those remembered.
  ghost predicate Counted(c: Config, circuit: Circuit, events: seq<Time>, now: Time, n: nat) {
    && circuit.rateEvents == RecentRates(c, events, now) + Copies(now, n)
    && (n > 0 && |circuit.rateEvents| >= c.rateResponseThreshold ==> Halts.Halted(circuit))
  }

  lemma RecordingCounts(c: Config, s: State, events: seq<Time>, n: nat, task: Id, now: Time, outcome: Outcome, draw: Draw)
    requires Past(events, now) && c.rateResponseWindow > 0 && Counted(c, s.circuit, events, now, n)
    ensures var s' := RecordOutcome(c, s, task, now, outcome, draw).0;
            Counted(c, s'.circuit, events, now, if outcome.class_.RateCapacity? then n + 1 else n)
  {
    hide Lane.Expire, RecentRates, SelectedBackoff, RateResponse, OtherResponse, Counted;
    var recorded, expired := AsRecorded(outcome), Lane.Expire(c, s, now, draw.choice);
    if outcome.class_.RateCapacity? {
      DeliverySafety.ExpiredCircuit(c, s, now, draw.choice);
      ForgettingAgain(c, s.circuit, expired.circuit, events, now, n);
      ResponseCounts(c, expired.circuit, events, now, n, recorded);
    } else {
      OthersCountNothing(c, s.circuit, events, now, n, recorded.class_);
    }
  }

  lemma ForgettingAgain(c: Config, circuit: Circuit, expired: Circuit, events: seq<Time>, now: Time, n: nat)
    requires Past(events, now) && c.rateResponseWindow > 0 && Counted(c, circuit, events, now, n)
    requires expired == circuit.(rateEvents := RecentRates(c, circuit.rateEvents, now))
    ensures Counted(c, expired, events, now, n)
  {
    hide RecentRates, Past;
    RecentAgain(c, events, n, now);
  }

  lemma ResponseCounts(c: Config, circuit: Circuit, events: seq<Time>, now: Time, n: nat, outcome: Outcome)
    requires Counted(c, circuit, events, now, n)
    ensures Counted(c, RateResponse(c, circuit, outcome, now), events, now, n + 1)
  {
    hide RecentRates;
    assert Copies(now, n + 1) == Copies(now, n) + [now];
  }

  lemma OthersCountNothing(c: Config, circuit: Circuit, events: seq<Time>, now: Time, n: nat, class_: OutcomeClass)
    requires Counted(c, circuit, events, now, n)
    ensures Counted(c, OtherResponse(circuit, class_), events, now, n)
  {
    hide RecentRates;
  }

  lemma {:induction false} RecordingAllCounts(c: Config, s: State, events: seq<Time>, task: Id, now: Time, outcomes: seq<Outcome>, draws: seq<Draw>)
    requires |draws| == |outcomes| && Past(events, now) && c.rateResponseWindow > 0 && Counted(c, s.circuit, events, now, 0)
    ensures Counted(c, RecordAll(c, s, task, now, outcomes, draws).0.circuit, events, now, Limited(outcomes))
  {
    hide RecordOutcome, Counted;
    if outcomes != [] {
      var last := |outcomes| - 1;
      var s1 := RecordAll(c, s, task, now, outcomes[..last], draws[..last]).0;
      RecordingAllCounts(c, s, events, task, now, outcomes[..last], draws[..last]);
      RecordingCounts(c, s1, events, Limited(outcomes[..last]), task, now, outcomes[last], draws[last]);
    }
  }

  predicate Unguided(outcome: Outcome) {
    outcome.class_.RateCapacity? ==> outcome.retryAfter <= 0 && outcome.resetAt <= ZERO
  }

  // The backoff of the `n`-th response remembered, without guidance.
  function Baseline(n: int): Duration
    requires n > 0
  {
    15 * SECOND * Power2(Min(n, 4) - 1)
  }

  lemma {:induction false} RecordingAllBacksOff(c: Config, s: State, events: seq<Time>, task: Id, now: Time, outcomes: seq<Outcome>, draws: seq<Draw>)
    requires |draws| == |outcomes| && Past(events, now) && c.rateResponseWindow > 0 && Counted(c, s.circuit, events, now, 0)
    requires ZERO < now && Limited(outcomes) > 0 && forall i :: 0 <= i < |outcomes| ==> Unguided(outcomes[i])
    ensures var (s', longest) := RecordAll(c, s, task, now, outcomes, draws);
            |s'.circuit.rateEvents| > 0 && longest >= Baseline(|s'.circuit.rateEvents|)
  {
    hide RecordOutcome, Baseline, Power2;
    var last := |outcomes| - 1;
    var s1 := RecordAll(c, s, task, now, outcomes[..last], draws[..last]).0;
    RecordingAllCounts(c, s, events, task, now, outcomes, draws);
    RecordingAllCounts(c, s, events, task, now, outcomes[..last], draws[..last]);
    if outcomes[last].class_.RateCapacity? {
      LastBacksOff(c, s1, task, now, outcomes[last], draws[last]);
    } else {
      RecordingAllBacksOff(c, s, events, task, now, outcomes[..last], draws[..last]);
    }
  }

  lemma LastBacksOff(c: Config, s: State, task: Id, now: Time, outcome: Outcome, draw: Draw)
    requires outcome.class_.RateCapacity? && Unguided(outcome) && ZERO < now
    ensures var (s', result) := RecordOutcome(c, s, task, now, outcome, draw);
            |s'.circuit.rateEvents| > 0 ==> result.backoff >= Baseline(|s'.circuit.rateEvents|)
  {
    hide RecordOutcome, Power2;
    RateResponseBacksOffExactly(c, s, task, now, outcome, draw);
  }

  // ----- What a call and its receipts report -----

  predicate SaysLimited(r: Receipt) {
    r.outcome == ReceiptOutcome.Classified(RateCapacity)
  }

  function LimitedReceipts(receipts: seq<Receipt>): nat {
    if receipts == [] then 0
    else LimitedReceipts(receipts[..|receipts| - 1]) + (if SaysLimited(receipts[|receipts| - 1]) then 1 else 0)
  }

  // Each rate-limited receipt is one response; the call is one more where its
  // last receipt does not say the same.
  function Responses(call: Outcome, novel: seq<Receipt>): nat
    requires novel != []
  {
    LimitedReceipts(novel) + (if call.class_ == RateCapacity && !SaysLimited(novel[|novel| - 1]) then 1 else 0)
  }

  lemma {:induction false} ReceiptsSay(novel: seq<Receipt>)
    ensures Limited(ReceiptOutcomes(novel)) == LimitedReceipts(novel)
    ensures forall i :: 0 <= i < |novel| ==> Unguided(ReceiptOutcomes(novel)[i])
  {
    if novel != [] {
      var last := |novel| - 1;
      ReceiptsSay(novel[..last]);
      assert ReceiptOutcomes(novel)[..last] == ReceiptOutcomes(novel[..last]);
    }
  }

  lemma SayingsAre(novel: seq<Receipt>)
    ensures var each := ReceiptOutcomes(novel);
            |each| == |novel| && forall i :: 0 <= i < |novel| ==> (each[i].class_.RateCapacity? <==> SaysLimited(novel[i]))
  {
  }

  lemma LimitedAndOne(outcomes: seq<Outcome>, last: Outcome)
    ensures Limited(outcomes + [last]) == Limited(outcomes) + (if last.class_.RateCapacity? then 1 else 0)
  {
    assert (outcomes + [last])[..|outcomes|] == outcomes;
  }

  lemma LastReplaced(outcomes: seq<Outcome>, last: Outcome)
    requires outcomes != [] && last.class_ == outcomes[|outcomes| - 1].class_
    ensures Limited(outcomes[|outcomes| - 1 := last]) == Limited(outcomes)
  {
    assert outcomes[|outcomes| - 1 := last][..|outcomes| - 1] == outcomes[..|outcomes| - 1];
  }

  lemma PlanSays(novel: seq<Receipt>, call: Outcome)
    requires novel != []
    ensures Limited(OutcomesToRecord(novel, call)) == Responses(call, novel)
    ensures Unguided(call) ==> forall i :: 0 <= i < |OutcomesToRecord(novel, call)| ==> Unguided(OutcomesToRecord(novel, call)[i])
  {
    hide Limited, ReceiptOutcomes, SaysLimited, LimitedReceipts;
    var each, last := ReceiptOutcomes(novel), |novel| - 1;
    ReceiptsSay(novel);
    SayingsAre(novel);
    if call.class_ == each[last].class_ {
      LastReplaced(each, each[last].(retryAfter := call.retryAfter, resetAt := call.resetAt));
    } else {
      LimitedAndOne(each, call);
    }
  }

  lemma ReconcilingCounts(c: Config, s: State, p: Permit, outcome: Outcome, receipts: seq<Receipt>, novel: seq<Receipt>,
                          error: Option<PermitError>, now: Time, surveyed: Choice, draws: seq<Draw>)
    requires novel != [] && |draws| == |OutcomesToRecord(novel, CallOutcome(outcome))|
    requires Past(s.circuit.rateEvents, now) && c.rateResponseWindow > 0 && ZERO < now
    ensures var (s', _, result) := FinishReconciled(c, s, p, outcome, receipts, novel, error, now, surveyed, draws);
            && Counted(c, s'.circuit, s.circuit.rateEvents, now, Responses(outcome, novel))
            && (Responses(outcome, novel) > 0 && Unguided(outcome) ==>
                  |s'.circuit.rateEvents| > 0 && result.backoff >= Baseline(|s'.circuit.rateEvents|))
  {
    hide Lane.Reconciled, RecordAll, OutcomesToRecord, LatestStart, SettledClass, Counted, Past, Baseline, Limited, Responses;
    var plan, s1 := OutcomesToRecord(novel, CallOutcome(outcome)), Lane.Reconciled(c, s, p, novel, now, surveyed);
    PlanSays(novel, CallOutcome(outcome));
    SameResponses(outcome, novel);
    ReconciledRates(c, s, p, novel, now, surveyed);
    RecordingAllCounts(c, s1, s.circuit.rateEvents, p.request.task, now, plan, draws);
    if Responses(outcome, novel) > 0 && Unguided(outcome) {
      RecordingAllBacksOff(c, s1, s.circuit.rateEvents, p.request.task, now, plan, draws);
    }
  }

  lemma SameResponses(outcome: Outcome, novel: seq<Receipt>)
    requires novel != []
    ensures Responses(CallOutcome(outcome), novel) == Responses(outcome, novel) && (Unguided(outcome) ==> Unguided(CallOutcome(outcome)))
  {
  }

  lemma ReconciledRates(c: Config, s: State, p: Permit, novel: seq<Receipt>, now: Time, surveyed: Choice)
    ensures Counted(c, Lane.Reconciled(c, s, p, novel, now, surveyed).circuit, s.circuit.rateEvents, now, 0)
  {
    hide Lane.Expire, Remember, DebitReceipts, RecentRates;
    var remembered := s.(attemptIDs := Remember(s.attemptIDs, novel, now));
    DeliverySafety.ExpiredCircuit(c, remembered, now, surveyed);
    Halts.DebitingKeepsCircuit(c, Survey(c, remembered, p.request.task, now, surveyed), p, novel, now);
    assert RecentRates(c, s.circuit.rateEvents, now) + Copies(now, 0) == RecentRates(c, s.circuit.rateEvents, now);
  }

  /** Every rate response an accepted set reports for a new receipt, and one more
      for the call where its last receipt does not say the same, is remembered
      at the instant of the finish. If they fill the threshold, the lane halts;
      and unless the call brings guidance of its own, the backoff is at least
      the baseline of the last of them. */
  lemma EveryRateResponseCounts(c: Config, s: State, p: Permit, outcome: Outcome, set_: ReceiptSet, now: Time, draws: Draws)
    requires Settles(c, s, p, outcome, Some(set_), now, draws.evicted)
    requires |draws.outcomes| == |OutcomesToRecord(NewReceipts(s, set_, now, draws.evicted), CallOutcome(outcome))|
    requires Past(s.circuit.rateEvents, now) && c.rateResponseWindow > 0 && ZERO < now
    ensures var (s', _, result) := FinishReceipts(c, s, p, outcome, Some(set_), now, draws);
            var n := Responses(outcome, NewReceipts(s, set_, now, draws.evicted));
            && s'.circuit.rateEvents == RecentRates(c, s.circuit.rateEvents, now) + Copies(now, n)
            && (n > 0 && |s'.circuit.rateEvents| >= c.rateResponseThreshold ==> Halts.Halted(s'.circuit))
            && (n > 0 && Unguided(outcome) ==> |s'.circuit.rateEvents| > 0 && result.backoff >= Baseline(|s'.circuit.rateEvents|))
  {
    hide Rejection, FinishReconciled, PolicyError, OutcomesToRecord, CallOutcome, YoungAttempts, Unseen, Responses, Past, Baseline;
    var novel := NewReceipts(s, set_, now, draws.evicted);
    var policy := PolicyError(c, set_, p, now, |novel| < |set_.receipts|);
    ReconcilingCounts(c, s.(attemptIDs := YoungAttempts(s.attemptIDs, now) - draws.evicted), p, outcome, set_.receipts, novel, policy, now,
                      draws.surveyed, draws.outcomes);
  }

  // ----- Over runs -----

  // Only the oldest responses are gone.
  predicate Forgot(s: State, s': State) {
    && |s'.circuit.rateEvents| <= |s.circuit.rateEvents|
    && s'.circuit.rateEvents == s.circuit.rateEvents[|s.circuit.rateEvents| - |s'.circuit.rateEvents|..]
  }

  lemma ForgettingKeepsPast(s: State, s': State, clock: Time, now: Time)
    requires Past(s.circuit.rateEvents, clock) && Forgot(s, s') && clock <= now
    ensures Past(s'.circuit.rateEvents, now)
  {
  }

  lemma ExpiryForgets(c: Config, s: State, task: Id, now: Time, choice: Choice)
    ensures Forgot(s, Lane.Expire(c, s, now, choice)) && Forgot(s, Survey(c, s, task, now, choice))
  {
    hide Lane.Expire, Bisect;
    DeliverySafety.ExpiredCircuit(c, s, now, choice);
  }

  lemma CheckForgets(c: Config, s: State, observed: Option<TelemetrySnapshot>, now: Time, request: Request, at: Time, checked: Choice)
    ensures var s1 := Observe(c, s, observed, now);
            s1.circuit.rateEvents == s.circuit.rateEvents && Forgot(s, Check(c, s1, request, now, at, checked).0)
  {
    hide Lane.Expire, CircuitVerdict, GateVerdict, BudgetVerdict, TelemetryAfter, CooldownAfter;
    ExpiryForgets(c, Observe(c, s, observed, now), request.task, now, checked);
  }

  lemma AskingForgets(c: Config, w: World, step: Label)
    requires Enabled(c, w, step) && (step.Admit? || step.Look? || step.Join?)
    ensures Forgot(w.gov, Step(c, w, step).gov)
  {
    hide Check, Observe, PruneRequests, YoungTasks, YoungAttempts, Keepers;
    match step {
      case Admit(request, at, observed, _, pruned, checked) => CheckForgets(c, Prune(w.gov, at, pruned), observed, at, request, at, checked);
      case Look(index, now, at, observed, _, checked) => CheckForgets(c, w.gov, observed, now, w.gov.queue[index].request, at, checked);
      case Join(_, _, _) =>
    }
  }

  lemma StartForgets(c: Config, s: State, p: Permit, receiptAware: bool, at: Time, choice: Choice)
    ensures Forgot(s, Lane.Start(c, s, p, receiptAware, at, choice).0)
  {
    hide Survey, Spend, TaskOf;
    ExpiryForgets(c, s, p.request.task, at, choice);
  }

  lemma FinishKeepsPast(c: Config, s: State, p: Permit, outcome: Outcome, now: Time, surveyed: Choice, draw: Draw)
    requires Past(s.circuit.rateEvents, now)
    ensures Past(Lane.Finish(c, s, p, outcome, now, surveyed, draw).0.circuit.rateEvents, now)
  {
    hide Survey, RecordOutcome, Past, Forgot;
    var s1 := Survey(c, s, p.request.task, now, surveyed);
    ExpiryForgets(c, s, p.request.task, now, surveyed);
    ForgettingKeepsPast(s, s1, now, now);
    RecordingKeepsPast(c, s1, p.request.task, now, outcome, draw);
  }

  lemma RecordingKeepsPast(c: Config, s: State, task: Id, now: Time, outcome: Outcome, draw: Draw)
    requires Past(s.circuit.rateEvents, now)
    ensures Past(RecordOutcome(c, s, task, now, outcome, draw).0.circuit.rateEvents, now)
  {
    hide Lane.Expire, SelectedBackoff, AsRecorded, Past, Forgot;
    var expired := Lane.Expire(c, s, now, draw.choice);
    ExpiryForgets(c, s, task, now, draw.choice);
    ForgettingKeepsPast(s, expired, now, now);
    OneMorePast(expired.circuit.rateEvents, now);
  }

  lemma OneMorePast(events: seq<Time>, now: Time)
    requires Past(events, now)
    ensures Past(events + [now], now)
  {
  }

  lemma ReceiptsKeepPast(c: Config, s: State, p: Permit, outcome: Outcome, set_: Option<ReceiptSet>, now: Time, draws: Draws)
    requires Past(s.circuit.rateEvents, now) && c.rateResponseWindow > 0 && ZERO < now
    requires Settles(c, s, p, outcome, set_, now, draws.evicted) ==>
      |draws.outcomes| == |OutcomesToRecord(NewReceipts(s, set_.value, now, draws.evicted), CallOutcome(outcome))|
    ensures Past(FinishReceipts(c, s, p, outcome, set_, now, draws).0.circuit.rateEvents, now)
  {
    hide Rejection, Survey, FinishReconciled, PolicyError, OutcomesToRecord, CallOutcome, YoungAttempts, Unseen, Past, Copies, Responses, RecentRates;
    if Settles(c, s, p, outcome, set_, now, draws.evicted) {
      EveryRateResponseCounts(c, s, p, outcome, set_.value, now, draws);
      RecentAgain(c, s.circuit.rateEvents, Responses(outcome, NewReceipts(s, set_.value, now, draws.evicted)), now);
    } else {
      var pruned := s.(attemptIDs := YoungAttempts(s.attemptIDs, now) - draws.evicted);
      FailureKeepsPast(c, s, p, now, draws.surveyed);
      FailureKeepsPast(c, pruned, p, now, draws.surveyed);
    }
  }

  lemma FailureKeepsPast(c: Config, s: State, p: Permit, now: Time, choice: Choice)
    requires Past(s.circuit.rateEvents, now)
    ensures Past(Survey(c, Distrusted(s), p.request.task, now, choice).circuit.rateEvents, now)
  {
    hide Survey;
    ExpiryForgets(c, Distrusted(s), p.request.task, now, choice);
    ForgettingKeepsPast(Distrusted(s), Survey(c, Distrusted(s), p.request.task, now, choice), now, now);
  }

  lemma QuietStepForgets(c: Config, w: World, step: Label)
    requires Enabled(c, w, step) && !step.Admit? && !step.Look? && !step.Join? && !step.Finish? && !step.FinishWithReceipts?
    ensures Forgot(w.gov, Step(c, w, step).gov)
  {
    hide Lane.Expire, Survey, Lane.Start;
    match step {
      case Begin(index, receiptAware, at, surveyed) => StartForgets(c, w.gov, w.permits[index], receiptAware, at, surveyed);
      case Save(at, pruned) => ExpiryForgets(c, w.gov, "", at, pruned);
      case Emit(task, at, surveyed) => ExpiryForgets(c, w.gov, task, at, surveyed);
      case _ =>
    }
  }

  ghost predicate RatesPast(w: World) {
    ZERO < w.clock && Past(w.gov.circuit.rateEvents, w.clock)
  }

  lemma StepKeepsRatesPast(c: Config, w: World, step: Label)
    requires c.Valid() && Enabled(c, w, step) && RatesPast(w)
    ensures RatesPast(Step(c, w, step))
  {
    StepSetsClock(c, w, step);
    if step.Finish? {
      hide Past, Lane.Finish;
      LaterPast(w.gov.circuit.rateEvents, w.clock, step.at);
      FinishKeepsPast(c, w.gov, w.permits[step.permit], step.outcome, step.at, step.surveyed, step.draw);
    } else if step.FinishWithReceipts? {
      hide Past, FinishReceipts, NewReceipts, OutcomesToRecord, CallOutcome, NewSightings;
      LaterPast(w.gov.circuit.rateEvents, w.clock, step.at);
      ReceiptsKeepPast(c, w.gov, w.permits[step.permit], step.outcome, step.set_, step.at, step.draws);
    } else {
      hide Step, Past, Forgot;
      if step.Admit? || step.Look? || step.Join? {
        AskingForgets(c, w, step);
      } else {
        QuietStepForgets(c, w, step);
      }
      ForgettingKeepsPast(w.gov, Step(c, w, step).gov, w.clock, Instant(w, step));
    }
  }

  lemma LaterPast(events: seq<Time>, clock: Time, now: Time)
    requires Past(events, clock) && clock <= now
    ensures Past(events, now)
  {
  }

  lemma {:induction false} RunKeepsRatesPast(c: Config, w: World, steps: seq<Label>)
    requires c.Valid() && Runnable(c, w, steps) && RatesPast(w)
    ensures RatesPast(Run(c, w, steps))
    decreases |steps|
  {
    hide Step, RatesPast;
    if steps != [] {
      StepKeepsRatesPast(c, w, steps[0]);
      RunKeepsRatesPast(c, Step(c, w, steps[0]), steps[1..]);
    }
  }

  // A call finishes whose receipts, with the responses remembered, fill the
  // threshold.
  ghost predicate FillsThreshold(c: Config, w: World, step: Label)
    requires Enabled(c, w, step)
  {
    step.FinishWithReceipts? &&
    var p := w.permits[step.permit];
    Settles(c, w.gov, p, step.outcome, step.set_, step.at, step.draws.evicted) &&
    var n := Responses(step.outcome, NewReceipts(w.gov, step.set_.value, step.at, step.draws.evicted));
    n > 0 && |RecentRates(c, w.gov.circuit.rateEvents, step.at)| + n >= c.rateResponseThreshold
  }

  lemma FillingHalts(c: Config, w: World, step: Label)
    requires c.Valid() && Enabled(c, w, step) && OneLane(w) && RatesPast(w) && FillsThreshold(c, w, step)
    ensures var w' := Step(c, w, step); |w'.permits| == |w.permits| && Halts.AllCompleted(w'.permits) && Halts.Halted(w'.gov.circuit)
  {
    hide FinishReceipts, Rejection, NewReceipts, OutcomesToRecord, CallOutcome, NewSightings, Responses, Past, Copies, RecentRates, Halts.Halted;
    var p := w.permits[step.permit];
    StepKeepsOneLane(c, w, step);
    LaterPast(w.gov.circuit.rateEvents, w.clock, step.at);
    EveryRateResponseCounts(c, w.gov, p, step.outcome, step.set_.value, step.at, step.draws);
    ReceiptFinishCompletes(c, w.gov, p, step.outcome, step.set_, step.at, step.draws);
  }

  /** After any history, a receipt-aware call whose rate responses fill the
      threshold, with those remembered before it, halts the lane: no later run
      grants a permit before an acknowledgement, a refresh that succeeds, or a
      window opened by telemetry. */
  lemma CrowdedReceiptsHaltTheLane(c: Config, clock: Time, history: seq<Label>, step: Label, steps: seq<Label>)
    requires c.Valid() && ZERO < clock && Runnable(c, Initially(clock), history)
    requires var w := Run(c, Initially(clock), history); Enabled(c, w, step) && FillsThreshold(c, w, step) && Runnable(c, Step(c, w, step), steps)
    requires forall i :: 0 <= i < |steps| ==> !Halts.Releases(steps[i]) && !Halts.OpensWindow(steps[i])
    ensures var w := Run(c, Initially(clock), history); |Run(c, Step(c, w, step), steps).permits| == |w.permits|
  {
    hide Runnable, Run, Step, Enabled, FillsThreshold, Halts.Releases, Halts.OpensWindow, Halts.AllCompleted, Halts.Halted;
    var w := Run(c, Initially(clock), history);
    FreshIsPast(clock);
    RunKeepsOneLane(c, Initially(clock), history);
    RunKeepsRatesPast(c, Initially(clock), history);
    FillingHalts(c, w, step);
    Halts.RunStaysHalted(c, Step(c, w, step), steps);
  }

  lemma FreshIsPast(clock: Time)
    requires ZERO < clock
    ensures RatesPast(Initially(clock)) && OneLane(Initially(clock))
  {
  }
}
