/** The sliding-window rate limit, over whole runs of plain and receipt-aware
    calls.

    What counts is what the governor debits: a plain call at its start, a
    receipt-aware one when it finishes, at the instants its receipts give. One
    call may report more attempts than the check before it foresaw; the lane
    then stops for good.
 */
module RateLimits {
  import opened Clock
  import opened Policy
  import opened Ledger
  import opened Retention
  import opened AttemptReceipts
  import opened Lane
  import opened Runs
  import opened SingleLane
  import opened Windows
  import opened LedgerOrder
  import opened ReceiptConservation
  import opened ReceiptRuns

  // ----- The history of debits -----

  function Instants(events: seq<Event>): (instants: seq<Time>)
    ensures |instants| == |events|
  {
    seq(|events|, i requires 0 <= i < |events| => events[i].at)
  }

  // The instants of everything debited during a run.
  function DebitTimes(c: Config, w: World, steps: seq<Label>): seq<Time>
    requires Runnable(c, w, steps)
    decreases |steps|
  {
    if steps == [] then [] else Instants(ChargesOf(c, w, steps[0])) + DebitTimes(c, Step(c, w, steps[0]), steps[1..])
  }

  // How many of them the last debiting call made.
  function LastCallDebits(c: Config, w: World, steps: seq<Label>): nat
    requires Runnable(c, w, steps)
    decreases |steps|
  {
    if steps == [] then 0
    else
      var later := LastCallDebits(c, Step(c, w, steps[0]), steps[1..]);
      if later > 0 then later else |ChargesOf(c, w, steps[0])|
  }

  function Excess(debits: nat): nat {
    if debits > 1 then debits - 1 else 0
  }

  // ----- What the governor remembers of it -----

  // Every window that may matter from `clock` on counts at least the debits
  // that lie in it.
  ghost predicate Counted(ledger: seq<Event>, past: seq<Time>, clock: Time) {
    forall cutoff, k :: clock - THREE_HOURS <= cutoff && 0 <= k < |past| && past[k] > cutoff ==> |past| - k <= CountAfter(ledger, cutoff)
  }

  // What the history holds happened by `clock`, in this order.
  predicate Passed(past: seq<Time>, clock: Time) {
    Ascending(past) && forall i :: 0 <= i < |past| ==> ZERO < past[i] <= clock
  }

  predicate Remembered(s: State, past: seq<Time>) {
    s.lastStart == (if past == [] then ZERO else past[|past| - 1])
  }

  // Any `ceiling + 1` consecutive debits span at least the window.
  ghost predicate Paced(past: seq<Time>, window: Duration, ceiling: int) {
    forall i, j :: 0 <= i < j < |past| && j - i >= ceiling ==> past[i] + window <= past[j]
  }

  // One more debit at or after `t` keeps them paced.
  ghost predicate Ready(past: seq<Time>, window: Duration, ceiling: int, t: Time) {
    forall i :: 0 <= i < |past| && |past| - i >= ceiling ==> past[i] + window <= t
  }

  // Consecutive debits are ceiling-one paced by the minimum interval.
  ghost predicate AllPaced(c: Config, past: seq<Time>) {
    && Paced(past, c.minimumStartInterval, 1)
    && (c.Numeric() ==> Paced(past, THREE_HOURS, c.rolling3h) && Paced(past, HOUR, c.rolling1h) && Paced(past, TEN_MINUTES, c.rolling10m))
  }

  ghost predicate AllReady(c: Config, past: seq<Time>, t: Time) {
    && Ready(past, c.minimumStartInterval, 1, t)
    && (c.Numeric() ==> Ready(past, THREE_HOURS, c.rolling3h, t) && Ready(past, HOUR, c.rolling1h, t) && Ready(past, TEN_MINUTES, c.rolling10m, t))
  }

  lemma ReadyThenPaced(past: seq<Time>, window: Duration, ceiling: int, t: Time, at: Time)
    requires Paced(past, window, ceiling) && Ready(past, window, ceiling, t) && t <= at
    ensures Paced(past + [at], window, ceiling)
  {
  }

  lemma AllReadyThenAllPaced(c: Config, past: seq<Time>, t: Time, at: Time)
    requires AllPaced(c, past) && AllReady(c, past, t) && t <= at
    ensures AllPaced(c, past + [at])
  {
    hide Paced, Ready;
    ReadyThenPaced(past, c.minimumStartInterval, 1, t, at);
    if c.Numeric() {
      ReadyThenPaced(past, THREE_HOURS, c.rolling3h, t, at);
      ReadyThenPaced(past, HOUR, c.rolling1h, t, at);
      ReadyThenPaced(past, TEN_MINUTES, c.rolling10m, t, at);
    }
  }

  lemma ReadyStays(c: Config, past: seq<Time>, t: Time, later: Time)
    requires AllReady(c, past, t) && t <= later
    ensures AllReady(c, past, later)
  {
  }

  // ----- Counting -----

  lemma {:induction false} CountAfterTail(events: seq<Event>, from: nat, cutoff: Time)
    requires from <= |events| && forall i :: from <= i < |events| ==> events[i].at > cutoff
    ensures |events| - from <= CountAfter(events, cutoff)
  {
    if events != [] {
      CountAfterTail(events[1..], if from == 0 then 0 else from - 1, cutoff);
    }
  }

  lemma GrowingCounts(before: seq<Event>, after: seq<Event>, charges: seq<Event>, now: Time, cutoff: Time)
    requires Grown(before, after, charges, now) && now - THREE_HOURS <= cutoff
    ensures CountAfter(after, cutoff) == CountAfter(before, cutoff) + CountAfter(charges, cutoff)
  {
    var all, gone := before + charges, |before + charges| - |after|;
    assert all == all[..gone] + after;
    CountAfterConcat(before, charges, cutoff);
    CountAfterConcat(all[..gone], after, cutoff);
    CountAfterNone(all[..gone], cutoff);
  }

  lemma GrowingKeepsCounted(before: seq<Event>, after: seq<Event>, charges: seq<Event>, past: seq<Time>, clock: Time, now: Time)
    requires Grown(before, after, charges, now) && Counted(before, past, clock) && clock <= now
    requires Ascending(past + Instants(charges))
    ensures Counted(after, past + Instants(charges), now)
  {
    var all := past + Instants(charges);
    forall cutoff, k | now - THREE_HOURS <= cutoff && 0 <= k < |all| && all[k] > cutoff
      ensures |all| - k <= CountAfter(after, cutoff)
    {
      GrowingCounts(before, after, charges, now, cutoff);
      var from := if k < |past| then 0 else k - |past|;
      forall i | from <= i < |charges|
        ensures charges[i].at > cutoff
      {
        assert all[k] <= all[|past| + i];
      }
      CountAfterTail(charges, from, cutoff);
      if k < |past| {
        assert past[k] > cutoff;
      }
    }
  }

  // A window the ledger does not block has room for one more debit.
  lemma UnblockedIsReady(ledger: seq<Event>, past: seq<Time>, now: Time, at: Time, window: Duration, ceiling: int)
    requires Counted(ledger, past, at) && ZERO < now <= at && window <= THREE_HOURS && ceiling > 0
    requires NextFree(ledger, now, window, ceiling) == ZERO
    ensures Ready(past, window, ceiling, at)
  {
    hide CountAfter, FirstAfter, NextFree;
    ZeroMeansRoom(ledger, now, window, ceiling);
    CountAfterMoves(ledger, now - window, at - window);
    forall i | 0 <= i < |past| && |past| - i >= ceiling
      ensures past[i] + window <= at
    {
      assert past[i] > at - window ==> |past| - i <= CountAfter(ledger, at - window);
    }
  }

  lemma ZeroMeansRoom(ledger: seq<Event>, now: Time, window: Duration, ceiling: int)
    requires ZERO < now && ceiling > 0 && NextFree(ledger, now, window, ceiling) == ZERO
    ensures CountAfter(ledger, now - window) < ceiling
  {
    hide CountAfter, FirstAfter;
    if FirstAfter(ledger, now - window) == |ledger| {
      CountAfterNone(ledger, now - window);
    }
  }

  lemma PassMeansReady(c: Config, s: State, request: Request, now: Time, at: Time, choice: Choice, past: seq<Time>, clock: Time)
    requires c.Valid() && Counted(s.ledger, past, clock) && Remembered(s, past) && Passed(past, clock)
    requires clock <= at && ZERO < now <= at
    requires Check(c, s, request, now, at, choice).1.Pass?
    ensures AllReady(c, past, at)
  {
    hide Lane.Expire, CircuitChecked, GateVerdict, NextFree, Ready, Counted, Touched, Grown, Aged;
    var s1 := Check(c, s, request, now, at, choice).0;
    CheckAges(c, s, request, now, at, choice);
    AgingKeepsCounted(s, s1, past, now, clock, at);
    if c.Numeric() {
      UnblockedIsReady(s1.ledger, past, now, at, THREE_HOURS, c.rolling3h);
      UnblockedIsReady(s1.ledger, past, now, at, HOUR, c.rolling1h);
      UnblockedIsReady(s1.ledger, past, now, at, TEN_MINUTES, c.rolling10m);
    }
    LastStartDecides(c, s1, past, now, at);
  }

  lemma AgingKeepsCounted(s: State, s': State, past: seq<Time>, now: Time, clock: Time, later: Time)
    requires Aged(s, s', now) && Counted(s.ledger, past, clock) && now <= later && clock <= later && Ascending(past)
    ensures Counted(s'.ledger, past, later) && s'.lastStart == s.lastStart
  {
    hide Counted, Grown;
    AgedIsGrown(s, s', now);
    LaterIsGrown(s.ledger, s'.ledger, [], now, later);
    assert past + Instants([]) == past;
    GrowingKeepsCounted(s.ledger, s'.ledger, [], past, clock, later);
  }

  lemma LaterIsGrown(before: seq<Event>, after: seq<Event>, charges: seq<Event>, now: Time, later: Time)
    requires Grown(before, after, charges, now) && now <= later
    ensures Grown(before, after, charges, later)
  {
  }

  lemma LastStartDecides(c: Config, s: State, past: seq<Time>, now: Time, at: Time)
    requires Remembered(s, past) && now <= at && Passed(past, at)
    requires s.lastStart == ZERO || s.lastStart + c.minimumStartInterval <= now
    ensures Ready(past, c.minimumStartInterval, 1, at)
  {
  }

  // ----- Steps -----

  // As long as the lane can be trusted, its debits are paced, it remembers
  // them, and whoever holds a permit has room for one more.
  ghost predicate Orderly(c: Config, w: World, past: seq<Time>) {
    && AllPaced(c, past) && Counted(w.gov.ledger, past, w.clock) && Remembered(w.gov, past)
    && (forall i :: 0 <= i < |w.permits| && !w.permits[i].completed ==>
          if !w.permits[i].started then AllReady(c, past, w.clock)
          else w.permits[i].receiptAware ==> ZERO < w.permits[i].startedAt <= w.clock && AllReady(c, past, w.permits[i].startedAt))
  }

  // The debits paced but for the last `over` ones, which belong to the call
  // that stopped the lane.
  ghost predicate Limited(c: Config, w: World, past: seq<Time>, over: nat) {
    && OneLane(w) && ZERO < w.clock && Passed(past, w.clock)
    && over <= |past| && AllPaced(c, past[..|past| - over])
    && ((over == 0 && Orderly(c, w, past)) || (Unsafe(w.gov) && forall i :: 0 <= i < |w.permits| ==> w.permits[i].completed))
  }

  lemma AdmitMeansReady(c: Config, s: State, request: Request, at: Time, observed: Option<TelemetrySnapshot>, cancelled: bool,
                        pruned: Choice, checked: Choice, past: seq<Time>, clock: Time)
    requires c.Valid() && Counted(s.ledger, past, clock) && Remembered(s, past) && Passed(past, clock) && clock <= at && ZERO < clock
    requires TryAdmit(c, s, request, at, observed, cancelled, pruned, checked).1.Granted?
    ensures AllReady(c, past, at)
  {
    hide Check, Prune, Observe, Aged, Counted, AllReady;
    var s1 := Prune(s, at, pruned);
    var s2 := Observe(c, s1, observed, at);
    PruneAges(s, at, pruned);
    ObserveAges(c, s1, observed, at);
    AgingKeepsCounted(s, s1, past, at, clock, at);
    AgingKeepsCounted(s1, s2, past, at, at, at);
    PassMeansReady(c, s2, request, at, at, checked, past, at);
  }

  lemma LookMeansReady(c: Config, s: State, index: nat, now: Time, at: Time, observed: Option<TelemetrySnapshot>, cancelled: bool,
                       checked: Choice, past: seq<Time>, clock: Time)
    requires c.Valid() && Counted(s.ledger, past, clock) && Remembered(s, past) && Passed(past, clock)
    requires clock <= at && ZERO < now <= at && index < |s.queue|
    requires QueueCheck(c, s, index, now, at, observed, cancelled, checked).1.Granted?
    ensures AllReady(c, past, at)
  {
    hide Check, Observe, Aged, Counted, AllReady;
    var s1 := Observe(c, s, observed, now);
    ObserveAges(c, s, observed, now);
    AgingKeepsCounted(s, s1, past, now, clock, at);
    PassMeansReady(c, s1, s.queue[index].request, now, at, checked, past, at);
  }

  // A section that charges nothing, grants aside.
  lemma QuietKeepsMemory(c: Config, w: World, step: Label, past: seq<Time>)
    requires Enabled(c, w, step) && Counted(w.gov.ledger, past, w.clock) && Remembered(w.gov, past) && Passed(past, w.clock)
    requires !step.Begin? && !step.FinishWithReceipts?
    ensures var w' := Step(c, w, step); Counted(w'.gov.ledger, past, w'.clock) && Remembered(w'.gov, past) && Passed(past, w'.clock)
  {
    hide Step, Counted, Aged, Enabled;
    var w' := Step(c, w, step);
    StepSetsClock(c, w, step);
    EnabledMeansLater(c, w, step);
    if step.Admit? || step.Look? || step.Join? {
      CallerStepAges(c, w, step);
    } else if step.Finish? {
      FinishStepAges(c, w, step);
    } else {
      QuietStepAges(c, w, step);
    }
    AgingKeepsCounted(w.gov, w'.gov.(inFlight := w.gov.inFlight, activeTask := w.gov.activeTask), past, w'.clock, w.clock, w'.clock);
  }

  lemma CallerStepKeepsOrder(c: Config, w: World, step: Label, past: seq<Time>)
    requires c.Valid() && Enabled(c, w, step) && Limited(c, w, past, 0) && Orderly(c, w, past) && (step.Admit? || step.Look? || step.Join?)
    ensures Orderly(c, Step(c, w, step), past)
  {
    hide Lane.TryAdmit, QueueCheck, Enqueue, OneLane, Counted, AllPaced, AllReady, Remembered, Passed;
    var w' := Step(c, w, step);
    QuietKeepsMemory(c, w, step, past);
    match step {
      case Admit(request, at, observed, cancelled, pruned, checked) =>
        if TryAdmit(c, w.gov, request, at, observed, cancelled, pruned, checked).1.Granted? {
          AdmitMeansReady(c, w.gov, request, at, observed, cancelled, pruned, checked, past, w.clock);
        }
      case Look(index, now, at, observed, cancelled, checked) =>
        if QueueCheck(c, w.gov, index, now, at, observed, cancelled, checked).1.Granted? {
          LookMeansReady(c, w.gov, index, now, at, observed, cancelled, checked, past, w.clock);
        }
      case Join(_, _, _) =>
    }
    GrantedAreFresh(c, w, step);
    if AllReady(c, past, w.clock) {
      ReadyStays(c, past, w.clock, w'.clock);
    }
  }

  lemma StartMemory(c: Config, s: State, p: Permit, receiptAware: bool, at: Time, choice: Choice)
    requires StartError(s, p).None?
    ensures var (s', p', error) := Start(c, s, p, receiptAware, at, choice);
            && error.None? && s'.lastStart == (if receiptAware then s.lastStart else at)
            && p'.started && p'.completed == p.completed && p'.receiptAware == receiptAware && p'.startedAt == at
  {
    hide Survey, Spend;
    SurveyAges(c, s, p.request.task, at, choice);
  }

  lemma StartKeepsOrder(c: Config, w: World, step: Label, past: seq<Time>)
    requires Enabled(c, w, step) && Limited(c, w, past, 0) && Orderly(c, w, past) && step.Begin?
    requires StartError(w.gov, w.permits[step.permit]).None?
    ensures Passed(past + Instants(ChargesOf(c, w, step)), step.at) && Orderly(c, Step(c, w, step), past + Instants(ChargesOf(c, w, step)))
  {
    hide Lane.Start, OneLane, Counted, AllPaced, AllReady, Grown;
    var p, at, w' := w.permits[step.permit], step.at, Step(c, w, step);
    StartMemory(c, w.gov, p, step.receiptAware, at, step.surveyed);
    StartGrows(c, w.gov, p, step.receiptAware, at, step.surveyed);
    OnlyTheLastIsLive(w);
    var charges := ChargesOf(c, w, step);
    assert Instants(charges) == if step.receiptAware then [] else [at];
    assert past + [] == past;
    GrowingKeepsCounted(w.gov.ledger, w'.gov.ledger, charges, past, w.clock, at);
    ReadyStays(c, past, w.clock, at);
    if !step.receiptAware {
      AllReadyThenAllPaced(c, past, w.clock, at);
    }
  }

  lemma OnlyTheLastIsLive(w: World)
    requires OneLane(w)
    ensures forall i :: 0 <= i < |w.permits| && !w.permits[i].completed ==> i == |w.permits| - 1
  {
  }

  // The remaining steps start nothing and grant nothing.
  lemma OtherStepKeepsPermits(c: Config, w: World, step: Label)
    requires Enabled(c, w, step) && !(step.Admit? || step.Look? || step.Join? || step.Begin?)
    ensures var w' := Step(c, w, step);
            && w'.starts == w.starts && |w'.permits| == |w.permits|
            && (forall i :: 0 <= i < |w.permits| ==> w'.permits[i] in {w.permits[i], w.permits[i].(completed := true)})
            && (step.FinishWithReceipts? && !w.permits[step.permit].receiptAware ==> w'.gov == w.gov)
  {
    hide Survey, RecordOutcome, FinishReceipts, Rejection, NewReceipts, OutcomesToRecord, CallOutcome, Complete;
    if step.FinishWithReceipts? {
      ReceiptFinishCompletes(c, w.gov, w.permits[step.permit], step.outcome, step.set_, step.at, step.draws);
    }
  }

  lemma OtherStepKeepsOrder(c: Config, w: World, step: Label, past: seq<Time>)
    requires Enabled(c, w, step) && Limited(c, w, past, 0) && Orderly(c, w, past)
    requires !(step.Admit? || step.Look? || step.Join? || step.Begin? || step.FinishWithReceipts?)
    ensures Orderly(c, Step(c, w, step), past)
  {
    hide Step, Enabled, Counted, AllPaced, AllReady, OneLane, Remembered, Passed;
    var w' := Step(c, w, step);
    StepSetsClock(c, w, step);
    EnabledMeansLater(c, w, step);
    QuietKeepsMemory(c, w, step, past);
    OtherStepKeepsPermits(c, w, step);
    if AllReady(c, past, w.clock) {
      ReadyStays(c, past, w.clock, w'.clock);
    }
  }

  // ----- A receipt finish -----

  // A set that raises no complaint has one receipt, and it is new.
  lemma NoComplaintMeansOne(c: Config, s: State, p: Permit, outcome: Outcome, set_: Option<ReceiptSet>, now: Time, draws: Draws)
    requires FinishError(p).None? && p.receiptAware
    requires Settles(c, s, p, outcome, set_, now, draws.evicted) ==>
      |draws.outcomes| == |OutcomesToRecord(NewReceipts(s, set_.value, now, draws.evicted), CallOutcome(outcome))|
    requires FinishReceipts(c, s, p, outcome, set_, now, draws).2.error.None?
    ensures set_.Some? && Rejection(set_.value, Expected(c, p, now)).None? && |NewReceipts(s, set_.value, now, draws.evicted)| == 1
    ensures FinishReceipts(c, s, p, outcome, set_, now, draws).0.lastStart
         == Max(s.lastStart, LatestStart(NewReceipts(s, set_.value, now, draws.evicted), p.startedAt, now))
  {
    hide Rejection, OutcomesToRecord, CallOutcome, Unseen, YoungAttempts, Survey, DebitReceipts, RecordAll, Remember, LatestStart, SettledClass,
         DebitUncertain, Aged;
    if set_.Some? && Rejection(set_.value, Expected(c, p, now)).None? {
      var seen := YoungAttempts(s.attemptIDs, now) - draws.evicted;
      UnseenSize(set_.value.receipts, seen);
      if |set_.value.receipts| > 1 {
        SeveralAreRefused(c, set_.value, p, now);
      }
      var novel := NewReceipts(s, set_.value, now, draws.evicted);
      if novel != [] {
        ReconcilingKeepsLastStart(c, s.(attemptIDs := seen), p, outcome, novel, now, draws);
      }
    }
  }

  lemma ReconcilingKeepsLastStart(c: Config, s: State, p: Permit, outcome: Outcome, novel: seq<Receipt>, now: Time, draws: Draws)
    requires novel != [] && |draws.outcomes| == |OutcomesToRecord(novel, CallOutcome(outcome))|
    ensures var s1 := Reconciled(c, s, p, novel, now, draws.surveyed);
            RecordAll(c, s1, p.request.task, now, OutcomesToRecord(novel, CallOutcome(outcome)), draws.outcomes).0.lastStart == s.lastStart
  {
    hide Survey, DebitReceipts, RecordAll, OutcomesToRecord, CallOutcome, Remember;
    var remembered := s.(attemptIDs := Remember(s.attemptIDs, novel, now));
    SurveyAges(c, remembered, p.request.task, now, draws.surveyed);
    var s1 := Survey(c, remembered, p.request.task, now, draws.surveyed);
    DebitReceiptsAdd(c, s1, p, novel, now);
    RecordAllAges(c, Reconciled(c, s, p, novel, now, draws.surveyed), p.request.task, now, OutcomesToRecord(novel, CallOutcome(outcome)), draws.outcomes);
  }

  lemma {:induction false} ChargedAt(p: Permit, receipts: seq<Receipt>, now: Time, i: nat)
    requires i < |receipts|
    ensures Charged(p, receipts, now)[i].at == Normalized(receipts[i].startedAt, p.startedAt, now)
  {
    if i > 0 {
      ChargedAt(p, receipts[1..], now, i - 1);
    }
  }

  lemma SurveyKeepsLastStart(c: Config, s: State, task: Id, now: Time, choice: Choice)
    ensures Survey(c, s, task, now, choice).lastStart == s.lastStart
  {
    hide Survey;
    SurveyAges(c, s, task, now, choice);
  }

  lemma {:induction false} LatestStartIs(receipts: seq<Receipt>, localStart: Time, now: Time)
    ensures var latest := LatestStart(receipts, localStart, now);
            && (forall i :: 0 <= i < |receipts| ==> Normalized(receipts[i].startedAt, localStart, now) <= latest)
            && (latest == ZERO || exists i :: 0 <= i < |receipts| && Normalized(receipts[i].startedAt, localStart, now) == latest)
  {
    if receipts != [] {
      var last := |receipts| - 1;
      LatestStartIs(receipts[..last], localStart, now);
      assert forall i :: 0 <= i < last ==> receipts[..last][i] == receipts[i];
    }
  }

  /** Where a receipt finish leaves the lane's last start: at the debit of a set
      that is refused; otherwise at the latest of what it was and the debits. */
  lemma LastStartFollowsTheDebits(c: Config, s: State, p: Permit, outcome: Outcome, set_: Option<ReceiptSet>, now: Time, draws: Draws)
    requires FinishError(p).None? && p.receiptAware && ZERO <= s.lastStart
    requires Settles(c, s, p, outcome, set_, now, draws.evicted) ==>
      |draws.outcomes| == |OutcomesToRecord(NewReceipts(s, set_.value, now, draws.evicted), CallOutcome(outcome))|
    ensures var valid := set_.Some? && Rejection(set_.value, Expected(c, p, now)).None?;
            var charges := Charges(s, p, set_, valid, now, draws.evicted);
            var last := FinishReceipts(c, s, p, outcome, set_, now, draws).0.lastStart;
            && (!valid ==> last == charges[0].at)
            && (valid ==> s.lastStart <= last && forall i :: 0 <= i < |charges| ==> charges[i].at <= last)
            && (valid ==> last == s.lastStart || exists i :: 0 <= i < |charges| && charges[i].at == last)
  {
    hide Rejection, OutcomesToRecord, CallOutcome, Unseen, YoungAttempts, FinishReconciled, ReceiptFailure, LatestStart, Normalized, Charged, PolicyError;
    if set_.Some? && Rejection(set_.value, Expected(c, p, now)).None? {
      var pruned := s.(attemptIDs := YoungAttempts(s.attemptIDs, now) - draws.evicted);
      var novel := NewReceipts(s, set_.value, now, draws.evicted);
      var policy := PolicyError(c, set_.value, p, now, |novel| < |set_.value.receipts|);
      if novel != [] {
        ReconciledLastStart(c, pruned, p, outcome, set_.value.receipts, novel, policy, now, draws);
        LatestStartIs(novel, p.startedAt, now);
        forall i | 0 <= i < |novel|
          ensures Charged(p, novel, now)[i].at == Normalized(novel[i].startedAt, p.startedAt, now)
        {
          ChargedAt(p, novel, now, i);
        }
      } else {
        FailureLastStart(c, pruned, p, if policy.Some? then policy.value else ReceiptReplayed, false, outcome.delivery, now, draws.surveyed);
      }
    } else {
      FailureLastStart(c, s, p, ReceiptsInvalid, true, outcome.delivery, now, draws.surveyed);
    }
  }

  lemma ReconciledLastStart(c: Config, s: State, p: Permit, outcome: Outcome, receipts: seq<Receipt>, novel: seq<Receipt>,
                            error: Option<PermitError>, now: Time, draws: Draws)
    requires novel != [] && |draws.outcomes| == |OutcomesToRecord(novel, CallOutcome(outcome))|
    ensures FinishReconciled(c, s, p, outcome, receipts, novel, error, now, draws.surveyed, draws.outcomes).0.lastStart
         == Max(s.lastStart, LatestStart(novel, p.startedAt, now))
  {
    hide Reconciled, RecordAll, OutcomesToRecord, CallOutcome, LatestStart, SettledClass, ConcludedResult;
    ReconcilingKeepsLastStart(c, s, p, outcome, novel, now, draws);
  }

  lemma FailureLastStart(c: Config, s: State, p: Permit, error: PermitError, debit: bool, delivery: Delivery, now: Time, choice: Choice)
    ensures ReceiptFailure(c, s, p, error, debit, delivery, now, choice).0.lastStart
         == if !debit then s.lastStart else if p.startedAt == ZERO then now else p.startedAt
  {
    hide Survey, Spend, TaskOf;
    SurveyKeepsLastStart(c, Distrusted(s), p.request.task, now, choice);
  }

  // The first debit of a finish finds the room its call was granted; the rest
  // of them, if any, are the excess.
  lemma ReceiptFinishKeepsLimits(c: Config, w: World, step: Label, past: seq<Time>)
    requires Enabled(c, w, step) && Limited(c, w, past, 0) && Orderly(c, w, past) && step.FinishWithReceipts?
    requires FinishError(w.permits[step.permit]).None? && w.permits[step.permit].receiptAware
    requires InTime(w, false) && c.Valid()
    ensures var charges := ChargesOf(c, w, step); Limited(c, Step(c, w, step), past + Instants(charges), Excess(|charges|))
  {
    hide FinishReceipts, Rejection, NewReceipts, OutcomesToRecord, CallOutcome, Charges, Counted, AllPaced, AllReady, Grown, Unsafe, InTime, OneLane,
         NewSightings;
    var p, at, w', charges := w.permits[step.permit], step.at, Step(c, w, step), ChargesOf(c, w, step);
    var all := past + Instants(charges);
    StepKeepsOneLane(c, w, step);
    ReceiptFinishCompletes(c, w.gov, p, step.outcome, step.set_, at, step.draws);
    OnlyTheLastIsLive(w);
    FinishReceiptsStaysUnsafe(c, w.gov, p, step.outcome, step.set_, at, step.draws);
    ChargesPass(c, w, step, past);
    FirstChargePaced(c, past, charges, p.startedAt);
    ReadyMeansBefore(c, past, p.startedAt);
    if FinishReceipts(c, w.gov, p, step.outcome, step.set_, at, step.draws).2.error.None? {
      NoComplaintMeansOne(c, w.gov, p, step.outcome, step.set_, at, step.draws);
      OneCharge(c, w, step);
      StepGrows(c, w, step);
      GrowingKeepsCounted(w.gov.ledger, w'.gov.ledger, charges, past, w.clock, at);
      assert Remembered(w'.gov, all) by {
        LatestIsRemembered(w.gov, past, w.clock, charges[0].at, p.startedAt);
      }
      assert all[..|all| - 0] == all;
    } else {
      StoppedIsLimited(c, w', all, Excess(|charges|));
    }
  }

  lemma StoppedIsLimited(c: Config, w: World, past: seq<Time>, over: nat)
    requires OneLane(w) && ZERO < w.clock && Passed(past, w.clock) && over <= |past| && AllPaced(c, past[..|past| - over])
    requires Unsafe(w.gov) && forall i :: 0 <= i < |w.permits| ==> w.permits[i].completed
    ensures Limited(c, w, past, over)
  {
    hide OneLane, Passed, AllPaced;
  }

  lemma LatestIsRemembered(s: State, past: seq<Time>, clock: Time, latest: Time, startedAt: Time)
    requires Remembered(s, past) && Passed(past, clock) && ZERO < latest && (past != [] ==> past[|past| - 1] <= latest)
    ensures Max(s.lastStart, Max(ZERO, latest)) == latest
  {
  }

  // A call with one new receipt charges it once, inside its own interval.
  lemma OneCharge(c: Config, w: World, step: Label)
    requires Enabled(c, w, step) && step.FinishWithReceipts?
    requires var p := w.permits[step.permit];
             && FinishError(p).None? && p.receiptAware && step.set_.Some? && Rejection(step.set_.value, Expected(c, p, step.at)).None?
             && |NewReceipts(w.gov, step.set_.value, step.at, step.draws.evicted)| == 1
    ensures var p := w.permits[step.permit];
            var novel := NewReceipts(w.gov, step.set_.value, step.at, step.draws.evicted);
            |ChargesOf(c, w, step)| == 1 && LatestStart(novel, p.startedAt, step.at) == Max(ZERO, ChargesOf(c, w, step)[0].at)
  {
    hide Rejection, NewReceipts;
    var p, novel := w.permits[step.permit], NewReceipts(w.gov, step.set_.value, step.at, step.draws.evicted);
    assert LatestStart(novel[..0], p.startedAt, step.at) == ZERO;
    assert novel[1..] == [];
  }

  lemma ChargesPass(c: Config, w: World, step: Label, past: seq<Time>)
    requires Enabled(c, w, step) && step.FinishWithReceipts? && InTime(w, false) && ZERO < w.clock && Orderly(c, w, past) && Passed(past, w.clock)
    requires FinishError(w.permits[step.permit]).None? && w.permits[step.permit].receiptAware && c.Valid()
    ensures var charges := ChargesOf(c, w, step);
            && Passed(past + Instants(charges), step.at)
            && forall i :: 0 <= i < |charges| ==> w.permits[step.permit].startedAt <= charges[i].at
  {
    hide Rejection, NewReceipts, Counted, AllPaced, AllReady, Charges, Sorted;
    var p, charges := w.permits[step.permit], ChargesOf(c, w, step);
    OnlyTheLastIsLive(w);
    ChargesInTime(c, w, step, false);
    ReadyMeansBefore(c, past, p.startedAt);
    ChargesFollowStart(w.gov, p, step.set_, step.set_.Some? && Rejection(step.set_.value, Expected(c, p, step.at)).None?, step.at, step.draws.evicted);
    InstantsPass(past, charges, p.startedAt, step.at);
  }

  lemma ChargesFollowStart(s: State, p: Permit, set_: Option<ReceiptSet>, valid: bool, now: Time, evicted: set<Id>)
    requires ZERO < p.startedAt <= now
    ensures var charges := Charges(s, p, set_, valid, now, evicted);
            forall i :: 0 <= i < |charges| ==> p.startedAt <= charges[i].at <= now
  {
    hide NewReceipts;
  }

  lemma InstantsPass(past: seq<Time>, charges: seq<Event>, since: Time, now: Time)
    requires Passed(past, since) && ZERO < since <= now && Sorted(charges)
    requires forall i :: 0 <= i < |charges| ==> since <= charges[i].at <= now
    ensures Passed(past + Instants(charges), now)
  {
  }

  lemma ReadyMeansBefore(c: Config, past: seq<Time>, t: Time)
    requires c.Valid() && AllReady(c, past, t)
    ensures forall i :: 0 <= i < |past| ==> past[i] <= t
  {
  }

  lemma FirstChargePaced(c: Config, past: seq<Time>, charges: seq<Event>, startedAt: Time)
    requires AllPaced(c, past) && AllReady(c, past, startedAt)
    requires forall i :: 0 <= i < |charges| ==> startedAt <= charges[i].at
    ensures var all := past + Instants(charges); AllPaced(c, all[..|all| - Excess(|charges|)])
  {
    hide AllPaced, AllReady;
    var all := past + Instants(charges);
    if charges == [] {
      assert all[..|all| - 0] == past;
    } else {
      AllReadyThenAllPaced(c, past, startedAt, charges[0].at);
      assert all[..|past| + 1] == past + [charges[0].at];
    }
  }

  // ----- Runs -----

  // Once the lane has stopped nothing is debited any more.
  lemma StoppedStays(c: Config, w: World, step: Label, past: seq<Time>, over: nat)
    requires Enabled(c, w, step) && Limited(c, w, past, over)
    requires Unsafe(w.gov) && forall i :: 0 <= i < |w.permits| ==> w.permits[i].completed
    ensures ChargesOf(c, w, step) == [] && Limited(c, Step(c, w, step), past, over)
  {
    hide Step, AllPaced, OneLane, Unsafe, Enabled;
    var w' := Step(c, w, step);
    StepKeepsOneLane(c, w, step);
    StepSetsClock(c, w, step);
    EnabledMeansLater(c, w, step);
    NothingLeftToCharge(c, w, step);
    if step.Admit? || step.Look? || step.Join? {
      AskingStaysUnsafe(c, w, step);
    } else {
      OtherStepStaysUnsafe(c, w, step);
    }
    forall i | 0 <= i < |w'.permits|
      ensures w'.permits[i].completed
    {
      CompletedForGood(c, w, step, i);
    }
    StoppedIsLimited(c, w', past, over);
  }

  lemma NothingLeftToCharge(c: Config, w: World, step: Label)
    requires Enabled(c, w, step) && forall i :: 0 <= i < |w.permits| ==> w.permits[i].completed
    ensures ChargesOf(c, w, step) == []
  {
    hide Charges;
  }

  lemma OrderlyStep(c: Config, w: World, step: Label, past: seq<Time>)
    requires c.Valid() && Enabled(c, w, step) && Limited(c, w, past, 0) && Orderly(c, w, past) && InTime(w, false)
    ensures var charges := ChargesOf(c, w, step); Limited(c, Step(c, w, step), past + Instants(charges), Excess(|charges|))
  {
    hide Step, OneLane, Orderly, AllPaced, InTime, Charges, OutcomesToRecord, NewReceipts;
    var w', charges := Step(c, w, step), ChargesOf(c, w, step);
    StepKeepsOneLane(c, w, step);
    StepSetsClock(c, w, step);
    EnabledMeansLater(c, w, step);
    if step.FinishWithReceipts? && FinishError(w.permits[step.permit]).None? && w.permits[step.permit].receiptAware {
      ReceiptFinishKeepsLimits(c, w, step, past);
    } else {
      var all := past + Instants(charges);
      if step.Begin? && StartError(w.gov, w.permits[step.permit]).None? {
        StartKeepsOrder(c, w, step, past);
      } else {
        assert Instants(charges) == [] && all == past;
        if step.Admit? || step.Look? || step.Join? {
          CallerStepKeepsOrder(c, w, step, past);
        } else if step.Begin? || step.FinishWithReceipts? {
          RefusedStepKeepsOrder(c, w, step, past);
        } else {
          OtherStepKeepsOrder(c, w, step, past);
        }
      }
      OrderlyIsLimited(c, w', all);
    }
  }

  lemma OrderlyIsLimited(c: Config, w: World, past: seq<Time>)
    requires OneLane(w) && ZERO < w.clock && Passed(past, w.clock) && Orderly(c, w, past)
    ensures Limited(c, w, past, 0)
  {
    hide OneLane, Passed;
    assert past[..|past| - 0] == past;
  }

  // A section the governor refuses only lets time pass.
  lemma RefusedStepKeepsOrder(c: Config, w: World, step: Label, past: seq<Time>)
    requires Enabled(c, w, step) && Limited(c, w, past, 0) && Orderly(c, w, past)
    requires step.Begin? ==> StartError(w.gov, w.permits[step.permit]).Some?
    requires step.FinishWithReceipts? ==> FinishError(w.permits[step.permit]).Some? || !w.permits[step.permit].receiptAware
    requires step.Begin? || step.FinishWithReceipts?
    ensures Orderly(c, Step(c, w, step), past)
  {
    hide FinishReceipts, Lane.BeginAttempt, Rejection, NewReceipts, OutcomesToRecord, CallOutcome, NewSightings, Counted, AllPaced, AllReady, OneLane,
         Passed, Grown;
    if step.FinishWithReceipts? {
      RefusedFinish(c, w.gov, w.permits[step.permit], step.outcome, step.set_, step.at, step.draws);
      ReceiptFinishCompletes(c, w.gov, w.permits[step.permit], step.outcome, step.set_, step.at, step.draws);
    }
    LaterIsCounted(w.gov.ledger, past, w.clock, step.at);
    if AllReady(c, past, w.clock) {
      ReadyStays(c, past, w.clock, step.at);
    }
  }

  lemma LaterIsCounted(ledger: seq<Event>, past: seq<Time>, clock: Time, now: Time)
    requires Counted(ledger, past, clock) && clock <= now
    ensures Counted(ledger, past, now)
  {
  }

  lemma {:induction false} RunKeepsLimits(c: Config, w: World, steps: seq<Label>, past: seq<Time>, over: nat)
    requires c.Valid() && Runnable(c, w, steps) && Limited(c, w, past, over) && InTime(w, false)
    ensures var last := LastCallDebits(c, w, steps);
            Limited(c, Run(c, w, steps), past + DebitTimes(c, w, steps), if last > 0 then Excess(last) else over)
    decreases |steps|
  {
    hide Step, Limited, InTime, ChargesOf, Orderly, Instants, Enabled, Unsafe;
    if steps == [] {
      assert past + [] == past;
    } else {
      var step := steps[0];
      var w', charges := Step(c, w, step), ChargesOf(c, w, step);
      StepKeepsTime(c, w, step, false);
      OrderlyOrStopped(c, w, past, over);
      var here := past + Instants(charges);
      if over == 0 && Orderly(c, w, past) {
        OrderlyStep(c, w, step, past);
      } else {
        StoppedStays(c, w, step, past, over);
        assert past + Instants([]) == past;
      }
      RunKeepsLimits(c, w', steps[1..], here, if |charges| > 0 then Excess(|charges|) else over);
      assert here + DebitTimes(c, w', steps[1..]) == past + DebitTimes(c, w, steps);
    }
  }

  lemma OrderlyOrStopped(c: Config, w: World, past: seq<Time>, over: nat)
    requires Limited(c, w, past, over)
    ensures (over == 0 && Orderly(c, w, past)) || (Unsafe(w.gov) && forall i :: 0 <= i < |w.permits| ==> w.permits[i].completed)
  {
    hide Orderly, AllPaced, OneLane, Unsafe;
  }

  // ----- The rate limit -----

  lemma PacedLimitsEveryWindow(past: seq<Time>, window: Duration, ceiling: int, t: Time)
    requires Paced(past, window, ceiling) && ceiling > 0
    ensures |Within(past, window, t)| <= ceiling
  {
    var within := Within(past, window, t);
    if within != {} {
      var first := EarliestOf(within);
      BoundedSetSize(within, first, ceiling);
    }
  }

  lemma ExcessWithin(past: seq<Time>, over: nat, window: Duration, ceiling: int, t: Time)
    requires over <= |past| && Paced(past[..|past| - over], window, ceiling) && ceiling > 0
    ensures |Within(past, window, t)| <= ceiling + over
  {
    hide Paced;
    var lawful := past[..|past| - over];
    var rest := Within(past, window, t) - Within(lawful, window, t);
    PacedLimitsEveryWindow(lawful, window, ceiling, t);
    BoundedSetSize(rest, |past| - over, over);
    assert Within(past, window, t) <= Within(lawful, window, t) + rest;
  }

  // No rolling window ending at `t` holds more than its ceiling and `over`.
  ghost predicate Ceilings(c: Config, past: seq<Time>, over: nat, t: Time) {
    c.Numeric() ==>
      && |Within(past, THREE_HOURS, t)| <= c.rolling3h + over
      && |Within(past, HOUR, t)| <= c.rolling1h + over
      && |Within(past, TEN_MINUTES, t)| <= c.rolling10m + over
  }

  /** From a fresh governor, in every run of whatever calls and for every
      instant, no rolling window ending there holds more debits than its
      ceiling, and debits are at least the minimum interval apart; unless the
      lane has stopped for good, when the call that stopped it may have made
      all its debits but one in excess. */
  lemma DebitsStayWithinCeilings(c: Config, clock: Time, steps: seq<Label>, t: Time)
    requires c.Valid() && ZERO < clock && Runnable(c, Initially(clock), steps)
    ensures var w, debits := Run(c, Initially(clock), steps), DebitTimes(c, Initially(clock), steps);
            var over := Excess(LastCallDebits(c, Initially(clock), steps));
            && (!Unsafe(w.gov) ==> over == 0)
            && Ceilings(c, debits, over, t)
            && Spaced(c, debits, over)
  {
    hide Runnable, Run, Limited, InTime, Ceilings, DebitTimes, LastCallDebits, Unsafe, Spaced;
    FreshIsLimited(c, clock);
    RunKeepsLimits(c, Initially(clock), steps, [], 0);
    assert [] + DebitTimes(c, Initially(clock), steps) == DebitTimes(c, Initially(clock), steps);
    LimitedMeans(c, Run(c, Initially(clock), steps), DebitTimes(c, Initially(clock), steps), Excess(LastCallDebits(c, Initially(clock), steps)), t);
  }

  // All but the last `over` debits are the minimum interval apart.
  predicate Spaced(c: Config, past: seq<Time>, over: nat) {
    over <= |past| && forall i, j :: 0 <= i < j < |past| - over ==> past[i] + c.minimumStartInterval <= past[j]
  }

  lemma LimitedMeans(c: Config, w: World, past: seq<Time>, over: nat, t: Time)
    requires c.Valid() && Limited(c, w, past, over)
    ensures (!Unsafe(w.gov) ==> over == 0) && Ceilings(c, past, over, t) && Spaced(c, past, over)
  {
    hide Within, OneLane, Orderly;
    var lawful := past[..|past| - over];
    if c.Numeric() {
      ExcessWithin(past, over, THREE_HOURS, c.rolling3h, t);
      ExcessWithin(past, over, HOUR, c.rolling1h, t);
      ExcessWithin(past, over, TEN_MINUTES, c.rolling10m, t);
    }
    forall i, j | 0 <= i < j < |past| - over
      ensures past[i] + c.minimumStartInterval <= past[j]
    {
      assert lawful[i] == past[i] && lawful[j] == past[j];
    }
  }

  lemma FreshIsLimited(c: Config, clock: Time)
    requires ZERO < clock
    ensures Limited(c, Initially(clock), [], 0) && InTime(Initially(clock), true) && InTime(Initially(clock), false)
  {
  }

  // ----- Plain runs -----

  // A plain run starts no permit in receipt-aware mode.
  predicate Plain(step: Label) {
    step.Begin? ==> !step.receiptAware
  }

  predicate AllPlain(steps: seq<Label>) {
    forall i :: 0 <= i < |steps| ==> Plain(steps[i])
  }

  predicate NoneAware(permits: seq<Permit>) {
    forall i :: 0 <= i < |permits| ==> !permits[i].receiptAware
  }

  lemma PlainStepStarts(c: Config, w: World, step: Label)
    requires Enabled(c, w, step) && NoneAware(w.permits) && Plain(step)
    ensures var w' := Step(c, w, step);
            NoneAware(w'.permits) && w'.starts == w.starts + Instants(ChargesOf(c, w, step)) && |ChargesOf(c, w, step)| <= 1
  {
    hide Lane.TryAdmit, QueueCheck, Enqueue, BeginAttempt, Lane.Finish, FinishReceipts, CallOutcome, OutcomesToRecord, NewSightings;
    var charges := ChargesOf(c, w, step);
    if step.Begin? {
      assert charges != [] ==> Instants(charges) == [step.at];
    } else {
      assert w.starts + Instants([]) == w.starts;
      if step.Admit? || step.Look? || step.Join? {
        GrantedAreFresh(c, w, step);
      } else {
        OtherStepKeepsPermits(c, w, step);
      }
    }
  }

  lemma {:induction false} PlainDebitsAreStarts(c: Config, w: World, steps: seq<Label>)
    requires Runnable(c, w, steps) && NoneAware(w.permits) && AllPlain(steps)
    ensures Run(c, w, steps).starts == w.starts + DebitTimes(c, w, steps) && LastCallDebits(c, w, steps) <= 1
    decreases |steps|
  {
    hide Step, Enabled, ChargesOf, Plain, NoneAware;
    if steps != [] {
      PlainStepStarts(c, w, steps[0]);
      PlainDebitsAreStarts(c, Step(c, w, steps[0]), steps[1..]);
    }
  }

  /** A plain run debits exactly what it starts: at most the ceiling of starts
      lies in each rolling window, at every instant, and starts are at least
      the minimum interval apart. */
  lemma NoWindowExceedsItsCeiling(c: Config, clock: Time, steps: seq<Label>, t: Time)
    requires c.Valid() && ZERO < clock && Runnable(c, Initially(clock), steps) && AllPlain(steps)
    ensures var starts := Run(c, Initially(clock), steps).starts; Ceilings(c, starts, 0, t) && Spaced(c, starts, 0)
  {
    hide Runnable, Run, Ceilings, Spaced, DebitTimes, LastCallDebits;
    DebitsStayWithinCeilings(c, clock, steps, t);
    PlainDebitsAreStarts(c, Initially(clock), steps);
    assert [] + DebitTimes(c, Initially(clock), steps) == DebitTimes(c, Initially(clock), steps);
  }
}
