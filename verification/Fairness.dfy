/** Bounded bypass: the queue serves its head after at most one other waiter,
    so every waiter knows how many grants it can be made to wait for.
 */
module Fairness {
  import opened Clock
  import opened Policy
  import opened Retention
  import opened AttemptReceipts
  import opened Lane
  import opened Runs
  import opened SingleLane

  // ----- Who had the turns -----

  // The task that last had the lane and how many turns in a row it took,
  // counting a permit granted and not yet started.
  function Turns(w: World): (Id, nat) {
    var s := w.gov;
    if s.inFlight && w.permits != [] && !w.permits[|w.permits| - 1].started then
      var task := w.permits[|w.permits| - 1].request.task;
      (task, if s.currentTask == task then s.consecutiveTurns + 1 else 1)
    else (s.currentTask, s.consecutiveTurns)
  }

  // The head has to let another task pass when its own task just used up its
  // quantum.
  predicate Passable(c: Config, queue: seq<Waiter>, task: Id, turns: nat) {
    queue != [] && task != "" && turns >= c.fairnessQuantum && queue[0].request.task == task
  }

  function Position(queue: seq<Waiter>, ticket: nat): (index: nat)
    ensures index <= |queue|
    ensures index < |queue| ==> queue[index].ticket == ticket
    ensures forall i :: 0 <= i < index ==> queue[i].ticket != ticket
  {
    if queue == [] || queue[0].ticket == ticket then 0 else 1 + Position(queue[1..], ticket)
  }

  // An upper bound on the grants a waiter may still have to watch, and zero
  // once it is gone.
  function Wait(c: Config, queue: seq<Waiter>, ticket: nat, task: Id, turns: nat): nat {
    var index := Position(queue, ticket);
    if index == |queue| then 0 else 2 * index + 1 + (if Passable(c, queue, task, turns) then 1 else 0)
  }

  function Patience(c: Config, w: World, ticket: nat): nat {
    Wait(c, w.gov.queue, ticket, Turns(w).0, Turns(w).1)
  }

  function Without(queue: seq<Waiter>, index: nat): seq<Waiter>
    requires index < |queue|
  {
    queue[..index] + queue[index + 1..]
  }

  predicate InTicketOrder(queue: seq<Waiter>) {
    forall i, j :: 0 <= i < j < |queue| ==> queue[i].ticket < queue[j].ticket
  }

  predicate Ticketed(s: State) {
    InTicketOrder(s.queue) && forall i :: 0 <= i < |s.queue| ==> s.queue[i].ticket < s.tickets
  }

  // ----- Sections that move no one -----

  predicate KeepsTurn(s: State, s': State) {
    s'.queue == s.queue && s'.tickets == s.tickets && s'.currentTask == s.currentTask && s'.consecutiveTurns == s.consecutiveTurns
  }

  lemma CheckKeepsTurn(c: Config, s: State, request: Request, now: Time, at: Time, choice: Choice)
    ensures KeepsTurn(s, Check(c, s, request, now, at, choice).0) && SameLane(s, Check(c, s, request, now, at, choice).0)
  {
    hide PruneRequests, YoungTasks, YoungAttempts, Keepers, RecentRates, ExpireTelemetry, CircuitChecked, GateVerdict, BudgetVerdict;
  }

  lemma SurveyKeepsTurn(c: Config, s: State, task: Id, now: Time, choice: Choice)
    ensures KeepsTurn(s, Survey(c, s, task, now, choice))
  {
    hide PruneRequests, YoungTasks, YoungAttempts, Keepers, RecentRates, ExpireTelemetry;
  }

  lemma RecordOutcomeKeepsTurn(c: Config, s: State, task: Id, now: Time, outcome: Outcome, draw: Draw)
    ensures KeepsTurn(s, RecordOutcome(c, s, task, now, outcome, draw).0)
  {
    hide PruneRequests, YoungTasks, YoungAttempts, Keepers, RecentRates, ExpireTelemetry, RateResponse, SelectedBackoff, OtherResponse, AsRecorded;
  }

  lemma {:induction false} RecordAllKeepsTurn(c: Config, s: State, task: Id, now: Time, outcomes: seq<Outcome>, draws: seq<Draw>)
    requires |draws| == |outcomes|
    ensures KeepsTurn(s, RecordAll(c, s, task, now, outcomes, draws).0)
  {
    hide RecordOutcome;
    if outcomes != [] {
      var last := |outcomes| - 1;
      RecordAllKeepsTurn(c, s, task, now, outcomes[..last], draws[..last]);
      RecordOutcomeKeepsTurn(c, RecordAll(c, s, task, now, outcomes[..last], draws[..last]).0, task, now, outcomes[last], draws[last]);
    }
  }

  lemma {:induction false} DebitReceiptsKeepTurn(c: Config, s: State, p: Permit, receipts: seq<Receipt>, now: Time)
    ensures KeepsTurn(s, DebitReceipts(c, s, p, receipts, now))
    decreases receipts
  {
    hide Normalized, Spend;
    if receipts != [] {
      DebitReceiptsKeepTurn(c, DebitReceipt(c, s, p, receipts[0], now), p, receipts[1..], now);
    }
  }

  lemma CompletingKeepsTurn(s: State, id: Id, now: Time)
    ensures KeepsTurn(s, Vacate(Complete(s, id, now)))
  {
  }

  lemma FailureKeepsTurn(c: Config, s: State, p: Permit, error: PermitError, debit: bool, delivery: Delivery, now: Time, choice: Choice)
    ensures KeepsTurn(s, ReceiptFailure(c, s, p, error, debit, delivery, now, choice).0)
  {
    hide Survey, Complete, Vacate, Spend;
    var s1 := Survey(c, Distrusted(s), p.request.task, now, choice);
    SurveyKeepsTurn(c, Distrusted(s), p.request.task, now, choice);
    CompletingKeepsTurn(if debit then DebitUncertain(c, s1, p.request, p.startedAt, now) else s1, p.request.id, now);
  }

  lemma ReconciledKeepsTurn(c: Config, s: State, p: Permit, outcome: Outcome, receipts: seq<Receipt>, novel: seq<Receipt>,
                            error: Option<PermitError>, now: Time, surveyed: Choice, draws: seq<Draw>)
    requires novel != [] && |draws| == |OutcomesToRecord(novel, CallOutcome(outcome))|
    ensures KeepsTurn(s, FinishReconciled(c, s, p, outcome, receipts, novel, error, now, surveyed, draws).0)
  {
    hide Survey, Remember, DebitReceipts, RecordAll, OutcomesToRecord, CallOutcome, LatestStart, SettledClass, Complete, Vacate;
    var remembered := s.(attemptIDs := Remember(s.attemptIDs, novel, now));
    var s1 := Survey(c, remembered, p.request.task, now, surveyed);
    var s2 := DebitReceipts(c, s1, p, novel, now);
    var plan := OutcomesToRecord(novel, CallOutcome(outcome));
    var s3 := RecordAll(c, s2, p.request.task, now, plan, draws).0;
    var s4 := (if error.Some? then Distrusted(s3) else s3).(lastStart := Max(s3.lastStart, LatestStart(novel, p.startedAt, now)));
    SurveyKeepsTurn(c, remembered, p.request.task, now, surveyed);
    DebitReceiptsKeepTurn(c, s1, p, novel, now);
    RecordAllKeepsTurn(c, s2, p.request.task, now, plan, draws);
    CompletingKeepsTurn(s4, p.request.id, now);
  }

  lemma ReceiptsKeepTurn(c: Config, s: State, p: Permit, outcome: Outcome, set_: Option<ReceiptSet>, now: Time, draws: Draws)
    requires Settles(c, s, p, outcome, set_, now, draws.evicted) ==>
      |draws.outcomes| == |OutcomesToRecord(NewReceipts(s, set_.value, now, draws.evicted), CallOutcome(outcome))|
    ensures KeepsTurn(s, FinishReceipts(c, s, p, outcome, set_, now, draws).0)
  {
    hide Rejection, ReceiptFailure, FinishReconciled, PolicyError, OutcomesToRecord, CallOutcome, YoungAttempts, NewReceipts;
    if FinishError(p).None? && p.receiptAware {
      if set_.None? || Rejection(set_.value, Expected(c, p, now)).Some? {
        FailureKeepsTurn(c, s, p, ReceiptsInvalid, true, outcome.delivery, now, draws.surveyed);
      } else {
        var pruned := s.(attemptIDs := YoungAttempts(s.attemptIDs, now) - draws.evicted);
        var novel := NewReceipts(s, set_.value, now, draws.evicted);
        var policy := PolicyError(c, set_.value, p, now, |novel| < |set_.value.receipts|);
        if novel == [] {
          FailureKeepsTurn(c, pruned, p, if policy.Some? then policy.value else ReceiptReplayed, false, outcome.delivery, now, draws.surveyed);
        } else {
          ReconciledKeepsTurn(c, pruned, p, outcome, set_.value.receipts, novel, policy, now, draws.surveyed, draws.outcomes);
        }
      }
    }
  }

  // ----- A turn taken, a turn passed -----

  lemma RemovalShiftsPosition(queue: seq<Waiter>, removed: nat, ticket: nat)
    requires removed < |queue| && InTicketOrder(queue)
    ensures var left, index := Without(queue, removed), Position(queue, ticket);
            if index == |queue| || index == removed then Position(left, ticket) == |left|
            else Position(left, ticket) == (if removed < index then index - 1 else index)
  {
    var left := Without(queue, removed);
    var index := Position(queue, ticket);
    assert forall i :: 0 <= i < |left| ==> left[i] == queue[if i < removed then i else i + 1];
    if index < |queue| && index != removed {
      var shifted := if removed < index then index - 1 else index;
      assert left[shifted] == queue[index];
      assert left[Position(left, ticket)].ticket == ticket;
    }
  }

  // One grant: whoever is served, everyone who keeps waiting waits for
  // strictly fewer grants.
  lemma GrantShortensTheWait(c: Config, s: State, ticket: nat)
    requires c.Valid() && InTicketOrder(s.queue) && s.queue != []
    ensures var served := Eligible(c, s);
            0 <= served < |s.queue| &&
            var task := s.queue[served].request.task;
            var turns := if s.currentTask == task then s.consecutiveTurns + 1 else 1;
            var after := Wait(c, Without(s.queue, served), ticket, task, turns);
            after == 0 || after < Wait(c, s.queue, ticket, s.currentTask, s.consecutiveTurns)
  {
    RemovalShiftsPosition(s.queue, Eligible(c, s), ticket);
  }

  // A departure brings everyone behind it closer.
  lemma LeavingShortensTheWait(c: Config, queue: seq<Waiter>, removed: nat, ticket: nat, task: Id, turns: nat)
    requires removed < |queue| && InTicketOrder(queue)
    ensures Wait(c, Without(queue, removed), ticket, task, turns) <= Wait(c, queue, ticket, task, turns)
  {
    RemovalShiftsPosition(queue, removed, ticket);
  }

  lemma JoiningChangesNoWait(c: Config, queue: seq<Waiter>, waiter: Waiter, ticket: nat, task: Id, turns: nat)
    requires waiter.ticket != ticket
    ensures Wait(c, queue + [waiter], ticket, task, turns) == Wait(c, queue, ticket, task, turns)
  {
    var longer, index := queue + [waiter], Position(queue, ticket);
    var index' := Position(longer, ticket);
    if index < |queue| {
      assert longer[index].ticket == ticket;
    }
    assert forall i :: 0 <= i < |queue| ==> longer[i] == queue[i];
  }

  // ----- Steps -----

  ghost predicate Queued(w: World) {
    OneLane(w) && Ticketed(w.gov)
  }

  // Waiters look when it is their turn, and a granted permit is started.
  predicate Orderly(c: Config, w: World, step: Label) {
    && (step.Look? ==> step.index == Eligible(c, w.gov))
    && !step.Abandon?
  }

  // After a step the waiter is gone, or it waits at most as long as before
  // less the grants it just watched.
  ghost predicate Patient(c: Config, w: World, w': World, ticket: nat) {
    ticket < w.gov.tickets ==>
      && ticket < w'.gov.tickets
      && (Patience(c, w', ticket) == 0 || Patience(c, w', ticket) + |w'.permits| <= Patience(c, w, ticket) + |w.permits|)
  }

  lemma LookMoves(c: Config, s: State, index: nat, now: Time, at: Time, observed: Option<TelemetrySnapshot>, cancelled: bool, checked: Choice)
    requires index < |s.queue|
    ensures var (s', admission) := QueueCheck(c, s, index, now, at, observed, cancelled, checked);
            && KeepsTurn(s.(queue := s'.queue), s')
            && s'.queue in {s.queue, Without(s.queue, index)}
            && (if admission.Granted? then
                  !s.inFlight && s'.inFlight && admission.permit == Fresh(s.queue[index].request) && s'.queue == Without(s.queue, index)
                else SameLane(s, s'))
  {
    hide Check, TelemetryAfter, CircuitAfter, CooldownAfter;
    CheckKeepsTurn(c, Observe(c, s, observed, now), s.queue[index].request, now, at, checked);
    CheckNeedsFreeLane(c, Observe(c, s, observed, now), s.queue[index].request, now, at, checked);
  }

  lemma RemovalKeepsTickets(s: State, s': State, index: nat)
    requires Ticketed(s) && index < |s.queue| && s'.queue in {s.queue, Without(s.queue, index)} && s'.tickets == s.tickets
    ensures Ticketed(s')
  {
  }

  lemma LookStepIsPatient(c: Config, w: World, step: Label, ticket: nat)
    requires c.Valid() && Enabled(c, w, step) && Queued(w) && Orderly(c, w, step) && step.Look?
    ensures Queued(Step(c, w, step)) && Patient(c, w, Step(c, w, step), ticket)
  {
    hide QueueCheck, Eligible, Wait, OneLane, InTicketOrder;
    var w', s := Step(c, w, step), w.gov;
    StepKeepsOneLane(c, w, step);
    LookMoves(c, s, step.index, step.now, step.at, step.observed, step.cancelled, step.checked);
    RemovalKeepsTickets(s, w'.gov, step.index);
    LeavingShortensTheWait(c, s.queue, step.index, ticket, Turns(w).0, Turns(w).1);
    GrantShortensTheWait(c, s, ticket);
    if |w'.permits| == |w.permits| {
      assert Turns(w') == Turns(w);
    }
  }

  lemma AdmitMoves(c: Config, s: State, request: Request, at: Time, observed: Option<TelemetrySnapshot>, cancelled: bool,
                   pruned: Choice, checked: Choice)
    ensures var (s', admission) := TryAdmit(c, s, request, at, observed, cancelled, pruned, checked);
            KeepsTurn(s, s') && (if admission.Granted? then s.queue == [] else SameLane(s, s'))
  {
    hide Check, PruneRequests, YoungTasks, YoungAttempts, Keepers, TelemetryAfter, CircuitAfter, CooldownAfter;
    var s2 := Observe(c, Prune(s, at, pruned), observed, at);
    CheckKeepsTurn(c, s2, request, at, at, checked);
  }

  lemma AdmitStepIsPatient(c: Config, w: World, step: Label, ticket: nat)
    requires c.Valid() && Enabled(c, w, step) && Queued(w) && step.Admit?
    ensures Queued(Step(c, w, step)) && Patient(c, w, Step(c, w, step), ticket)
  {
    hide TryAdmit, Wait, OneLane, InTicketOrder;
    var w' := Step(c, w, step);
    StepKeepsOneLane(c, w, step);
    AdmitMoves(c, w.gov, step.request, step.at, step.observed, step.cancelled, step.pruned, step.checked);
    NobodyWaits(c, ticket, Turns(w').0, Turns(w').1);
    if |w'.permits| == |w.permits| {
      assert Turns(w') == Turns(w);
    }
  }

  lemma NobodyWaits(c: Config, ticket: nat, task: Id, turns: nat)
    ensures Wait(c, [], ticket, task, turns) == 0
  {
  }

  lemma LeaveStepIsPatient(c: Config, w: World, step: Label, ticket: nat)
    requires c.Valid() && Enabled(c, w, step) && Queued(w) && step.Leave?
    ensures Queued(Step(c, w, step)) && Patient(c, w, Step(c, w, step), ticket)
  {
    hide Wait, OneLane, InTicketOrder;
    var w', s := Step(c, w, step), w.gov;
    StepKeepsOneLane(c, w, step);
    assert Turns(w') == Turns(w);
    RemovalKeepsTickets(s, w'.gov, step.index);
    LeavingShortensTheWait(c, s.queue, step.index, ticket, Turns(w).0, Turns(w).1);
  }

  lemma JoiningKeepsTickets(s: State, s': State, request: Request)
    requires Ticketed(s) && s'.queue == s.queue + [Waiter(s.tickets, request)] && s'.tickets == s.tickets + 1
    ensures Ticketed(s')
  {
  }

  lemma JoinMoves(c: Config, s: State, request: Request, at: Time, pruned: Choice)
    ensures var s' := Enqueue(c, s, request, at, pruned).0;
            && SameLane(s, s') && s'.currentTask == s.currentTask && s'.consecutiveTurns == s.consecutiveTurns
            && (KeepsTurn(s, s') || (s'.queue == s.queue + [Waiter(s.tickets, request)] && s'.tickets == s.tickets + 1))
  {
    hide PruneRequests, YoungTasks, YoungAttempts, Keepers;
  }

  lemma JoinStepIsPatient(c: Config, w: World, step: Label, ticket: nat)
    requires c.Valid() && Enabled(c, w, step) && Queued(w) && step.Join?
    ensures Queued(Step(c, w, step)) && Patient(c, w, Step(c, w, step), ticket)
  {
    hide Enqueue, Wait, OneLane, Ticketed;
    var w', s := Step(c, w, step), w.gov;
    StepKeepsOneLane(c, w, step);
    JoinMoves(c, s, step.request, step.at, step.pruned);
    assert Turns(w') == Turns(w);
    if KeepsTurn(s, w'.gov) {
      TicketsAlike(s, w'.gov);
    } else {
      JoiningKeepsTickets(s, w'.gov, step.request);
      if ticket < s.tickets {
        JoiningChangesNoWait(c, s.queue, Waiter(s.tickets, step.request), ticket, Turns(w).0, Turns(w).1);
      }
    }
  }

  lemma TicketsAlike(s: State, s': State)
    requires Ticketed(s) && s'.queue == s.queue && s'.tickets == s.tickets
    ensures Ticketed(s')
  {
  }

  lemma ShutStepIsPatient(c: Config, w: World, step: Label, ticket: nat)
    requires c.Valid() && Enabled(c, w, step) && Queued(w) && step.Shut?
    ensures Queued(Step(c, w, step)) && Patient(c, w, Step(c, w, step), ticket)
  {
    hide Wait, OneLane;
    var w' := Step(c, w, step);
    StepKeepsOneLane(c, w, step);
    assert Turns(w') == Turns(w);
    NobodyWaits(c, ticket, Turns(w).0, Turns(w).1);
  }

  lemma StartStepIsPatient(c: Config, w: World, step: Label, ticket: nat)
    requires c.Valid() && Enabled(c, w, step) && Queued(w) && step.Begin?
    ensures Queued(Step(c, w, step)) && Patient(c, w, Step(c, w, step), ticket)
  {
    hide Survey, Spend, Wait;
    StepKeepsOneLane(c, w, step);
    SurveyKeepsTurn(c, w.gov, w.permits[step.permit].request.task, step.at, step.surveyed);
    assert Turns(Step(c, w, step)) == Turns(w);
  }

  // A section of a permit that moves no turn of the governor and completes
  // only what had started.
  lemma PermitStepIsPatient(c: Config, w: World, w': World, index: nat, ticket: nat)
    requires Queued(w) && OneLane(w') && KeepsTurn(w.gov, w'.gov) && index < |w.permits| && |w'.permits| == |w.permits|
    requires forall i :: 0 <= i < |w.permits| ==> w'.permits[i].started == w.permits[i].started && w'.permits[i].request == w.permits[i].request
    requires SameLane(w.gov, w'.gov) || (!w'.gov.inFlight && (w.gov.inFlight ==> w.permits[|w.permits| - 1].started))
    ensures Queued(w') && Patient(c, w, w', ticket)
  {
    hide Wait, OneLane, Ticketed;
    TicketsAlike(w.gov, w'.gov);
    assert Turns(w') == Turns(w);
  }

  lemma FinishMoves(c: Config, s: State, p: Permit, outcome: Outcome, at: Time, surveyed: Choice, draw: Draw)
    ensures var (s', p', _) := Lane.Finish(c, s, p, outcome, at, surveyed, draw);
            KeepsTurn(s, s') && (if p' == p then s' == s else p' == p.(completed := true) && p.started && !s'.inFlight)
  {
    hide Survey, RecordOutcome, Complete;
    SurveyKeepsTurn(c, s, p.request.task, at, surveyed);
    var s1 := Survey(c, s, p.request.task, at, surveyed);
    RecordOutcomeKeepsTurn(c, s1, p.request.task, at, outcome, draw);
    CompletingKeepsTurn(RecordOutcome(c, s1, p.request.task, at, outcome, draw).0, p.request.id, at);
  }

  lemma AbortMoves(s: State, p: Permit, at: Time)
    ensures var (s', p', _) := CancelAfterStart(s, p, at);
            KeepsTurn(s, s') && (if p' == p then s' == s else p' == p.(completed := true) && p.started && !s'.inFlight)
  {
    hide Complete;
    CompletingKeepsTurn(s, p.request.id, at);
  }

  // Finishing a started permit leaves the turns as the start counted them.
  lemma FinishStepIsPatient(c: Config, w: World, step: Label, ticket: nat)
    requires c.Valid() && Enabled(c, w, step) && Queued(w) && (step.Finish? || step.FinishWithReceipts? || step.Abort?)
    ensures Queued(Step(c, w, step)) && Patient(c, w, Step(c, w, step), ticket)
  {
    hide Lane.Finish, FinishReceipts, CancelAfterStart, KeepsTurn, Ticketed, Patience, NewSightings;
    var w', s, p := Step(c, w, step), w.gov, w.permits[step.permit];
    StepKeepsOneLane(c, w, step);
    match step {
      case Finish(_, outcome, at, surveyed, draw) => FinishMoves(c, s, p, outcome, at, surveyed, draw);
      case FinishWithReceipts(_, outcome, set_, at, draws) =>
        ReceiptsKeepTurn(c, s, p, outcome, set_, at, draws);
        ReceiptFinishCompletes(c, s, p, outcome, set_, at, draws);
      case Abort(_, at) => AbortMoves(s, p, at);
    }
    PermitStepIsPatient(c, w, w', step.permit, ticket);
  }

  lemma OtherStepIsPatient(c: Config, w: World, step: Label, ticket: nat)
    requires c.Valid() && Enabled(c, w, step) && Queued(w)
    requires step.BeginRefresh? || step.FinishRefresh? || step.Acknowledge? || step.Save? || step.Emit?
    ensures Queued(Step(c, w, step)) && Patient(c, w, Step(c, w, step), ticket)
  {
    hide PruneRequests, YoungTasks, YoungAttempts, Keepers, RecentRates, ExpireTelemetry, Wait, OneLane;
    StepKeepsOneLane(c, w, step);
    assert Turns(Step(c, w, step)) == Turns(w);
  }

  lemma StepIsPatient(c: Config, w: World, step: Label, ticket: nat)
    requires c.Valid() && Enabled(c, w, step) && Queued(w) && Orderly(c, w, step)
    ensures Queued(Step(c, w, step)) && Patient(c, w, Step(c, w, step), ticket)
  {
    hide Step, Queued, Patient, Eligible;
    if step.Look? {
      LookStepIsPatient(c, w, step, ticket);
    } else if step.Admit? {
      AdmitStepIsPatient(c, w, step, ticket);
    } else if step.Join? {
      JoinStepIsPatient(c, w, step, ticket);
    } else if step.Leave? {
      LeaveStepIsPatient(c, w, step, ticket);
    } else if step.Shut? {
      ShutStepIsPatient(c, w, step, ticket);
    } else if step.Begin? {
      StartStepIsPatient(c, w, step, ticket);
    } else if step.Finish? || step.FinishWithReceipts? || step.Abort? {
      FinishStepIsPatient(c, w, step, ticket);
    } else {
      OtherStepIsPatient(c, w, step, ticket);
    }
  }

  // ----- Runs -----

  // Waiters look when it is their turn.
  predicate InTurn(c: Config, w: World, step: Label) {
    step.Look? ==> step.index == Eligible(c, w.gov)
  }

  // Whether the step gives a granted permit back before it is started.
  predicate GivesBack(w: World, step: Label) {
    step.Abandon? && step.permit < |w.permits| && CancelBeforeStart(w.gov, w.permits[step.permit]).2.None?
  }

  // A permit given back was no turn after all, which may cost a waiter one
  // more bypass.
  lemma GivingBackCostsOne(c: Config, w: World, step: Label, ticket: nat)
    requires c.Valid() && Enabled(c, w, step) && Queued(w) && step.Abandon?
    ensures var w' := Step(c, w, step);
            && Queued(w') && |w'.permits| == |w.permits| && w'.gov.tickets == w.gov.tickets
            && (Patience(c, w, ticket) == 0 ==> Patience(c, w', ticket) == 0)
            && Patience(c, w', ticket) <= Patience(c, w, ticket) + (if GivesBack(w, step) then 1 else 0)
  {
    hide OneLane, Passable;
    StepKeepsOneLane(c, w, step);
    AbandoningKeepsTickets(w.gov, w.permits[step.permit]);
    if !GivesBack(w, step) {
      assert w.permits[step.permit := w.permits[step.permit]] == w.permits;
    }
  }

  lemma AbandoningKeepsTickets(s: State, p: Permit)
    requires Ticketed(s)
    ensures Ticketed(CancelBeforeStart(s, p).0)
  {
  }

  predicate InTurnRun(c: Config, w: World, steps: seq<Label>)
    requires Runnable(c, w, steps)
    decreases |steps|
  {
    steps == [] || (InTurn(c, w, steps[0]) && InTurnRun(c, Step(c, w, steps[0]), steps[1..]))
  }

  // The permits given back during a run.
  function GivenBack(c: Config, w: World, steps: seq<Label>): nat
    requires Runnable(c, w, steps)
    decreases |steps|
  {
    if steps == [] then 0 else (if GivesBack(w, steps[0]) then 1 else 0) + GivenBack(c, Step(c, w, steps[0]), steps[1..])
  }

  // What one step costs a waiter, counted in grants and permits given back.
  ghost predicate Costs(c: Config, w: World, w': World, ticket: nat, back: nat) {
    ticket < w.gov.tickets ==>
      && ticket < w'.gov.tickets
      && (Patience(c, w, ticket) == 0 ==> Patience(c, w', ticket) == 0)
      && (Patience(c, w', ticket) == 0 || Patience(c, w', ticket) + |w'.permits| <= Patience(c, w, ticket) + |w.permits| + back)
  }

  lemma StepCosts(c: Config, w: World, step: Label, ticket: nat)
    requires c.Valid() && Enabled(c, w, step) && Queued(w) && InTurn(c, w, step)
    ensures Queued(Step(c, w, step)) && Costs(c, w, Step(c, w, step), ticket, if GivesBack(w, step) then 1 else 0)
  {
    hide Step, Queued, Patience, Eligible, GivesBack;
    GrantsOnlyGrow(c, w, step);
    if step.Abandon? {
      GivingBackCostsOne(c, w, step, ticket);
    } else {
      OnlyAbandonsGiveBack(w, step);
      StepIsPatient(c, w, step, ticket);
    }
  }

  lemma OnlyAbandonsGiveBack(w: World, step: Label)
    requires !step.Abandon?
    ensures !GivesBack(w, step)
  {
  }

  lemma {:induction false} RunCosts(c: Config, w: World, steps: seq<Label>, ticket: nat)
    requires c.Valid() && Runnable(c, w, steps) && InTurnRun(c, w, steps) && Queued(w)
    ensures Queued(Run(c, w, steps)) && Costs(c, w, Run(c, w, steps), ticket, GivenBack(c, w, steps))
    decreases |steps|
  {
    hide Step, Queued, InTurn, Patience, GivesBack;
    if steps != [] {
      StepCosts(c, w, steps[0], ticket);
      RunCosts(c, Step(c, w, steps[0]), steps[1..], ticket);
    }
  }

  lemma GrantsOnlyGrow(c: Config, w: World, step: Label)
    requires Enabled(c, w, step)
    ensures |w.permits| <= |Step(c, w, step).permits|
  {
    hide TryAdmit, QueueCheck, Enqueue, Lane.Start, Lane.Finish, FinishReceipts, Lane.Expire;
  }

  lemma StepKeepsTickets(c: Config, w: World, step: Label)
    requires c.Valid() && Enabled(c, w, step) && Queued(w)
    ensures Queued(Step(c, w, step))
  {
    hide QueueCheck, Ticketed, OneLane, Eligible;
    StepKeepsOneLane(c, w, step);
    if step.Look? {
      LookMoves(c, w.gov, step.index, step.now, step.at, step.observed, step.cancelled, step.checked);
      RemovalKeepsTickets(w.gov, Step(c, w, step).gov, step.index);
    } else if step.Abandon? {
      AbandoningKeepsTickets(w.gov, w.permits[step.permit]);
    } else {
      StepIsPatient(c, w, step, 0);
    }
  }

  lemma {:induction false} RunKeepsTickets(c: Config, w: World, steps: seq<Label>)
    requires c.Valid() && Runnable(c, w, steps) && Queued(w)
    ensures Queued(Run(c, w, steps))
    decreases |steps|
  {
    hide Step, Queued;
    if steps != [] {
      StepKeepsTickets(c, w, steps[0]);
      RunKeepsTickets(c, Step(c, w, steps[0]), steps[1..]);
    }
  }

  // Whether the waiter holding `ticket` is still queued.
  predicate StillWaiting(w: World, ticket: nat) {
    exists i :: 0 <= i < |w.gov.queue| && w.gov.queue[i].ticket == ticket
  }

  /** In any reachable state, while waiters look only when it is their turn,
      the waiter at position `index` is served or leaves before 2 * (index + 1)
      further grants, not counting those given back unstarted, whoever else
      arrives. */
  lemma BypassesAreBounded(c: Config, clock: Time, history: seq<Label>, index: nat, steps: seq<Label>)
    requires c.Valid() && Runnable(c, Initially(clock), history)
    requires var w := Run(c, Initially(clock), history);
             index < |w.gov.queue| && Runnable(c, w, steps) && InTurnRun(c, w, steps)
    ensures var w := Run(c, Initially(clock), history);
            var w' := Run(c, w, steps);
            StillWaiting(w', w.gov.queue[index].ticket) ==> |w'.permits| - |w.permits| - GivenBack(c, w, steps) < 2 * (index + 1)
  {
    hide Runnable, Run, InTurnRun, GivenBack, Passable;
    RunKeepsTickets(c, Initially(clock), history);
    var w := Run(c, Initially(clock), history);
    var ticket := w.gov.queue[index].ticket;
    RunCosts(c, w, steps, ticket);
  }

  predicate AllStarted(c: Config, w: World, steps: seq<Label>)
    requires Runnable(c, w, steps)
    decreases |steps|
  {
    steps == [] || (!GivesBack(w, steps[0]) && AllStarted(c, Step(c, w, steps[0]), steps[1..]))
  }

  lemma {:induction false} NothingGivenBack(c: Config, w: World, steps: seq<Label>)
    requires Runnable(c, w, steps) && AllStarted(c, w, steps)
    ensures GivenBack(c, w, steps) == 0
    decreases |steps|
  {
    hide Step, Enabled, GivesBack;
    if steps != [] {
      NothingGivenBack(c, Step(c, w, steps[0]), steps[1..]);
    }
  }

  /** When no granted permit is given back, the bound counts every grant. */
  lemma NobodyIsBypassedForLong(c: Config, clock: Time, history: seq<Label>, index: nat, steps: seq<Label>)
    requires c.Valid() && Runnable(c, Initially(clock), history)
    requires var w := Run(c, Initially(clock), history);
             index < |w.gov.queue| && Runnable(c, w, steps) && InTurnRun(c, w, steps) && AllStarted(c, w, steps)
    ensures var w := Run(c, Initially(clock), history);
            var w' := Run(c, w, steps);
            StillWaiting(w', w.gov.queue[index].ticket) ==> |w'.permits| - |w.permits| < 2 * (index + 1)
  {
    hide Runnable, Run, InTurnRun, GivenBack, AllStarted, StillWaiting;
    BypassesAreBounded(c, clock, history, index, steps);
    NothingGivenBack(c, Run(c, Initially(clock), history), steps);
  }
}
