/** Sequence numbers of attempts: no number is given twice in a run, though
    receipts take numbers of their own while a call is under way.
 */
module SequenceNumbers {
  import opened Clock
  import opened Policy
  import opened Retention
  import opened AttemptReceipts
  import opened Lane
  import opened Runs
  import opened SingleLane
  import opened NoDoubleDebit

  lemma ReceiptsAdvance(c: Config, s: State, p: Permit, outcome: Outcome, set_: Option<ReceiptSet>, now: Time, draws: Draws)
    requires Settles(c, s, p, outcome, set_, now, draws.evicted) ==>
      |draws.outcomes| == |OutcomesToRecord(NewReceipts(s, set_.value, now, draws.evicted), CallOutcome(outcome))|
    ensures s.nextAttempt <= FinishReceipts(c, s, p, outcome, set_, now, draws).0.nextAttempt
  {
    hide Rejection, ReceiptFailure, FinishReconciled, PolicyError, OutcomesToRecord, CallOutcome, Unseen;
    if FinishError(p).None? && p.receiptAware {
      if set_.None? || Rejection(set_.value, Expected(c, p, now)).Some? {
        ReceiptFailureAgesIds(c, s, p, ReceiptsInvalid, true, outcome.delivery, now, draws.surveyed, true);
      } else {
        var pruned := s.(attemptIDs := YoungAttempts(s.attemptIDs, now) - draws.evicted);
        var novel := NewReceipts(s, set_.value, now, draws.evicted);
        var policy := PolicyError(c, set_.value, p, now, |novel| < |set_.value.receipts|);
        if novel == [] {
          var error := if policy.Some? then policy.value else ReceiptReplayed;
          ReceiptFailureAgesIds(c, pruned, p, error, false, outcome.delivery, now, draws.surveyed, true);
        } else {
          FinishReconciledAgesIds(c, pruned, p, outcome, set_.value.receipts, novel, policy, now, draws.surveyed, draws.outcomes, true);
        }
      }
    }
  }

  lemma StepAdvances(c: Config, w: World, step: Label)
    requires Enabled(c, w, step)
    ensures w.gov.nextAttempt <= Step(c, w, step).gov.nextAttempt
  {
    hide FinishReceipts, NewReceipts, OutcomesToRecord, CallOutcome;
    if step.FinishWithReceipts? {
      ReceiptsAdvance(c, w.gov, w.permits[step.permit], step.outcome, step.set_, step.at, step.draws);
    } else {
      hide Step;
      StepAgesIds(c, w, step, true);
    }
  }

  // Permits are granted in order, and those that started hold rising numbers
  // below the next to be given.
  ghost predicate Rising(permits: seq<Permit>, next: int) {
    && (forall i :: 0 <= i < |permits| && permits[i].started ==> permits[i].attemptSequence < next)
    && (forall i, j :: 0 <= i < j < |permits| && permits[i].started && permits[j].started ==>
          permits[i].attemptSequence < permits[j].attemptSequence)
  }

  // The first permits as they were, perhaps completed; any other is not started.
  ghost predicate NoneStarts(permits: seq<Permit>, permits': seq<Permit>) {
    && |permits| <= |permits'|
    && (forall i :: 0 <= i < |permits| ==>
          && permits'[i].started == permits[i].started && permits'[i].attemptSequence == permits[i].attemptSequence
          && permits'[i].request == permits[i].request)
    && (forall i :: |permits| <= i < |permits'| ==> !permits'[i].started)
  }

  lemma NothingStarts(c: Config, w: World, step: Label)
    requires Enabled(c, w, step) && !step.Begin?
    ensures NoneStarts(w.permits, Step(c, w, step).permits)
  {
    hide Check, Prune, Observe, Survey, RecordOutcome, Rejection, NewReceipts, ReceiptFailure, FinishReconciled, PolicyError, Complete;
    if step.FinishWithReceipts? {
      hide FinishReceipts;
      ReceiptFinishCompletes(c, w.gov, w.permits[step.permit], step.outcome, step.set_, step.at, step.draws);
    }
  }

  // A start gives the next number to the only permit that can still start.
  lemma StartTakesTheNext(c: Config, w: World, step: Label)
    requires Enabled(c, w, step) && OneLane(w) && step.Begin?
    ensures var p, w' := w.permits[step.permit], Step(c, w, step);
            if StartError(w.gov, p).Some? then w'.permits == w.permits
            else
              && step.permit == |w.permits| - 1 && w.gov.nextAttempt < w'.gov.nextAttempt
              && w'.permits == w.permits[step.permit := w'.permits[step.permit]] && w'.permits[step.permit].attemptSequence == w.gov.nextAttempt
  {
    hide Lane.Expire, Spend;
    KeepsTheNext(c, w.gov, step.at, step.surveyed);
  }

  lemma KeepsTheNext(c: Config, s: State, now: Time, choice: Choice)
    ensures Lane.Expire(c, s, now, choice).nextAttempt == s.nextAttempt
  {
    hide PruneRequests, YoungTasks, YoungAttempts, Keepers, RecentRates, ExpireTelemetry;
  }

  lemma StepKeepsRising(c: Config, w: World, step: Label)
    requires Enabled(c, w, step) && OneLane(w) && Rising(w.permits, w.gov.nextAttempt)
    ensures Rising(Step(c, w, step).permits, Step(c, w, step).gov.nextAttempt)
  {
    hide Step, StartError;
    StepAdvances(c, w, step);
    if step.Begin? {
      StartTakesTheNext(c, w, step);
    } else {
      NothingStarts(c, w, step);
    }
  }

  lemma {:induction false} RunKeepsRising(c: Config, w: World, steps: seq<Label>)
    requires Runnable(c, w, steps) && OneLane(w) && Rising(w.permits, w.gov.nextAttempt)
    ensures Rising(Run(c, w, steps).permits, Run(c, w, steps).gov.nextAttempt)
    decreases |steps|
  {
    hide Step, OneLane, Rising;
    if steps != [] {
      StepKeepsOneLane(c, w, steps[0]);
      StepKeepsRising(c, w, steps[0]);
      RunKeepsRising(c, Step(c, w, steps[0]), steps[1..]);
    }
  }

  /** After every run the permits that started hold numbers that rise in the
      order they were granted, all below the next to be given: no attempt's
      number is ever given again. */
  lemma NumbersRise(c: Config, clock: Time, steps: seq<Label>)
    requires Runnable(c, Initially(clock), steps)
    ensures var w := Run(c, Initially(clock), steps);
            forall i :: 0 <= i < |w.permits| && w.permits[i].started ==>
              && w.permits[i].attemptSequence < w.gov.nextAttempt
              && forall j :: 0 <= j < i && w.permits[j].started ==> w.permits[j].attemptSequence < w.permits[i].attemptSequence
  {
    hide Runnable, Run;
    RunKeepsRising(c, Initially(clock), steps);
  }
}
