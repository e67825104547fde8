/** What every governor of a run holds is genuine: each debit and each receipt
    identity was dated by a clock that reads a time, and sequence numbers start
    at one. A projection says "never" with a zero date, so this is what lets it
    be read back.
 */
module Genuine {
  import opened Clock
  import opened Policy
  import opened Retention
  import opened AttemptReceipts
  import opened Lane
  import opened Runs
  import opened LedgerOrder
  import opened SingleLane
  import opened NoDoubleDebit

  predicate Numbered(s: State) {
    s.nextAttempt >= 1 && forall id :: id in s.attemptIDs ==> ZERO < s.attemptIDs[id]
  }

  predicate Timed(s: State) {
    forall i :: 0 <= i < |s.ledger| ==> ZERO < s.ledger[i].at
  }

  // Nothing in it reads as "never" once it is saved.
  predicate Readable(s: State) {
    Numbered(s) && Timed(s)
  }

  predicate Real(w: World) {
    && ZERO < w.clock && Readable(w.gov)
    && forall i :: 0 <= i < |w.permits| && w.permits[i].started ==> ZERO < w.permits[i].startedAt
  }

  lemma AgingKeepsNumbers(s: State, s': State, now: Time)
    requires IdsAged(s, s', now, true) && Numbered(s)
    ensures Numbered(s')
  {
  }

  lemma ReceiptsKeepNumbers(c: Config, s: State, p: Permit, outcome: Outcome, set_: Option<ReceiptSet>, now: Time, draws: Draws)
    requires Numbered(s) && ZERO < now
    requires Settles(c, s, p, outcome, set_, now, draws.evicted) ==>
      |draws.outcomes| == |OutcomesToRecord(NewReceipts(s, set_.value, now, draws.evicted), CallOutcome(outcome))|
    ensures Numbered(FinishReceipts(c, s, p, outcome, set_, now, draws).0)
  {
    hide Rejection, ReceiptFailure, FinishReconciled, PolicyError, OutcomesToRecord, CallOutcome, Unseen, IdsAged;
    var s' := FinishReceipts(c, s, p, outcome, set_, now, draws).0;
    if FinishError(p).None? && p.receiptAware {
      if set_.None? || Rejection(set_.value, Expected(c, p, now)).Some? {
        ReceiptFailureAgesIds(c, s, p, ReceiptsInvalid, true, outcome.delivery, now, draws.surveyed, true);
        AgingKeepsNumbers(s, s', now);
      } else {
        var pruned := s.(attemptIDs := YoungAttempts(s.attemptIDs, now) - draws.evicted);
        var novel := NewReceipts(s, set_.value, now, draws.evicted);
        var policy := PolicyError(c, set_.value, p, now, |novel| < |set_.value.receipts|);
        if novel == [] {
          var error := if policy.Some? then policy.value else ReceiptReplayed;
          ReceiptFailureAgesIds(c, pruned, p, error, false, outcome.delivery, now, draws.surveyed, true);
          AgingKeepsNumbers(pruned, s', now);
        } else {
          RememberIsExact(pruned.attemptIDs, novel, now);
          FinishReconciledAgesIds(c, pruned, p, outcome, set_.value.receipts, novel, policy, now, draws.surveyed, draws.outcomes, true);
          AgingKeepsNumbers(pruned.(attemptIDs := Remember(pruned.attemptIDs, novel, now)), s', now);
        }
      }
    }
  }

  lemma StepKeepsNumbers(c: Config, w: World, step: Label)
    requires Enabled(c, w, step) && Real(w)
    ensures Numbered(Step(c, w, step).gov)
  {
    hide IdsAged, FinishReceipts, NewReceipts, OutcomesToRecord, CallOutcome;
    if step.FinishWithReceipts? {
      ReceiptsKeepNumbers(c, w.gov, w.permits[step.permit], step.outcome, step.set_, step.at, step.draws);
    } else {
      hide Step;
      StepAgesIds(c, w, step, true);
      AgingKeepsNumbers(w.gov, Step(c, w, step).gov, Instant(w, step));
    }
  }

  lemma ChargesAreDated(c: Config, w: World, step: Label)
    requires Enabled(c, w, step) && Real(w)
    ensures forall i :: 0 <= i < |ChargesOf(c, w, step)| ==> ZERO < ChargesOf(c, w, step)[i].at
  {
    hide Rejection, NewReceipts;
    if step.FinishWithReceipts? && step.set_.Some? && FinishError(w.permits[step.permit]).None? {
      ChargedAreDated(w.permits[step.permit], NewReceipts(w.gov, step.set_.value, step.at, step.draws.evicted), step.at);
    }
  }

  lemma {:induction false} ChargedAreDated(p: Permit, receipts: seq<Receipt>, now: Time)
    requires ZERO < p.startedAt && ZERO < now
    ensures forall i :: 0 <= i < |receipts| ==> ZERO < Charged(p, receipts, now)[i].at
  {
    if receipts != [] {
      ChargedAreDated(p, receipts[1..], now);
    }
  }

  lemma StartsAreDated(c: Config, w: World, step: Label)
    requires Enabled(c, w, step) && Real(w)
    ensures var permits := Step(c, w, step).permits; forall i :: 0 <= i < |permits| && permits[i].started ==> ZERO < permits[i].startedAt
  {
    hide Check, Prune, Observe, Survey, RecordOutcome, Rejection, NewReceipts, Reconciled, RecordAll, OutcomesToRecord, CallOutcome, PolicyError,
         SettledClass, ConcludedResult, Conclude, Complete;
  }

  lemma StepKeepsReal(c: Config, w: World, step: Label)
    requires Enabled(c, w, step) && Real(w)
    ensures Real(Step(c, w, step))
  {
    hide Step, Numbered, ChargesOf, Names;
    StepSetsClock(c, w, step);
    StepKeepsNumbers(c, w, step);
    StepGrows(c, w, step);
    ChargesAreDated(c, w, step);
    StartsAreDated(c, w, step);
  }

  /** Every run leaves debits and identities with real dates, and numbers that
      started at one. */
  lemma {:induction false} RunKeepsReal(c: Config, w: World, steps: seq<Label>)
    requires Runnable(c, w, steps) && Real(w)
    ensures Real(Run(c, w, steps))
    decreases |steps|
  {
    hide Step, Real;
    if steps != [] {
      StepKeepsReal(c, w, steps[0]);
      RunKeepsReal(c, Step(c, w, steps[0]), steps[1..]);
    }
  }

  lemma FreshIsReal(clock: Time)
    requires ZERO < clock
    ensures Real(Initially(clock))
  {
  }

  lemma ReachedIsReal(c: Config, clock: Time, history: seq<Label>)
    requires ZERO < clock && Runnable(c, Initially(clock), history)
    ensures var w := Run(c, Initially(clock), history); Real(w) && Readable(w.gov) && OneLane(w)
  {
    hide Runnable, Run, Readable;
    FreshIsReal(clock);
    RunKeepsReal(c, Initially(clock), history);
    RunKeepsOneLane(c, Initially(clock), history);
  }
}
