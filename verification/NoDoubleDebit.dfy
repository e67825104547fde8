/** No upstream attempt is debited twice, even once its identity has aged out of
    the governor's memory.
 */
module NoDoubleDebit {
  import opened Clock
  import opened Policy
  import opened Retention
  import opened AttemptReceipts
  import opened Lane
  import opened Runs
  import opened SingleLane
  import opened LedgerOrder

  // ----- Identities only age out -----

  // No identity is new and no sequence number given again; unless `capped`, the
  // cap evicts nothing, so that identities leave only by age.
  ghost predicate IdsAged(s: State, s': State, now: Time, capped: bool) {
    && (forall id :: id in s'.attemptIDs ==> id in s.attemptIDs && s'.attemptIDs[id] == s.attemptIDs[id])
    && (!capped ==> forall id :: id in s.attemptIDs && id !in s'.attemptIDs ==> s.attemptIDs[id] + RETENTION < now)
    && s.nextAttempt <= s'.nextAttempt
  }

  lemma SameIdsAged(s: State, s': State, now: Time, capped: bool)
    requires s'.attemptIDs == s.attemptIDs && s.nextAttempt <= s'.nextAttempt
    ensures IdsAged(s, s', now, capped)
  {
  }

  lemma IdsAgedTwice(s: State, s1: State, s2: State, now: Time, at: Time, capped: bool)
    requires IdsAged(s, s1, now, capped) && IdsAged(s1, s2, at, capped) && now <= at
    ensures IdsAged(s, s2, at, capped)
  {
  }

  lemma PruneAgesIds(s: State, now: Time, choice: Choice, capped: bool)
    requires capped || choice.attempts == {}
    ensures IdsAged(s, Prune(s, now, choice), now, capped)
  {
    hide PruneRequests, YoungTasks, Keepers;
  }

  lemma ExpireAgesIds(c: Config, s: State, now: Time, choice: Choice, capped: bool)
    requires capped || choice.attempts == {}
    ensures IdsAged(s, Lane.Expire(c, s, now, choice), now, capped)
  {
    hide Prune, RecentRates, IdsAged;
    PruneAgesIds(s, now, choice, capped);
    SameIdsAged(Prune(s, now, choice), Lane.Expire(c, s, now, choice), now, capped);
    IdsAgedTwice(s, Prune(s, now, choice), Lane.Expire(c, s, now, choice), now, now, capped);
  }

  lemma SurveyAgesIds(c: Config, s: State, task: Id, now: Time, choice: Choice, capped: bool)
    requires capped || choice.attempts == {}
    ensures IdsAged(s, Survey(c, s, task, now, choice), now, capped)
  {
    hide Lane.Expire;
    ExpireAgesIds(c, s, now, choice, capped);
  }

  lemma CheckAgesIds(c: Config, s: State, request: Request, now: Time, at: Time, choice: Choice, capped: bool)
    requires capped || choice.attempts == {}
    ensures IdsAged(s, Check(c, s, request, now, at, choice).0, now, capped)
  {
    hide Lane.Expire, CircuitChecked, GateVerdict, BudgetVerdict;
    ExpireAgesIds(c, s, now, choice, capped);
  }

  lemma RecordOutcomeAgesIds(c: Config, s: State, task: Id, now: Time, outcome: Outcome, draw: Draw, capped: bool)
    requires capped || draw.choice.attempts == {}
    ensures IdsAged(s, RecordOutcome(c, s, task, now, outcome, draw).0, now, capped)
  {
    hide Lane.Expire, RateResponse, SelectedBackoff, OtherResponse, AsRecorded;
    ExpireAgesIds(c, s, now, draw.choice, capped);
  }

  lemma {:induction false} RecordAllAgesIds(c: Config, s: State, task: Id, now: Time, outcomes: seq<Outcome>, draws: seq<Draw>, capped: bool)
    requires |draws| == |outcomes| && forall i :: 0 <= i < |draws| ==> capped || draws[i].choice.attempts == {}
    ensures IdsAged(s, RecordAll(c, s, task, now, outcomes, draws).0, now, capped)
  {
    hide RecordOutcome, IdsAged;
    if outcomes == [] {
      SameIdsAged(s, s, now, capped);
    } else {
      var last := |outcomes| - 1;
      var s1 := RecordAll(c, s, task, now, outcomes[..last], draws[..last]).0;
      RecordAllAgesIds(c, s, task, now, outcomes[..last], draws[..last], capped);
      RecordOutcomeAgesIds(c, s1, task, now, outcomes[last], draws[last], capped);
      IdsAgedTwice(s, s1, RecordOutcome(c, s1, task, now, outcomes[last], draws[last]).0, now, now, capped);
    }
  }

  lemma {:induction false} DebitReceiptsKeepIds(c: Config, s: State, p: Permit, receipts: seq<Receipt>, now: Time)
    ensures DebitReceipts(c, s, p, receipts, now).attemptIDs == s.attemptIDs && s.nextAttempt <= DebitReceipts(c, s, p, receipts, now).nextAttempt
    decreases receipts
  {
    hide Normalized, Spend;
    if receipts != [] {
      DebitReceiptsKeepIds(c, DebitReceipt(c, s, p, receipts[0], now), p, receipts[1..], now);
    }
  }

  /** A receipt counts as new if and only if its identity is not retained: never
      seen, aged out, or evicted by the cap. */
  lemma {:induction false} NovelExactly(receipts: seq<Receipt>, seen: map<Id, Time>, now: Time, evicted: set<Id>, r: Receipt)
    requires r in receipts
    ensures r in Unseen(receipts, YoungAttempts(seen, now) - evicted)
       <==> r.attemptID !in seen || seen[r.attemptID] < now - RETENTION || r.attemptID in evicted
  {
    var retained := YoungAttempts(seen, now) - evicted;
    UnseenIsMissing(receipts, retained, r);
  }

  lemma {:induction false} UnseenIsMissing(receipts: seq<Receipt>, retained: map<Id, Time>, r: Receipt)
    ensures r in Unseen(receipts, retained) <==> r in receipts && r.attemptID !in retained
  {
    if receipts != [] {
      UnseenIsMissing(receipts[1..], retained, r);
      assert receipts == [receipts[0]] + receipts[1..];
    }
  }

  lemma {:induction false} RememberIsExact(seen: map<Id, Time>, receipts: seq<Receipt>, now: Time)
    ensures var after := Remember(seen, receipts, now);
            && (forall r :: r in receipts ==> r.attemptID in after && after[r.attemptID] == now)
            && (forall id :: id in seen ==> id in after)
            && (forall id :: id in after ==> after[id] == now || (id in seen && after[id] == seen[id]))
    decreases receipts
  {
    if receipts != [] {
      RememberIsExact(seen[receipts[0].attemptID := now], receipts[1..], now);
      assert receipts == [receipts[0]] + receipts[1..];
      RememberKeeps(seen[receipts[0].attemptID := now], receipts[1..], now, receipts[0].attemptID);
    }
  }

  lemma {:induction false} RememberKeeps(seen: map<Id, Time>, receipts: seq<Receipt>, now: Time, id: Id)
    requires id in seen && seen[id] == now
    ensures id in Remember(seen, receipts, now) && Remember(seen, receipts, now)[id] == now
    decreases receipts
  {
    if receipts != [] {
      RememberKeeps(seen[receipts[0].attemptID := now], receipts[1..], now, id);
    }
  }

  // ----- What the governor remembers of the receipts it debited -----

  // Every debited receipt is remembered since it was last seen, or was last
  // seen more than a retention window ago.
  ghost predicate Recollects(s: State, sightings: seq<Sighting>, clock: Time) {
    forall i :: 0 <= i < |sightings| ==>
      var x := sightings[i];
      && x.seenAt <= clock && YEAR_2000 <= x.startedAt <= x.seenAt + MAX_CLOCK_SKEW
      && (if x.id in s.attemptIDs then x.seenAt <= s.attemptIDs[x.id] else x.seenAt + RETENTION < clock)
  }

  ghost predicate Distinct(sightings: seq<Sighting>) {
    forall i, j :: 0 <= i < j < |sightings| ==> sightings[i].id != sightings[j].id || sightings[i].startedAt != sightings[j].startedAt
  }

  lemma AgingKeepsRecollection(s: State, s': State, sightings: seq<Sighting>, now: Time, clock: Time, later: Time)
    requires Recollects(s, sightings, clock) && IdsAged(s, s', now, false) && now <= later && clock <= later
    ensures Recollects(s', sightings, later)
  {
  }

  lemma RememberingKeepsRecollection(s: State, s': State, receipts: seq<Receipt>, sightings: seq<Sighting>, now: Time)
    requires Recollects(s, sightings, now) && s'.attemptIDs == Remember(s.attemptIDs, receipts, now)
    requires forall r :: r in receipts ==> YEAR_2000 <= r.startedAt <= now + MAX_CLOCK_SKEW
    ensures Recollects(s', sightings + Sightings(receipts, now), now)
  {
    RememberIsExact(s.attemptIDs, receipts, now);
    var all := sightings + Sightings(receipts, now);
    forall i | 0 <= i < |all|
      ensures all[i].seenAt <= now && YEAR_2000 <= all[i].startedAt <= all[i].seenAt + MAX_CLOCK_SKEW
      ensures all[i].id in s'.attemptIDs ==> all[i].seenAt <= s'.attemptIDs[all[i].id]
      ensures all[i].id !in s'.attemptIDs ==> all[i].seenAt + RETENTION < now
    {
      if i < |sightings| {
        assert all[i] == sightings[i];
      } else {
        assert receipts[i - |sightings|] in receipts;
      }
    }
  }

  // The receipts of a set that are new and what they may be confused with.
  lemma NovelReceipts(c: Config, s: State, p: Permit, set_: ReceiptSet, now: Time, evicted: set<Id>)
    requires Rejection(set_, Expected(c, p, now)).None? && ZERO < now
    ensures var novel := NewReceipts(s, set_, now, evicted);
            && (forall i, j :: 0 <= i < j < |novel| ==> novel[i].attemptID != novel[j].attemptID)
            && (forall r :: r in novel ==> r.attemptID !in YoungAttempts(s.attemptIDs, now) - evicted)
            && (forall r :: r in novel ==> r.startedAt <= now + MAX_CLOCK_SKEW && YEAR_2000 <= r.startedAt)
            && (p.startedAt != ZERO ==> forall r :: r in novel ==> p.startedAt - MAX_CLOCK_SKEW <= r.startedAt)
  {
    hide Rejection, YoungAttempts;
    AcceptsExactlyWellFormed(set_, Expected(c, p, now));
    forall r | r in set_.receipts
      ensures TimestampsValid(r.startedAt, r.completedAt, Expected(c, p, now))
    {
      var k :| 0 <= k < |set_.receipts| && set_.receipts[k] == r;
      assert WellFormedReceipt(set_.receipts[k], k, set_.clientRequestID, Expected(c, p, now));
    }
    AcceptedInOrder(set_, Expected(c, p, now));
    UnseenInOrder(set_.receipts, YoungAttempts(s.attemptIDs, now) - evicted);
    UnseenDistinct(set_.receipts, YoungAttempts(s.attemptIDs, now) - evicted);
  }

  lemma {:induction false} UnseenDistinct(receipts: seq<Receipt>, seen: map<Id, Time>)
    requires forall i, j :: 0 <= i < j < |receipts| ==> receipts[i].attemptID != receipts[j].attemptID
    ensures forall i, j :: 0 <= i < j < |Unseen(receipts, seen)| ==> Unseen(receipts, seen)[i].attemptID != Unseen(receipts, seen)[j].attemptID
    ensures forall r :: r in Unseen(receipts, seen) ==> r in receipts
  {
    if receipts != [] {
      UnseenDistinct(receipts[1..], seen);
      var rest := Unseen(receipts[1..], seen);
      forall j | 0 <= j < |rest|
        ensures rest[j].attemptID != receipts[0].attemptID && rest[j] in receipts
      {
        assert rest[j] in receipts[1..];
      }
      assert Unseen(receipts, seen) == (if receipts[0].attemptID in seen then [] else [receipts[0]]) + rest;
    }
  }

  // A call short enough that whatever aged out started before its skew.
  lemma PromptCallsMeetNoOldAttempt(c: Config, s: State, p: Permit, set_: ReceiptSet, sightings: seq<Sighting>, now: Time)
    requires Recollects(s, sightings, now) && Distinct(sightings)
    requires Rejection(set_, Expected(c, p, now)).None? && ZERO < now
    requires now - p.startedAt <= THREE_HOURS - TEN_MINUTES
    ensures Distinct(sightings + Sightings(NewReceipts(s, set_, now, {}), now))
  {
    hide Rejection;
    NovelReceipts(c, s, p, set_, now, {});
    var novel := NewReceipts(s, set_, now, {});
    var all := sightings + Sightings(novel, now);
    forall i, j | 0 <= i < j < |all|
      ensures all[i].id != all[j].id || all[i].startedAt != all[j].startedAt
    {
      if j >= |sightings| {
        var r := novel[j - |sightings|];
        assert r in novel && all[j] == Sighting(r.attemptID, r.startedAt, now);
        if i < |sightings| {
          assert all[i] == sightings[i];
        } else {
          assert all[i].id == novel[i - |sightings|].attemptID;
        }
      } else {
        assert all[i] == sightings[i] && all[j] == sightings[j];
      }
    }
  }

  // ----- A receipt finish -----

  predicate Uncapped(draws: Draws) {
    && draws.evicted == {} && draws.surveyed.attempts == {}
    && forall i :: 0 <= i < |draws.outcomes| ==> draws.outcomes[i].choice.attempts == {}
  }

  lemma CompletingKeepsIds(s: State, id: Id, now: Time)
    ensures Vacate(Complete(s, id, now)).attemptIDs == s.attemptIDs && Vacate(Complete(s, id, now)).nextAttempt == s.nextAttempt
  {
  }

  lemma ReceiptFailureAgesIds(c: Config, s: State, p: Permit, error: PermitError, debit: bool, delivery: Delivery, now: Time, choice: Choice, capped: bool)
    requires capped || choice.attempts == {}
    ensures IdsAged(s, ReceiptFailure(c, s, p, error, debit, delivery, now, choice).0, now, capped)
  {
    hide Survey, IdsAged, Complete, Vacate, Spend;
    var s1 := Survey(c, Distrusted(s), p.request.task, now, choice);
    var s2 := if debit then DebitUncertain(c, s1, p.request, p.startedAt, now) else s1;
    var s3 := Vacate(Complete(s2, p.request.id, now));
    SameIdsAged(s, Distrusted(s), now, capped);
    SurveyAgesIds(c, Distrusted(s), p.request.task, now, choice, capped);
    IdsAgedTwice(s, Distrusted(s), s1, now, now, capped);
    CompletingKeepsIds(s2, p.request.id, now);
    SameIdsAged(s1, s3, now, capped);
    IdsAgedTwice(s, s1, s3, now, now, capped);
  }

  lemma FinishReconciledAgesIds(c: Config, s: State, p: Permit, outcome: Outcome, receipts: seq<Receipt>, novel: seq<Receipt>,
                                error: Option<PermitError>, now: Time, surveyed: Choice, draws: seq<Draw>, capped: bool)
    requires novel != [] && |draws| == |OutcomesToRecord(novel, CallOutcome(outcome))|
    requires capped || (surveyed.attempts == {} && forall i :: 0 <= i < |draws| ==> draws[i].choice.attempts == {})
    ensures IdsAged(s.(attemptIDs := Remember(s.attemptIDs, novel, now)),
                    FinishReconciled(c, s, p, outcome, receipts, novel, error, now, surveyed, draws).0, now, capped)
  {
    hide Survey, IdsAged, Remember, DebitReceipts, RecordAll, OutcomesToRecord, CallOutcome, LatestStart, SettledClass, Complete, Vacate;
    var remembered := s.(attemptIDs := Remember(s.attemptIDs, novel, now));
    var s1 := Survey(c, remembered, p.request.task, now, surveyed);
    var s2 := DebitReceipts(c, s1, p, novel, now);
    var plan := OutcomesToRecord(novel, CallOutcome(outcome));
    var s3 := RecordAll(c, s2, p.request.task, now, plan, draws).0;
    var s4 := (if error.Some? then Distrusted(s3) else s3).(lastStart := Max(s3.lastStart, LatestStart(novel, p.startedAt, now)));
    var s5 := Vacate(Complete(s4, p.request.id, now));
    SurveyAgesIds(c, remembered, p.request.task, now, surveyed, capped);
    DebitReceiptsKeepIds(c, s1, p, novel, now);
    SameIdsAged(s1, s2, now, capped);
    IdsAgedTwice(remembered, s1, s2, now, now, capped);
    RecordAllAgesIds(c, s2, p.request.task, now, plan, draws, capped);
    IdsAgedTwice(remembered, s2, s3, now, now, capped);
    CompletingKeepsIds(s4, p.request.id, now);
    SameIdsAged(s3, s5, now, capped);
    IdsAgedTwice(remembered, s3, s5, now, now, capped);
  }

  lemma ReceiptsKeepRecollection(c: Config, s: State, p: Permit, outcome: Outcome, set_: Option<ReceiptSet>, now: Time, draws: Draws,
                                 sightings: seq<Sighting>, clock: Time)
    requires Recollects(s, sightings, clock) && Distinct(sightings) && clock <= now && ZERO < now
    requires Uncapped(draws) && now - p.startedAt <= THREE_HOURS - TEN_MINUTES
    requires Settles(c, s, p, outcome, set_, now, draws.evicted) ==>
      |draws.outcomes| == |OutcomesToRecord(NewReceipts(s, set_.value, now, draws.evicted), CallOutcome(outcome))|
    ensures var all := sightings + NewSightings(c, s, p, outcome, set_, now, draws);
            Recollects(FinishReceipts(c, s, p, outcome, set_, now, draws).0, all, now) && Distinct(all)
  {
    hide Rejection, ReceiptFailure, FinishReconciled, PolicyError, OutcomesToRecord, CallOutcome, YoungAttempts, Unseen, IdsAged, Recollects, Distinct;
    var s' := FinishReceipts(c, s, p, outcome, set_, now, draws).0;
    assert sightings + [] == sightings;
    if FinishError(p).Some? || !p.receiptAware {
      SameIdsAged(s, s, now, false);
      AgingKeepsRecollection(s, s, sightings, now, clock, now);
    } else if set_.None? || Rejection(set_.value, Expected(c, p, now)).Some? {
      ReceiptFailureAgesIds(c, s, p, ReceiptsInvalid, true, outcome.delivery, now, draws.surveyed, false);
      AgingKeepsRecollection(s, s', sightings, now, clock, now);
    } else {
      var pruned := s.(attemptIDs := YoungAttempts(s.attemptIDs, now) - draws.evicted);
      var novel := NewReceipts(s, set_.value, now, draws.evicted);
      var policy := PolicyError(c, set_.value, p, now, |novel| < |set_.value.receipts|);
      PrunedIdsAged(s, now);
      AgingKeepsRecollection(s, pruned, sightings, now, clock, now);
      if novel == [] {
        ReceiptFailureAgesIds(c, pruned, p, if policy.Some? then policy.value else ReceiptReplayed, false, outcome.delivery, now, draws.surveyed, false);
        AgingKeepsRecollection(pruned, s', sightings, now, now, now);
      } else {
        var remembered := pruned.(attemptIDs := Remember(pruned.attemptIDs, novel, now));
        SameIdsAged(s, s, now, false);
        AgingKeepsRecollection(s, s, sightings, now, clock, now);
        PromptCallsMeetNoOldAttempt(c, s, p, set_.value, sightings, now);
        NovelReceipts(c, s, p, set_.value, now, {});
        RememberingKeepsRecollection(pruned, remembered, novel, sightings, now);
        FinishReconciledAgesIds(c, pruned, p, outcome, set_.value.receipts, novel, policy, now, draws.surveyed, draws.outcomes, false);
        AgingKeepsRecollection(remembered, s', sightings + Sightings(novel, now), now, now, now);
      }
    }
  }

  lemma PrunedIdsAged(s: State, now: Time)
    ensures IdsAged(s, s.(attemptIDs := YoungAttempts(s.attemptIDs, now) - {}), now, false)
  {
  }

  // ----- Runs -----

  // No choice of the step evicts an identity: the cap is never reached.
  predicate UncappedStep(step: Label) {
    match step
    case Admit(_, _, _, _, pruned, checked) => pruned.attempts == {} && checked.attempts == {}
    case Join(_, _, pruned) => pruned.attempts == {}
    case Look(_, _, _, _, _, checked) => checked.attempts == {}
    case Begin(_, _, _, surveyed) => surveyed.attempts == {}
    case Finish(_, _, _, surveyed, draw) => surveyed.attempts == {} && draw.choice.attempts == {}
    case FinishWithReceipts(_, _, _, _, draws) => Uncapped(draws)
    case Save(_, pruned) => pruned.attempts == {}
    case Emit(_, _, surveyed) => surveyed.attempts == {}
    case _ => true
  }

  // Whether a receipt finish ends a call of at most three hours less the skew
  // permitted on either side.
  predicate Prompt(w: World, step: Label)
    requires step.FinishWithReceipts? ==> step.permit < |w.permits|
  {
    step.FinishWithReceipts? ==> step.at - w.permits[step.permit].startedAt <= THREE_HOURS - TEN_MINUTES
  }

  predicate AllPrompt(c: Config, w: World, steps: seq<Label>)
    requires Runnable(c, w, steps)
    decreases |steps|
  {
    steps == [] || (Prompt(w, steps[0]) && AllPrompt(c, Step(c, w, steps[0]), steps[1..]))
  }

  lemma AgedAlike(s: State, s1: State, s2: State, now: Time, capped: bool)
    requires IdsAged(s, s1, now, capped) && s2.attemptIDs == s1.attemptIDs && s1.nextAttempt <= s2.nextAttempt
    ensures IdsAged(s, s2, now, capped)
  {
  }

  lemma AdmitAgesIds(c: Config, s: State, request: Request, at: Time, observed: Option<TelemetrySnapshot>, cancelled: bool,
                     pruned: Choice, checked: Choice, capped: bool)
    requires capped || (pruned.attempts == {} && checked.attempts == {})
    ensures IdsAged(s, TryAdmit(c, s, request, at, observed, cancelled, pruned, checked).0, at, capped)
  {
    hide Check, Prune, IdsAged, TelemetryAfter, CircuitAfter, CooldownAfter;
    var s1 := Prune(s, at, pruned);
    var s2 := Observe(c, s1, observed, at);
    var s3 := Check(c, s2, request, at, at, checked).0;
    var s' := TryAdmit(c, s, request, at, observed, cancelled, pruned, checked).0;
    SameIdsAged(s, s, at, capped);
    PruneAgesIds(s, at, pruned, capped);
    AgedAlike(s, s1, s2, at, capped);
    CheckAgesIds(c, s2, request, at, at, checked, capped);
    IdsAgedTwice(s, s2, s3, at, at, capped);
    AgedAlike(s, if s' == s then s else if s' == s1 then s1 else s3, s', at, capped);
  }

  lemma LookAgesIds(c: Config, s: State, index: nat, now: Time, at: Time, observed: Option<TelemetrySnapshot>, cancelled: bool, checked: Choice, capped: bool)
    requires index < |s.queue| && now <= at && (capped || checked.attempts == {})
    ensures IdsAged(s, QueueCheck(c, s, index, now, at, observed, cancelled, checked).0, at, capped)
  {
    hide Check, IdsAged, TelemetryAfter, CircuitAfter, CooldownAfter;
    var s1 := Observe(c, s, observed, now);
    var s2 := Check(c, s1, s.queue[index].request, now, at, checked).0;
    SameIdsAged(s, s1, at, capped);
    SameIdsAged(s, s1, now, capped);
    SameIdsAged(s2, s2, at, capped);
    CheckAgesIds(c, s1, s.queue[index].request, now, at, checked, capped);
    IdsAgedTwice(s, s1, s2, now, now, capped);
    IdsAgedTwice(s, s2, s2, now, at, capped);
    AgedAlike(s, if cancelled then s1 else s2, QueueCheck(c, s, index, now, at, observed, cancelled, checked).0, at, capped);
  }

  lemma StepAgesIds(c: Config, w: World, step: Label, capped: bool)
    requires Enabled(c, w, step) && (capped || UncappedStep(step)) && !step.FinishWithReceipts?
    ensures IdsAged(w.gov, Step(c, w, step).gov, Instant(w, step), capped) && Step(c, w, step).sightings == w.sightings
  {
    hide TryAdmit, QueueCheck, Prune, Lane.Expire, Survey, RecordOutcome, IdsAged, Complete, Vacate, Debit, MarkActive;
    var s, s', at := w.gov, Step(c, w, step).gov, Instant(w, step);
    SameIdsAged(s, s, at, capped);
    match step {
      case Admit(request, _, observed, cancelled, pruned, checked) => AdmitAgesIds(c, s, request, at, observed, cancelled, pruned, checked, capped);
      case Look(index, now, _, observed, cancelled, checked) => LookAgesIds(c, s, index, now, at, observed, cancelled, checked, capped);
      case Join(request, _, pruned) =>
        PruneAgesIds(s, at, pruned, capped);
        AgedAlike(s, if s.closed then s else Prune(s, at, pruned), s', at, capped);
      case Begin(index, receiptAware, _, surveyed) => StartAgesIds(c, s, w.permits[index], receiptAware, at, surveyed, capped);
      case Finish(index, outcome, _, surveyed, draw) => FinishAgesIds(c, s, w.permits[index], outcome, at, surveyed, draw, capped);
      case Abort(index, _) =>
        CompletingKeepsIds(s, w.permits[index].request.id, at);
        SameIdsAged(s, s', at, capped);
      case Abandon(index) => AbandoningKeepsIds(s, w.permits[index]); SameIdsAged(s, s', at, capped);
      case Save(_, pruned) => ExpireAgesIds(c, s, at, pruned, capped);
      case Emit(task, _, surveyed) => SurveyAgesIds(c, s, task, at, surveyed, capped);
      case _ => SameIdsAged(s, s', at, capped);
    }
  }

  lemma AbandoningKeepsIds(s: State, p: Permit)
    ensures CancelBeforeStart(s, p).0.attemptIDs == s.attemptIDs && CancelBeforeStart(s, p).0.nextAttempt == s.nextAttempt
  {
  }

  lemma StartAgesIds(c: Config, s: State, p: Permit, receiptAware: bool, at: Time, choice: Choice, capped: bool)
    requires capped || choice.attempts == {}
    ensures IdsAged(s, Start(c, s, p, receiptAware, at, choice).0, at, capped)
  {
    hide Survey, IdsAged, Spend;
    SameIdsAged(s, s, at, capped);
    SurveyAgesIds(c, s, p.request.task, at, choice, capped);
    var s' := Start(c, s, p, receiptAware, at, choice).0;
    AgedAlike(s, if StartError(s, p).Some? then s else Survey(c, s, p.request.task, at, choice), s', at, capped);
  }

  lemma FinishAgesIds(c: Config, s: State, p: Permit, outcome: Outcome, at: Time, surveyed: Choice, draw: Draw, capped: bool)
    requires capped || (surveyed.attempts == {} && draw.choice.attempts == {})
    ensures IdsAged(s, Lane.Finish(c, s, p, outcome, at, surveyed, draw).0, at, capped)
  {
    hide Survey, RecordOutcome, IdsAged, Complete, Vacate;
    var s1 := Survey(c, s, p.request.task, at, surveyed);
    var s2 := RecordOutcome(c, s1, p.request.task, at, outcome, draw).0;
    SameIdsAged(s, s, at, capped);
    SurveyAgesIds(c, s, p.request.task, at, surveyed, capped);
    RecordOutcomeAgesIds(c, s1, p.request.task, at, outcome, draw, capped);
    IdsAgedTwice(s, s1, s2, at, at, capped);
    CompletingKeepsIds(s2, p.request.id, at);
    AgedAlike(s, s2, Vacate(Complete(s2, p.request.id, at)), at, capped);
  }

  ghost predicate Honest(w: World) {
    ZERO < w.clock && Recollects(w.gov, w.sightings, w.clock) && Distinct(w.sightings)
  }

  lemma StepKeepsHonest(c: Config, w: World, step: Label)
    requires Enabled(c, w, step) && Honest(w) && UncappedStep(step) && Prompt(w, step)
    ensures Honest(Step(c, w, step))
  {
    hide Recollects, Distinct, IdsAged, FinishReceipts, NewSightings;
    if step.FinishWithReceipts? {
      ReceiptsKeepRecollection(c, w.gov, w.permits[step.permit], step.outcome, step.set_, step.at, step.draws, w.sightings, w.clock);
    } else {
      StepAgesIds(c, w, step, false);
      StepSetsClock(c, w, step);
      AgingKeepsRecollection(w.gov, Step(c, w, step).gov, w.sightings, Instant(w, step), w.clock, Instant(w, step));
    }
  }

  lemma {:induction false} RunKeepsHonest(c: Config, w: World, steps: seq<Label>)
    requires Runnable(c, w, steps) && Honest(w) && (forall i :: 0 <= i < |steps| ==> UncappedStep(steps[i])) && AllPrompt(c, w, steps)
    ensures Honest(Run(c, w, steps))
    decreases |steps|
  {
    hide Step, Honest, UncappedStep;
    if steps != [] {
      StepKeepsHonest(c, w, steps[0]);
      RunKeepsHonest(c, Step(c, w, steps[0]), steps[1..]);
    }
  }

  /** In every run of calls no longer than three hours less ten minutes, with
      the identity cap never reached, no attempt (an identity with its start)
      is debited twice, however long ago the first debit was. */
  lemma NoAttemptIsDebitedTwice(c: Config, clock: Time, steps: seq<Label>)
    requires ZERO < clock && Runnable(c, Initially(clock), steps)
    requires (forall i :: 0 <= i < |steps| ==> UncappedStep(steps[i])) && AllPrompt(c, Initially(clock), steps)
    ensures var debited := Run(c, Initially(clock), steps).sightings;
            forall i, j :: 0 <= i < j < |debited| ==> debited[i].id != debited[j].id || debited[i].startedAt != debited[j].startedAt
  {
    hide Runnable, Run, AllPrompt, UncappedStep, Recollects;
    NothingToRecollect(clock);
    RunKeepsHonest(c, Initially(clock), steps);
  }

  lemma NothingToRecollect(clock: Time)
    requires ZERO < clock
    ensures Honest(Initially(clock))
  {
  }
}
