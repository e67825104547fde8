/** Two runs in which a call of doubtful delivery becomes eligible for a retry: a
    receipt-aware call whose one receipt says it was rate limited, and a plain
    call whose delivery nobody observed.
 */
module AmbiguousRetry {
  import opened Clock
  import opened Policy
  import opened Retention
  import opened AttemptReceipts
  import opened Lane
  import opened Runs
  import opened DeliverySafety
  import opened Evictions
  import Race = RefreshRace

  const POLICY := Config(PublishedQuota, 3, 2, 1, 0, 5, 1, 1, 1, SECOND, true, 2, TEN_MINUTES, SECOND, "p", "m", "h")
  const NOON: Time := YEAR_2000
  const NONE := Choice({}, {})
  const REQUEST := Request("task", "call", false)
  const DENIED := Receipt(1, "attempt", "call", 1, "p", "m", "h", NOON, NOON, Classified(RateCapacity), Initial, true)
  const SET := ReceiptSet(1, "call", true, [DENIED], 500)
  const CALL := Outcome(Timeout, 0, ZERO, SentUnconfirmed)
  const DRAWS := Draws({}, NONE, [Draw(0, NONE), Draw(0, NONE)])
  const STEPS: seq<Label> := [Admit(REQUEST, NOON, None, false, NONE, NONE), Begin(0, true, NOON, NONE)]
  const PERMIT := Permit(REQUEST, true, false, true, NOON, 1)

  // The task holds the lane, has retried nothing, and no rate response is
  // remembered.
  predicate Unhurt(s: State) {
    && s.inFlight && s.activeTask == "task" && TaskOf(s, "task").retries == 0
    && s.circuit == FRESH_CIRCUIT
  }

  lemma ExpireKeepsUnhurt(s: State, now: Time)
    requires Unhurt(s)
    ensures Unhurt(Lane.Expire(POLICY, s, now, NONE))
  {
    hide PruneRequests, YoungAttempts, ExpireTelemetry;
    assert "task" in Protected(s);
  }

  lemma SurveyKeepsUnhurt(s: State, now: Time)
    requires Unhurt(s)
    ensures Unhurt(Survey(POLICY, s, "task", now, NONE))
  {
    hide Lane.Expire;
    ExpireKeepsUnhurt(s, now);
  }

  lemma GrantedAtFirst()
    ensures var (s, admission) := TryAdmit(POLICY, FRESH, REQUEST, NOON, None, false, NONE, NONE);
            Unhurt(s) && s.attemptIDs == map[] && admission == Granted(Fresh(REQUEST)) && s.nextAttempt == 1
  {
    hide Touched;
    var s1 := Prune(FRESH, NOON, NONE);
    assert s1.attemptIDs == map[] && s1.requestIDs == map[] && s1.tasks == map[];
    var expired := Lane.Expire(POLICY, s1, NOON, NONE);
    assert expired.attemptIDs == map[] && expired.tasks == map[] && expired.circuit == FRESH_CIRCUIT;
    OnceTouched();
  }

  lemma OnceTouched()
    ensures Touched(map[], "task", NOON) == map["task" := Task(0, 0, NOON)]
  {
  }

  lemma CallIsMade()
    ensures Runnable(POLICY, Initially(NOON), STEPS)
    ensures var w := Run(POLICY, Initially(NOON), STEPS);
            Unhurt(w.gov) && w.gov.attemptIDs == map[] && w.permits == [PERMIT] && w.clock == NOON
  {
    hide Lane.TryAdmit, Lane.Start, Unhurt;
    GrantedAtFirst();
    var w0 := Initially(NOON);
    var w1 := Step(POLICY, w0, STEPS[0]);
    StartsUnhurt(w1.gov);
    var w2 := Step(POLICY, w1, STEPS[1]);
    assert w2.permits == [PERMIT];
    assert STEPS[1..] == [STEPS[1]] && STEPS[1..][1..] == [];
    assert Runnable(POLICY, w1, STEPS[1..]) && Run(POLICY, w1, STEPS[1..]) == w2;
  }

  lemma StartsUnhurt(s: State)
    requires Unhurt(s) && s.attemptIDs == map[] && s.nextAttempt == 1
    ensures var (s', p', error) := Start(POLICY, s, Fresh(REQUEST), true, NOON, NONE);
            Unhurt(s') && s'.attemptIDs == map[] && p' == PERMIT && error.None?
  {
    hide Survey;
    SurveyKeepsUnhurt(s, NOON);
    SurveyKeepsNumbers(s);
  }

  lemma SurveyKeepsNumbers(s: State)
    requires s.attemptIDs == map[]
    ensures var s' := Survey(POLICY, s, "task", NOON, NONE); s'.attemptIDs == map[] && s'.nextAttempt == s.nextAttempt
  {
    hide PruneRequests, YoungTasks, RecentRates, ExpireTelemetry;
  }

  lemma SetIsAccepted()
    ensures Rejection(SET, Expected(POLICY, PERMIT, NOON)).None?
  {
    AcceptsExactlyWellFormed(SET, Expected(POLICY, PERMIT, NOON));
  }

  // What the two recorded outcomes, the receipt's and the call's, leave.
  lemma RecordingLeavesAChance(s: State)
    requires Unhurt(s)
    ensures MayRetry(POLICY, RecordAll(POLICY, s, "task", NOON, OutcomesToRecord([DENIED], WithDeliveryEvidence(CALL)), DRAWS.outcomes).0, "task")
  {
    hide RecordOutcome;
    var first, second := Outcome(RateCapacity, 0, ZERO, Unobserved), WithDeliveryEvidence(CALL);
    assert OutcomesToRecord([DENIED], second) == [first, second];
    assert [first, second][..1] == [first] && DRAWS.outcomes[..1] == [Draw(0, NONE)];
    assert RecordAll(POLICY, s, "task", NOON, [first][..0], [Draw(0, NONE)][..0]) == (s, 0);
    var s1 := RecordAll(POLICY, s, "task", NOON, [first], [Draw(0, NONE)]).0;
    assert s1 == RecordOutcome(POLICY, s, "task", NOON, first, Draw(0, NONE)).0;
    RateLimited(s);
    RecordedUncertain(s1, second);
  }

  lemma RateLimited(s: State)
    requires Unhurt(s)
    ensures MayRetry(POLICY, RecordOutcome(POLICY, s, "task", NOON, Outcome(RateCapacity, 0, ZERO, Unobserved), Draw(0, NONE)).0, "task")
  {
    hide Lane.Expire, SelectedBackoff;
    ExpireKeepsUnhurt(s, NOON);
  }

  lemma RecordedUncertain(s: State, outcome: Outcome)
    requires MayRetry(POLICY, s, "task") && outcome.class_.UncertainReached?
    ensures MayRetry(POLICY, RecordOutcome(POLICY, s, "task", NOON, outcome, Draw(0, NONE)).0, "task")
  {
  }

  lemma DebitKeepsUnhurt(s: State)
    requires Unhurt(s)
    ensures Unhurt(Reconciled(POLICY, s, PERMIT, [DENIED], NOON, NONE))
  {
    hide Survey, Remember;
    var remembered := s.(attemptIDs := Remember(s.attemptIDs, [DENIED], NOON));
    var s1 := Survey(POLICY, remembered, "task", NOON, NONE);
    SurveyKeepsUnhurt(remembered, NOON);
    assert DebitReceipts(POLICY, s1, PERMIT, [DENIED], NOON) == DebitReceipt(POLICY, s1, PERMIT, DENIED, NOON) by {
      assert [DENIED][1..] == [];
    }
  }

  lemma FinishIsEligible(s: State)
    requires Unhurt(s) && s.attemptIDs == map[]
    ensures |OutcomesToRecord(NewReceipts(s, SET, NOON, {}), CallOutcome(WithDeliveryEvidence(CALL)))| == 2
    ensures FinishReceipts(POLICY, s, PERMIT, WithDeliveryEvidence(CALL), Some(SET), NOON, DRAWS).2.retryEligible
  {
    hide Rejection, Unhurt, RecordAll, Reconciled, Unseen, MayRetry, SettledClass, LatestStart;
    var outcome := WithDeliveryEvidence(CALL);
    SetIsAccepted();
    OneUnseen(DENIED, map[]);
    assert YoungAttempts(s.attemptIDs, NOON) - {} == map[];
    DebitKeepsUnhurt(s);
    var s1 := Reconciled(POLICY, s, PERMIT, [DENIED], NOON, NONE);
    RecordingLeavesAChance(s1);
    AmbiguousEligibility(POLICY, s, PERMIT, CALL, Some(SET), NOON, DRAWS);
    var s2 := RecordAll(POLICY, s1, "task", NOON, OutcomesToRecord([DENIED], outcome), DRAWS.outcomes).0;
    ConcludingKeepsChances(POLICY, s2, "call", false, LatestStart([DENIED], NOON, NOON), NOON, "task");
  }

  /** The promise that an ambiguous call is never repeated automatically can
      fail: under a valid policy, a fresh lane admits and starts a call, its
      delivery stays unconfirmed, and its finish is eligible for a retry. */
  lemma AmbiguousCallIsEligible()
    ensures POLICY.Valid() && Ambiguous(CALL.delivery) && Runnable(POLICY, Initially(NOON), STEPS) && FittingRun(POLICY, Initially(NOON), STEPS)
    ensures var w := Run(POLICY, Initially(NOON), STEPS);
            var finish := FinishWithReceipts(0, WithDeliveryEvidence(CALL), Some(SET), NOON, DRAWS);
            && Enabled(POLICY, w, finish) && Fitting(POLICY, w, finish)
            && FinishReceipts(POLICY, w.gov, w.permits[0], WithDeliveryEvidence(CALL), Some(SET), NOON, DRAWS).2.retryEligible
  {
    hide Runnable, Run, Rejection, Unhurt, NewReceipts, OutcomesToRecord, FinishReceipts, FittingRun, Fitting, Bare, FewAbout;
    CallIsMade();
    var w := Run(POLICY, Initially(NOON), STEPS);
    FinishIsEligible(w.gov);
    StepsAreBare();
    BareRunFits(POLICY, Initially(NOON), STEPS, {"task"}, {"attempt"});
    BareStepFits(POLICY, w, FinishWithReceipts(0, WithDeliveryEvidence(CALL), Some(SET), NOON, DRAWS), {"task"}, {"attempt"});
  }

  lemma StepsAreBare()
    ensures forall i :: 0 <= i < |STEPS| ==> Bare(STEPS[i], {"task"}, {"attempt"})
    ensures Bare(FinishWithReceipts(0, WithDeliveryEvidence(CALL), Some(SET), NOON, DRAWS), {"task"}, {"attempt"})
    ensures FewAbout(Initially(NOON), {"task"}, {"attempt"}) && Room({"task"}, {"attempt"})
  {
  }

  // ----- A plain call -----

  const LOST := Outcome(Timeout, 0, ZERO, Unobserved)

  /** A plain call that timed out may be repeated although nobody observed
      whether it was delivered: under a valid policy, a fresh lane admits and
      starts it, and its finish is eligible for a retry. */
  lemma UnobservedCallIsEligible() returns (steps: seq<Label>)
    ensures Race.POLICY.Valid() && Runnable(Race.POLICY, Initially(NOON), steps) && FittingRun(Race.POLICY, Initially(NOON), steps)
    ensures var w := Run(Race.POLICY, Initially(NOON), steps);
            var finish := Label.Finish(0, WithDeliveryEvidence(LOST), NOON, NONE, Draw(0, NONE));
            && Enabled(Race.POLICY, w, finish) && Fitting(Race.POLICY, w, finish) && !w.permits[0].receiptAware
            && Lane.Finish(Race.POLICY, w.gov, w.permits[0], WithDeliveryEvidence(LOST), NOON, NONE, Draw(0, NONE)).2.retryEligible
  {
    hide Runnable, Run, Race.Idle, Lane.Finish, FittingRun, Bare, FewAbout, ChoiceFits, FinishFits, Step, Enabled;
    var w0, call := Initially(NOON), Race.Call(Initially(NOON), "first", NOON, WithDeliveryEvidence(LOST));
    Race.IdleAtFirst();
    Race.CallBegins(w0, "first", NOON, WithDeliveryEvidence(LOST));
    TwoSteps(w0, call[0], call[1]);
    steps := [call[0], call[1]];
    Race.CallIsUnaided(w0, "first", NOON, WithDeliveryEvidence(LOST));
    Race.NobodyAbout(NOON);
    BareRunFits(Race.POLICY, w0, steps, {"task"}, {});
    var w := Run(Race.POLICY, w0, steps);
    BareStepFits(Race.POLICY, w, call[2], {"task"}, {});
    PlainRetriesExactly(Race.POLICY, w.gov, w.permits[0], LOST, NOON, NONE, Draw(0, NONE));
  }

  lemma TwoSteps(w: World, first: Label, second: Label)
    requires Enabled(Race.POLICY, w, first) && Enabled(Race.POLICY, Step(Race.POLICY, w, first), second)
    ensures Runnable(Race.POLICY, w, [first, second])
    ensures Run(Race.POLICY, w, [first, second]) == Step(Race.POLICY, Step(Race.POLICY, w, first), second)
  {
    hide Step, Enabled;
    var w1 := Step(Race.POLICY, w, first);
    assert [first, second][1..] == [second] && [second][1..] == [];
    assert Runnable(Race.POLICY, w1, [second]);
    assert Run(Race.POLICY, w1, [second]) == Run(Race.POLICY, Step(Race.POLICY, w1, second), []);
  }
}
