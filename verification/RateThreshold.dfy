/** Repeated rate responses stop the lane until a human looks at it.

    In plain runs without a telemetry source the circuit demands a human review
    as soon as the threshold of rate responses falls inside one window, and
    keeps demanding it. The one way round is a credential refresh that was
    begun before the acknowledgement and succeeds after the threshold was
    reached again.
 */
module RateThreshold {
  import opened Clock
  import opened Policy
  import opened Retention
  import opened AttemptReceipts
  import opened Lane
  import opened Runs
  import opened SingleLane
  import opened Windows

  // ----- The bisection keeps exactly the recent events -----

  lemma {:induction false} BisectIsExact(events: seq<Time>, cutoff: Time, lo: nat, hi: nat)
    requires Ascending(events) && lo <= hi <= |events|
    requires forall i :: 0 <= i < lo ==> events[i] <= cutoff
    requires forall i :: hi <= i < |events| ==> events[i] > cutoff
    ensures var first := Bisect(events, cutoff, lo, hi);
            && (forall i :: 0 <= i < first ==> events[i] <= cutoff)
            && (forall i :: first <= i < |events| ==> events[i] > cutoff)
    decreases hi - lo
  {
    if lo < hi {
      var mid := (lo + hi) / 2;
      if events[mid] > cutoff {
        BisectIsExact(events, cutoff, lo, mid);
      } else {
        BisectIsExact(events, cutoff, mid + 1, hi);
      }
    }
  }

  // ----- Calm -----

  // No window holds the threshold of rate responses.
  ghost predicate Calm(c: Config, rates: seq<Time>) {
    forall i, j :: 0 <= i <= j < |rates| && j - i + 1 >= c.rateResponseThreshold ==> rates[i] + c.rateResponseWindow <= rates[j]
  }

  /** Calm means what it should: no window, wherever it ends, holds the
      threshold of rate responses. */
  lemma CalmMeansNoCrowdedWindow(c: Config, rates: seq<Time>)
    requires c.Valid() && Ascending(rates)
    ensures Calm(c, rates) <==> forall t :: |Within(rates, c.rateResponseWindow, t)| < c.rateResponseThreshold
  {
    if Calm(c, rates) {
      forall t
        ensures |Within(rates, c.rateResponseWindow, t)| < c.rateResponseThreshold
      {
        CalmWindow(c, rates, t);
      }
    } else {
      var i, j :| 0 <= i <= j < |rates| && j - i + 1 >= c.rateResponseThreshold && rates[i] + c.rateResponseWindow > rates[j];
      CoveringSetSize(Within(rates, c.rateResponseWindow, rates[j]), i, j - i + 1);
    }
  }

  lemma CalmWindow(c: Config, rates: seq<Time>, t: Time)
    requires c.Valid() && Calm(c, rates)
    ensures |Within(rates, c.rateResponseWindow, t)| < c.rateResponseThreshold
  {
    var within := Within(rates, c.rateResponseWindow, t);
    if within != {} {
      var first := EarliestOf(within);
      assert rates[first] + c.rateResponseWindow > t >= rates[first];
      BoundedSetSize(within, first, c.rateResponseThreshold - 1);
    }
  }

  // ----- What the governor remembers of the rate responses -----

  // The circuit holds the latest responses; those it dropped left the window.
  ghost predicate Remembers(c: Config, s: State, rates: seq<Time>, clock: Time) {
    && Ascending(rates)
    && (forall i :: 0 <= i < |rates| ==> rates[i] <= clock)
    && |s.circuit.rateEvents| <= |rates|
    && s.circuit.rateEvents == rates[|rates| - |s.circuit.rateEvents|..]
    && (forall i :: 0 <= i < |rates| - |s.circuit.rateEvents| ==> rates[i] + c.rateResponseWindow <= clock)
  }

  // A section that records nothing may only let old responses go.
  ghost predicate Faded(c: Config, s: State, s': State, now: Time) {
    && SameLane(s, s')
    && (s.circuit.state.HumanReviewRequired? || s'.circuit.state.HumanReviewRequired? ==>
          s'.circuit.state == s.circuit.state && s'.circuit.reason == s.circuit.reason)
    && s'.circuit.refreshRequired == s.circuit.refreshRequired && s'.circuit.refreshInFlight == s.circuit.refreshInFlight
    && (s'.circuit.rateEvents == s.circuit.rateEvents || s'.circuit.rateEvents == RecentRates(c, s.circuit.rateEvents, now))
  }

  lemma SuffixIsRemembered(c: Config, s: State, s': State, rates: seq<Time>, first: nat, clock: Time, later: Time)
    requires Remembers(c, s, rates, clock) && clock <= later && first <= |s.circuit.rateEvents|
    requires s'.circuit.rateEvents == s.circuit.rateEvents[first..]
    requires forall i :: 0 <= i < first ==> s.circuit.rateEvents[i] + c.rateResponseWindow <= later
    ensures Remembers(c, s', rates, later)
  {
    var events := s.circuit.rateEvents;
    var dropped := |rates| - |events|;
    forall i | dropped <= i < dropped + first
      ensures rates[i] + c.rateResponseWindow <= later
    {
      assert events[i - dropped] == rates[i];
    }
    assert rates[dropped..][first..] == rates[dropped + first..];
  }

  lemma FadingKeepsMemory(c: Config, s: State, s': State, rates: seq<Time>, now: Time, clock: Time, later: Time)
    requires Remembers(c, s, rates, clock) && Faded(c, s, s', now) && now <= later && clock <= later
    ensures Remembers(c, s', rates, later)
  {
    hide Bisect;
    var events := s.circuit.rateEvents;
    RememberedAscend(c, s, rates, clock);
    BisectIsExact(events, now - c.rateResponseWindow, 0, |events|);
    hide Remembers;
    if s'.circuit.rateEvents == events {
      assert events[0..] == events;
      SuffixIsRemembered(c, s, s', rates, 0, clock, later);
    } else {
      SuffixIsRemembered(c, s, s', rates, Bisect(events, now - c.rateResponseWindow, 0, |events|), clock, later);
    }
  }

  lemma RememberedAscend(c: Config, s: State, rates: seq<Time>, clock: Time)
    requires Remembers(c, s, rates, clock)
    ensures Ascending(s.circuit.rateEvents)
  {
  }

  lemma ExpireFades(c: Config, s: State, now: Time, choice: Choice)
    ensures Faded(c, s, Expire(c, s, now, choice), now)
    ensures Expire(c, s, now, choice).circuit.rateEvents == RecentRates(c, s.circuit.rateEvents, now)
  {
    hide PruneRequests, YoungTasks, YoungAttempts, Keepers, RecentRates, ExpireTelemetry;
  }

  lemma CheckFades(c: Config, s: State, request: Request, now: Time, at: Time, choice: Choice)
    ensures Faded(c, s, Check(c, s, request, now, at, choice).0, now)
    ensures Check(c, s, request, now, at, choice).1.Pass? ==>
      !s.inFlight && !s.circuit.state.HumanReviewRequired? && !s.circuit.refreshRequired
  {
    hide Lane.Expire, UpstreamVerdict, BudgetVerdict, RecentRates;
    ExpireFades(c, s, now, choice);
  }

  // The lane aside, asking for admission only lets old responses go, and it
  // succeeds only while nobody has to look at the circuit.
  ghost predicate Asked(c: Config, s: State, s': State, granted: bool, now: Time) {
    && Faded(c, s, s'.(inFlight := s.inFlight, activeTask := s.activeTask), now)
    && (if granted then !s.circuit.state.HumanReviewRequired? && !s.circuit.refreshRequired else SameLane(s, s'))
  }

  lemma AdmitAsks(c: Config, s: State, request: Request, at: Time, cancelled: bool, pruned: Choice, checked: Choice)
    ensures var (s', admission) := TryAdmit(c, s, request, at, None, cancelled, pruned, checked);
            Asked(c, s, s', admission.Granted?, at)
  {
    hide Check, PruneRequests, YoungTasks, YoungAttempts, Keepers, RecentRates;
    CheckFades(c, Prune(s, at, pruned), request, at, at, checked);
  }

  lemma LookAsks(c: Config, s: State, index: nat, now: Time, at: Time, cancelled: bool, checked: Choice)
    requires index < |s.queue|
    ensures var (s', admission) := QueueCheck(c, s, index, now, at, None, cancelled, checked);
            Asked(c, s, s', admission.Granted?, now)
  {
    hide Check, RecentRates;
    CheckFades(c, s, s.queue[index].request, now, at, checked);
  }

  // ----- Recording -----

  // A human review is due because of rate responses.
  predicate Condemned(s: State) {
    s.circuit.state.HumanReviewRequired? && s.circuit.reason.RateCapacity?
  }

  // What the finish of a call adds to the history.
  function Rated(outcome: Outcome, now: Time): seq<Time> {
    if AsRecorded(outcome).class_.RateCapacity? then [now] else []
  }

  lemma CountingKeepsMemory(c: Config, s: State, s': State, rates: seq<Time>, now: Time)
    requires Remembers(c, s, rates, now) && s'.circuit.rateEvents == s.circuit.rateEvents + [now]
    ensures Remembers(c, s', rates + [now], now)
  {
  }

  lemma RecordingKeepsMemory(c: Config, s: State, task: Id, now: Time, outcome: Outcome, draw: Draw, rates: seq<Time>, clock: Time)
    requires c.Valid() && Remembers(c, s, rates, clock) && clock <= now
    ensures Remembers(c, RecordOutcome(c, s, task, now, outcome, draw).0, rates + Rated(outcome, now), now)
  {
    hide Lane.Expire, RecentRates, SelectedBackoff, RaisedCooldown, AsRecorded, Remembers;
    var s1 := Lane.Expire(c, s, now, draw.choice);
    ExpireFades(c, s, now, draw.choice);
    FadingKeepsMemory(c, s, s1, rates, now, clock, now);
    FadingKeepsMemory(c, s, s, rates, now, clock, now);
    var s' := RecordOutcome(c, s, task, now, outcome, draw).0;
    if AsRecorded(outcome).class_.RateCapacity? {
      CountingKeepsMemory(c, s1, s', rates, now);
    } else {
      assert rates + [] == rates;
      RememberingAlike(c, s, s', rates, now);
    }
  }

  // The response that makes some window crowded finds the rest of that window
  // still remembered, so it is counted and the review is demanded.
  lemma CrowdingDemandsReview(c: Config, s: State, task: Id, now: Time, outcome: Outcome, draw: Draw, rates: seq<Time>, clock: Time)
    requires c.Valid() && Remembers(c, s, rates, clock) && clock <= now && Calm(c, rates)
    requires AsRecorded(outcome).class_.RateCapacity? && !Calm(c, rates + [now])
    ensures Condemned(RecordOutcome(c, s, task, now, outcome, draw).0)
  {
    hide Lane.Expire, RecentRates, SelectedBackoff, RaisedCooldown, AsRecorded, Calm;
    var s1 := Lane.Expire(c, s, now, draw.choice);
    ExpireFades(c, s, now, draw.choice);
    FadingKeepsMemory(c, s, s1, rates, now, clock, now);
    CrowdedIsRemembered(c, s1, rates, now);
  }

  lemma CrowdedIsRemembered(c: Config, s: State, rates: seq<Time>, now: Time)
    requires c.Valid() && Remembers(c, s, rates, now) && Calm(c, rates) && !Calm(c, rates + [now])
    ensures |s.circuit.rateEvents| + 1 >= c.rateResponseThreshold
  {
    var all := rates + [now];
    var i, j :| 0 <= i <= j < |all| && j - i + 1 >= c.rateResponseThreshold && all[i] + c.rateResponseWindow > all[j];
    assert all[i] == (if i < |rates| then rates[i] else now);
  }

  // A review demanded for rate responses is never premature.
  lemma ReviewMeansCrowded(c: Config, s: State, task: Id, now: Time, outcome: Outcome, draw: Draw, rates: seq<Time>, clock: Time)
    requires c.Valid() && Remembers(c, s, rates, clock) && clock <= now && !Condemned(s)
    requires Condemned(RecordOutcome(c, s, task, now, outcome, draw).0)
    ensures AsRecorded(outcome).class_.RateCapacity? && !Calm(c, rates + [now])
  {
    hide Lane.Expire, Bisect, SelectedBackoff, RaisedCooldown, AsRecorded, Calm;
    var s1 := Lane.Expire(c, s, now, draw.choice);
    ExpireFades(c, s, now, draw.choice);
    BisectIsExact(s.circuit.rateEvents, now - c.rateResponseWindow, 0, |s.circuit.rateEvents|);
    RecentIsCrowded(c, s, rates, now, clock);
  }

  lemma RecentIsCrowded(c: Config, s: State, rates: seq<Time>, now: Time, clock: Time)
    requires c.Valid() && Remembers(c, s, rates, clock) && clock <= now
    requires |RecentRates(c, s.circuit.rateEvents, now)| + 1 >= c.rateResponseThreshold
    ensures !Calm(c, rates + [now])
  {
    hide Bisect;
    var events, all := s.circuit.rateEvents, rates + [now];
    BisectIsExact(events, now - c.rateResponseWindow, 0, |events|);
    var recent := RecentRates(c, events, now);
    var i := |rates| - |recent|;
    if recent != [] {
      assert all[i] == recent[0];
    }
    assert all[|rates|] == now && all[i] + c.rateResponseWindow > now;
  }

  lemma ResponsesKeepRefresh(c: Config, circuit: Circuit, outcome: Outcome, now: Time)
    ensures var rated := RateResponse(c, circuit, outcome, now);
            rated.refreshRequired == circuit.refreshRequired && rated.refreshInFlight == circuit.refreshInFlight
    ensures OtherResponse(circuit, outcome.class_).refreshInFlight == circuit.refreshInFlight
  {
  }

  // Other outcomes demand a refresh at most while the history is calm.
  lemma RecordingGuards(c: Config, s: State, task: Id, now: Time, outcome: Outcome, draw: Draw, rates: seq<Time>, clock: Time)
    requires c.Valid() && Remembers(c, s, rates, clock) && clock <= now && Calm(c, rates) && !s.circuit.refreshRequired && !Condemned(s)
    ensures var s' := RecordOutcome(c, s, task, now, outcome, draw).0;
            && (Condemned(s') <==> !Calm(c, rates + Rated(outcome, now)))
            && (s'.circuit.refreshRequired ==> Calm(c, rates + Rated(outcome, now)))
            && s'.circuit.refreshInFlight == s.circuit.refreshInFlight
  {
    hide Lane.Expire, RecentRates, SelectedBackoff, RaisedCooldown, AsRecorded, Calm, RateResponse, OtherResponse, Condemned;
    ResponsesKeepRefresh(c, Lane.Expire(c, s, now, draw.choice).circuit, AsRecorded(outcome), now);
    ResponsesKeepRefresh(c, s.circuit, AsRecorded(outcome), now);
    ExpireFades(c, s, now, draw.choice);
    assert rates + [] == rates;
    if AsRecorded(outcome).class_.RateCapacity? && !Calm(c, rates + [now]) {
      CrowdingDemandsReview(c, s, task, now, outcome, draw, rates, clock);
    }
    if Condemned(RecordOutcome(c, s, task, now, outcome, draw).0) {
      ReviewMeansCrowded(c, s, task, now, outcome, draw, rates, clock);
    }
  }

  // ----- Runs -----

  // A plain run without a telemetry source.
  predicate Unaided(step: Label) {
    && (step.Admit? || step.Look? ==> step.observed.None?)
    && (step.Begin? ==> !step.receiptAware)
  }

  // At most one refresh is outstanding, and while the history is crowded it
  // cannot have been asked for by the circuit as it stands.
  ghost predicate Guarded(c: Config, w: World) {
    var circuit := w.gov.circuit;
    && (!Calm(c, w.rates) ==> circuit.state.HumanReviewRequired? && !w.gov.inFlight && (w.refreshes > 0 ==> Condemned(w.gov)))
    && (Condemned(w.gov) ==> !Calm(c, w.rates))
    && (circuit.refreshRequired ==> Calm(c, w.rates) && !w.gov.inFlight)
    && (w.refreshes > 0 ==> w.refreshes == 1 && circuit.refreshInFlight)
  }

  ghost predicate Watched(c: Config, w: World) {
    && OneLane(w)
    && Remembers(c, w.gov, w.rates, w.clock)
    && (forall i :: 0 <= i < |w.permits| ==> !w.permits[i].receiptAware)
    && Guarded(c, w)
  }

  // A refresh that succeeds while a human review is due for rate responses.
  predicate Late(w: World, step: Label) {
    step.FinishRefresh? && step.success && Condemned(w.gov)
  }

  lemma AskingKeepsWatch(c: Config, w: World, step: Label)
    requires c.Valid() && Enabled(c, w, step) && Watched(c, w) && Unaided(step) && (step.Admit? || step.Look?)
    ensures Watched(c, Step(c, w, step))
  {
    hide TryAdmit, QueueCheck, OneLane, Remembers, Calm, RecentRates;
    StepKeepsOneLane(c, w, step);
    var w' := Step(c, w, step);
    var now := if step.Admit? then step.at else step.now;
    if step.Admit? {
      AdmitAsks(c, w.gov, step.request, step.at, step.cancelled, step.pruned, step.checked);
    } else {
      LookAsks(c, w.gov, step.index, step.now, step.at, step.cancelled, step.checked);
    }
    var aged := w'.gov.(inFlight := w.gov.inFlight, activeTask := w.gov.activeTask);
    FadingKeepsMemory(c, w.gov, aged, w.rates, now, w.clock, w'.clock);
    RememberingAlike(c, aged, w'.gov, w.rates, w'.clock);
    GrantedAreFresh(c, w, step);
  }

  lemma RememberingAlike(c: Config, s: State, s': State, rates: seq<Time>, clock: Time)
    requires Remembers(c, s, rates, clock) && s'.circuit.rateEvents == s.circuit.rateEvents
    ensures Remembers(c, s', rates, clock)
  {
  }

  lemma CallStepKeepsWatch(c: Config, w: World, step: Label)
    requires c.Valid() && Enabled(c, w, step) && Watched(c, w) && Unaided(step) && (step.Begin? || step.Abandon? || step.Abort?)
    ensures Watched(c, Step(c, w, step))
  {
    hide Lane.Expire, RecentRates, Remembers, Calm, Debit, Touched;
    StepKeepsOneLane(c, w, step);
    var w' := Step(c, w, step);
    var s1 := if step.Begin? then Lane.Expire(c, w.gov, step.at, step.surveyed) else w.gov;
    if step.Begin? {
      ExpireFades(c, w.gov, step.at, step.surveyed);
      StartKeepsCircuit(c, w.gov, w.permits[step.permit], step.at, step.surveyed);
    }
    FadingKeepsMemory(c, w.gov, s1, w.rates, w'.clock, w.clock, w'.clock);
    FadingKeepsMemory(c, w.gov, w.gov, w.rates, w'.clock, w.clock, w'.clock);
    RememberingAlike(c, if w'.gov.circuit == w.gov.circuit then w.gov else s1, w'.gov, w.rates, w'.clock);
  }

  lemma StartKeepsCircuit(c: Config, s: State, p: Permit, at: Time, choice: Choice)
    ensures var s' := Start(c, s, p, false, at, choice).0;
            SameLane(s, s') && s'.circuit in {s.circuit, Lane.Expire(c, s, at, choice).circuit}
  {
    hide Lane.Expire, Touched, Spend;
    ExpireFades(c, s, at, choice);
  }

  lemma FinishStepKeepsWatch(c: Config, w: World, step: Label)
    requires c.Valid() && Enabled(c, w, step) && Watched(c, w) && step.Finish?
    ensures Watched(c, Step(c, w, step))
  {
    hide Survey, RecordOutcome, Remembers, Calm, RecentRates, AsRecorded;
    StepKeepsOneLane(c, w, step);
    var w' := Step(c, w, step);
    var p, at := w.permits[step.permit], step.at;
    if FinishError(p).Some? {
      assert w.rates + [] == w.rates;
      FadingKeepsMemory(c, w.gov, w.gov, w.rates, at, w.clock, at);
    } else {
      var s1 := Survey(c, w.gov, p.request.task, at, step.surveyed);
      var s2 := RecordOutcome(c, s1, p.request.task, at, step.outcome, step.draw).0;
      SurveyFades(c, w.gov, p.request.task, at, step.surveyed);
      FadingKeepsMemory(c, w.gov, s1, w.rates, at, w.clock, at);
      RecordingKeepsMemory(c, s1, p.request.task, at, step.outcome, step.draw, w.rates, at);
      RecordingGuards(c, s1, p.request.task, at, step.outcome, step.draw, w.rates, at);
      RecordingSucceeds(c, s1, p.request.task, at, step.outcome, step.draw);
      RememberingAlike(c, s2, w'.gov, w'.rates, at);
    }
  }

  lemma RecordingSucceeds(c: Config, s: State, task: Id, now: Time, outcome: Outcome, draw: Draw)
    ensures RecordOutcome(c, s, task, now, outcome, draw).1.error.None?
  {
    hide Lane.Expire, AsRecorded, SelectedBackoff, RateResponse, OtherResponse;
  }

  lemma SurveyFades(c: Config, s: State, task: Id, now: Time, choice: Choice)
    ensures Faded(c, s, Survey(c, s, task, now, choice), now)
  {
    hide Lane.Expire, RecentRates;
    ExpireFades(c, s, now, choice);
  }

  lemma QueueStepKeepsWatch(c: Config, w: World, step: Label)
    requires Enabled(c, w, step) && Watched(c, w) && (step.Join? || step.Leave? || step.Shut?)
    ensures Watched(c, Step(c, w, step))
  {
    hide PruneRequests, YoungTasks, YoungAttempts, Keepers, Remembers, Calm;
    StepKeepsOneLane(c, w, step);
    var w' := Step(c, w, step);
    FadingKeepsMemory(c, w.gov, w.gov, w.rates, w'.clock, w.clock, w'.clock);
    RememberingAlike(c, w.gov, w'.gov, w.rates, w'.clock);
  }

  lemma SurveyStepKeepsWatch(c: Config, w: World, step: Label)
    requires Enabled(c, w, step) && Watched(c, w) && (step.Save? || step.Emit?)
    ensures Watched(c, Step(c, w, step))
  {
    hide Lane.Expire, Remembers, Calm, RecentRates;
    StepKeepsOneLane(c, w, step);
    if step.Save? {
      ExpireFades(c, w.gov, step.at, step.pruned);
    } else {
      SurveyFades(c, w.gov, step.task, step.at, step.surveyed);
    }
    FadingKeepsMemory(c, w.gov, Step(c, w, step).gov, w.rates, step.at, w.clock, step.at);
  }

  // A section that only moves the circuit.
  lemma CircuitMoveKeepsWatch(c: Config, w: World, w': World)
    requires Watched(c, w) && OneLane(w') && Guarded(c, w')
    requires w'.permits == w.permits && w'.clock == w.clock
    requires || (w'.rates == w.rates && w'.gov.circuit.rateEvents == w.gov.circuit.rateEvents)
             || (w'.rates == [] && w'.gov.circuit.rateEvents == [])
    ensures Watched(c, w')
  {
    hide OneLane, Guarded, Calm;
    if w'.rates == w.rates && w'.gov.circuit.rateEvents == w.gov.circuit.rateEvents {
      RememberingAlike(c, w.gov, w'.gov, w.rates, w.clock);
    }
  }

  lemma RefreshingGuards(c: Config, w: World, step: Label)
    requires Enabled(c, w, step) && Watched(c, w) && !Late(w, step) && (step.BeginRefresh? || step.FinishRefresh?)
    ensures Guarded(c, Step(c, w, step))
  {
    hide OneLane, Remembers, Calm;
  }

  lemma AcknowledgingGuards(c: Config, w: World)
    requires c.Valid() && Enabled(c, w, Label.Acknowledge) && Watched(c, w)
    ensures Guarded(c, Step(c, w, Label.Acknowledge))
  {
    hide OneLane, Remembers, Calm;
    AcknowledgingClears(c, w.gov, w.clock);
  }

  lemma CircuitStepKeepsWatch(c: Config, w: World, step: Label)
    requires c.Valid() && Enabled(c, w, step) && Watched(c, w) && !Late(w, step)
    requires step.BeginRefresh? || step.FinishRefresh? || step.Acknowledge?
    ensures Watched(c, Step(c, w, step))
  {
    hide OneLane, Guarded, Remembers, Calm;
    StepKeepsOneLane(c, w, step);
    if step.Acknowledge? {
      AcknowledgingGuards(c, w);
    } else {
      RefreshingGuards(c, w, step);
    }
    CircuitMoveKeepsWatch(c, w, Step(c, w, step));
  }

  lemma AcknowledgingClears(c: Config, s: State, clock: Time)
    requires c.Valid()
    ensures Calm(c, [])
    ensures s.circuit.rateEvents == [] ==> Remembers(c, s, [], clock)
  {
  }

  // Receipt steps cannot touch a plain permit.
  lemma RefusedReceiptsKeepWatch(c: Config, w: World, step: Label)
    requires Enabled(c, w, step) && Watched(c, w) && step.FinishWithReceipts?
    ensures Watched(c, Step(c, w, step))
  {
    hide Rejection, NewReceipts, PolicyError, Calm, Remembers;
    StepKeepsOneLane(c, w, step);
    FadingKeepsMemory(c, w.gov, w.gov, w.rates, step.at, w.clock, step.at);
  }

  lemma StepKeepsWatch(c: Config, w: World, step: Label)
    requires c.Valid() && Enabled(c, w, step) && Watched(c, w) && Unaided(step) && !Late(w, step)
    ensures Watched(c, Step(c, w, step))
  {
    hide Step, Watched;
    if step.Admit? || step.Look? {
      AskingKeepsWatch(c, w, step);
    } else if step.Begin? || step.Abandon? || step.Abort? {
      CallStepKeepsWatch(c, w, step);
    } else if step.Finish? {
      FinishStepKeepsWatch(c, w, step);
    } else if step.FinishWithReceipts? {
      RefusedReceiptsKeepWatch(c, w, step);
    } else if step.Save? || step.Emit? {
      SurveyStepKeepsWatch(c, w, step);
    } else if step.Join? || step.Leave? || step.Shut? {
      QueueStepKeepsWatch(c, w, step);
    } else {
      CircuitStepKeepsWatch(c, w, step);
    }
  }

  // ----- The guarantee, and exactly when it holds -----

  // Whenever some window since the last acknowledgement holds the threshold of
  // rate responses, a human review is demanded and nothing is in flight.
  ghost predicate Stopped(c: Config, w: World) {
    forall t :: |Within(w.rates, c.rateResponseWindow, t)| >= c.rateResponseThreshold ==>
      w.gov.circuit.state.HumanReviewRequired? && !w.gov.inFlight
  }

  ghost predicate StoppedThroughout(c: Config, w: World, steps: seq<Label>)
    requires Runnable(c, w, steps)
    decreases |steps|
  {
    Stopped(c, w) && (steps == [] || StoppedThroughout(c, Step(c, w, steps[0]), steps[1..]))
  }

  // No refresh of the run succeeds while a review is due for rate responses.
  predicate NeverLate(c: Config, w: World, steps: seq<Label>)
    requires Runnable(c, w, steps)
    decreases |steps|
  {
    steps == [] || (!Late(w, steps[0]) && NeverLate(c, Step(c, w, steps[0]), steps[1..]))
  }

  lemma WatchedIsStopped(c: Config, w: World)
    requires c.Valid() && Watched(c, w)
    ensures Stopped(c, w)
  {
    CalmMeansNoCrowdedWindow(c, w.rates);
  }

  lemma LateIsNotStopped(c: Config, w: World, step: Label)
    requires c.Valid() && Enabled(c, w, step) && Watched(c, w) && Late(w, step)
    ensures !Stopped(c, Step(c, w, step))
  {
    hide Calm, Within;
    CalmMeansNoCrowdedWindow(c, w.rates);
    assert Step(c, w, step).rates == w.rates;
  }

  lemma {:induction false} StoppedExactlyUnlessLate(c: Config, w: World, steps: seq<Label>)
    requires c.Valid() && Runnable(c, w, steps) && (forall i :: 0 <= i < |steps| ==> Unaided(steps[i])) && Watched(c, w)
    ensures StoppedThroughout(c, w, steps) <==> NeverLate(c, w, steps)
    decreases |steps|
  {
    hide Step, Watched, Stopped, Late;
    WatchedIsStopped(c, w);
    if steps != [] {
      if Late(w, steps[0]) {
        LateIsNotStopped(c, w, steps[0]);
        var w1 := Step(c, w, steps[0]);
        assert !StoppedThroughout(c, w1, steps[1..]);
      } else {
        StepKeepsWatch(c, w, steps[0]);
        StoppedExactlyUnlessLate(c, Step(c, w, steps[0]), steps[1..]);
      }
    }
  }

  /** From a fresh governor, a plain run without telemetry keeps the guarantee
      in every state exactly when no credential refresh succeeds while the
      circuit demands a human review for rate responses. */
  lemma CrowdedWindowsStopTheLane(c: Config, clock: Time, steps: seq<Label>)
    requires c.Valid() && Runnable(c, Initially(clock), steps) && forall i :: 0 <= i < |steps| ==> Unaided(steps[i])
    ensures StoppedThroughout(c, Initially(clock), steps) <==> NeverLate(c, Initially(clock), steps)
  {
    FreshIsWatched(c, clock);
    StoppedExactlyUnlessLate(c, Initially(clock), steps);
  }

  lemma FreshIsWatched(c: Config, clock: Time)
    requires c.Valid()
    ensures Watched(c, Initially(clock))
  {
  }
}
