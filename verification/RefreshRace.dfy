/** The run in which a late credential refresh reopens a circuit that demands a
    human review for rate responses.

    A refresh fails, a second one begins, the human acknowledges the failure,
    the lane works again until rate responses stop it, and only then does the
    second refresh succeed.
 */
module RefreshRace {
  import opened Clock
  import opened Policy
  import opened Ledger
  import opened Retention
  import opened Lane
  import opened Runs
  import opened Windows
  import opened RateThreshold
  import opened Evictions

  const POLICY := Config(UnlimitedText, 0, 0, 0, 0, 2, 1, 2, 1, SECOND, false, 1, TEN_MINUTES, SECOND, "p", "m", "h")
  const NOON: Time := YEAR_2000
  const LATER: Time := YEAR_2000 + MINUTE
  const NONE := Choice({}, {})

  // ----- Sections in which nothing is old enough to go -----

  predicate NothingOld(s: State, now: Time) {
    && (forall i :: 0 <= i < |s.ledger| ==> s.ledger[i].at > now - THREE_HOURS)
    && (forall id :: id in s.tasks ==> s.tasks[id].lastTouched > now - RETENTION)
    && s.attemptIDs == map[]
    && (forall e :: e in s.completed ==> e.id in s.requestIDs && s.requestIDs[e.id] == Completed(e.at) && e.at > now - RETENTION)
    && |s.completed| <= MAX_COMPLETED
    && s.circuit.rateEvents == []
    && s.telemetry == FRESH_TELEMETRY
  }

  lemma {:induction false} ScanKeepsRecent(entries: seq<Completion>, ids: map<Id, Record>, cutoff: Time)
    requires forall e :: e in entries ==> e.id in ids && ids[e.id] == Completed(e.at) && e.at > cutoff
    ensures Scan(entries, ids, cutoff) == (entries, ids)
  {
    if entries != [] {
      ScanKeepsRecent(entries[1..], ids, cutoff);
      assert entries == [entries[0]] + entries[1..];
    }
  }

  lemma NothingPruned(s: State, now: Time)
    requires NothingOld(s, now)
    ensures Prune(s, now, NONE) == s
  {
    ScanKeepsRecent(s.completed, s.requestIDs, now - RETENTION);
    assert YoungTasks(s.tasks, Protected(s), now) - {} == s.tasks;
    assert YoungAttempts(s.attemptIDs, now) - {} == s.attemptIDs;
  }

  lemma NothingExpired(s: State, now: Time)
    requires NothingOld(s, now)
    ensures Lane.Expire(POLICY, s, now, NONE) == s
  {
    hide Prune;
    NothingPruned(s, now);
  }

  // ----- One call on an idle, healthy lane -----

  predicate Idle(s: State, now: Time) {
    && ZERO < now && NothingOld(s, now)
    && !s.closed && !s.inFlight && s.activeTask == "" && s.queue == []
    && s.circuit.state.Closed? && !s.circuit.refreshRequired && s.cooldownUntil == ZERO
    && s.lastStart + SECOND <= now
    && TaskOf(s, "task").attempts < POLICY.taskBudget
  }

  // The state once the call holds the lane.
  function Taken(s: State, id: Id, now: Time): State {
    s.(inFlight := true, activeTask := "task", tasks := Touched(s.tasks, "task", now), requestIDs := s.requestIDs[id := Pending])
  }

  lemma CallAdmitted(s: State, id: Id, now: Time)
    requires Idle(s, now) && id !in s.requestIDs
    ensures TryAdmit(POLICY, s, Request("task", id, false), now, None, false, NONE, NONE)
         == (Taken(s, id, now), Granted(Fresh(Request("task", id, false))))
  {
    hide Prune, Lane.Expire, Touched;
    NothingPruned(s, now);
    NothingExpired(s, now);
    TouchedAttempts(s.tasks, "task", now);
    var request := Request("task", id, false);
    var touched := s.(tasks := Touched(s.tasks, "task", now));
    assert Check(POLICY, s, request, now, now, NONE) == (touched, Pass);
  }

  lemma TouchedAttempts(tasks: map<Id, Task>, task: Id, now: Time)
    ensures task in Touched(tasks, task, now)
    ensures Touched(tasks, task, now)[task] == (if task in tasks then tasks[task] else Task(0, 0, ZERO)).(lastTouched := now)
  {
  }

  // The state once the call has started.
  function Started(s: State, id: Id, now: Time): State {
    var count := TaskOf(s, "task");
    s.(inFlight := true, activeTask := "task", requestIDs := s.requestIDs[id := Active],
       nextAttempt := s.nextAttempt + 1,
       consecutiveTurns := if s.currentTask == "task" then s.consecutiveTurns + 1 else 1,
       currentTask := "task",
       lastStart := now,
       ledger := s.ledger + [Event(now, "task")],
       tasks := s.tasks["task" := Task(count.attempts + 1, count.retries, now)])
  }

  lemma CallStarted(s: State, id: Id, now: Time)
    requires Idle(s, now) && id !in s.requestIDs
    ensures Start(POLICY, Taken(s, id, now), Fresh(Request("task", id, false)), false, now, NONE)
         == (Started(s, id, now), Permit(Request("task", id, false), true, false, false, now, s.nextAttempt), None)
  {
    hide Lane.Expire, NothingOld;
    var taken := Taken(s, id, now);
    TakenIsRecent(s, id, now);
    NothingExpired(taken, now);
    var tasks := Touched(taken.tasks, "task", now);
    assert tasks["task" := Task(TaskOf(s, "task").attempts + 1, TaskOf(s, "task").retries, now)]
        == s.tasks["task" := Task(TaskOf(s, "task").attempts + 1, TaskOf(s, "task").retries, now)];
    assert taken.requestIDs[id := Active] == s.requestIDs[id := Active];
  }

  lemma TakenIsRecent(s: State, id: Id, now: Time)
    requires Idle(s, now) && id !in s.requestIDs
    ensures NothingOld(Taken(s, id, now), now)
  {
  }

  // The state once the call has finished.
  function Served(s: State, id: Id, now: Time, circuit: Circuit, cooldownUntil: Time): State {
    Started(s, id, now).(inFlight := false, activeTask := "", requestIDs := s.requestIDs[id := Completed(now)],
                         completed := s.completed + [Completion(id, now)], circuit := circuit, cooldownUntil := cooldownUntil)
  }

  lemma CallFinished(s: State, id: Id, now: Time, outcome: Outcome)
    requires Idle(s, now) && id !in s.requestIDs && !AsRecorded(outcome).class_.RateCapacity?
    ensures var p := Permit(Request("task", id, false), true, false, false, now, s.nextAttempt);
            var circuit := OtherResponse(s.circuit, AsRecorded(outcome).class_);
            var (s', p', result) := Lane.Finish(POLICY, Started(s, id, now), p, outcome, now, NONE, Draw(0, NONE));
            s' == Served(s, id, now, circuit, ZERO) && p' == p.(completed := true) && result.error.None?
  {
    hide Lane.Expire, NothingOld, OtherResponse, AsRecorded;
    var started := Started(s, id, now);
    StartedIsRecent(s, id, now);
    NothingExpired(started, now);
    RetouchedAlike(started, now);
    assert started.requestIDs[id := Completed(now)] == s.requestIDs[id := Completed(now)];
  }

  lemma RatedCallFinished(s: State, id: Id, now: Time)
    requires Idle(s, now) && id !in s.requestIDs && s.circuit.lastRateReset == ZERO
    ensures var p := Permit(Request("task", id, false), true, false, false, now, s.nextAttempt);
            var circuit := Transition(s.circuit.(rateEvents := [now]), HumanReviewRequired, RateCapacity, ZERO);
            var (s', p', result) := Lane.Finish(POLICY, Started(s, id, now), p, Outcome(RateCapacity, 0, ZERO, Delivered), now, NONE, Draw(0, NONE));
            s' == Served(s, id, now, circuit, now + 15 * SECOND) && p' == p.(completed := true) && result.error.None?
  {
    hide Lane.Expire;
    var started := Started(s, id, now);
    StartedIsRecent(s, id, now);
    NothingExpired(started, now);
    RetouchedAlike(started, now);
    assert s.circuit.rateEvents + [now] == [now];
    assert started.requestIDs[id := Completed(now)] == s.requestIDs[id := Completed(now)];
  }

  lemma StartedIsRecent(s: State, id: Id, now: Time)
    requires Idle(s, now) && id !in s.requestIDs
    ensures NothingOld(Started(s, id, now), now)
  {
  }

  lemma RetouchedAlike(s: State, now: Time)
    requires "task" in s.tasks && s.tasks["task"].lastTouched == now
    ensures Touched(s.tasks, "task", now) == s.tasks
  {
  }

  // ----- The run -----

  // A whole call: admission, start, finish, all at one instant.
  function Call(w: World, id: Id, now: Time, outcome: Outcome): seq<Label> {
    [Admit(Request("task", id, false), now, None, false, NONE, NONE),
     Begin(|w.permits|, false, now, NONE),
     Label.Finish(|w.permits|, outcome, now, NONE, Draw(0, NONE))]
  }

  function Called(w: World, id: Id, now: Time, circuit: Circuit, cooldownUntil: Time, rates: seq<Time>): World {
    w.(gov := Served(w.gov, id, now, circuit, cooldownUntil),
       permits := w.permits + [Permit(Request("task", id, false), true, true, false, now, w.gov.nextAttempt)],
       clock := now, starts := w.starts + [now], rates := w.rates + rates)
  }

  lemma CallBegins(w: World, id: Id, now: Time, outcome: Outcome)
    requires Idle(w.gov, now) && id !in w.gov.requestIDs && w.clock <= now
    ensures var steps, p := Call(w, id, now, outcome), Permit(Request("task", id, false), true, false, false, now, w.gov.nextAttempt);
            var begun := w.(gov := Started(w.gov, id, now), permits := w.permits + [p], clock := now, starts := w.starts + [now]);
            && Enabled(POLICY, w, steps[0]) && Enabled(POLICY, Step(POLICY, w, steps[0]), steps[1])
            && Step(POLICY, Step(POLICY, w, steps[0]), steps[1]) == begun
            && Enabled(POLICY, begun, steps[2])
  {
    hide Lane.TryAdmit, Lane.Start, Idle, Taken, Started;
    CallAdmitted(w.gov, id, now);
    CallStarted(w.gov, id, now);
    var n := |w.permits|;
    var granted := w.permits + [Fresh(Request("task", id, false))];
    var p := Permit(Request("task", id, false), true, false, false, now, w.gov.nextAttempt);
    assert granted[n := p] == w.permits + [p];
  }

  lemma CallRuns(w: World, id: Id, now: Time, outcome: Outcome, circuit: Circuit, cooldownUntil: Time)
    requires Idle(w.gov, now) && id !in w.gov.requestIDs && w.clock <= now
    requires var p := Permit(Request("task", id, false), true, false, false, now, w.gov.nextAttempt);
             var (s', p', result) := Lane.Finish(POLICY, Started(w.gov, id, now), p, outcome, now, NONE, Draw(0, NONE));
             s' == Served(w.gov, id, now, circuit, cooldownUntil) && p' == p.(completed := true) && result.error.None?
    ensures Runnable(POLICY, w, Call(w, id, now, outcome))
    ensures Run(POLICY, w, Call(w, id, now, outcome)) == Called(w, id, now, circuit, cooldownUntil, Rated(outcome, now))
  {
    hide Enabled, Lane.Finish, Idle, Started, Served;
    var steps, p := Call(w, id, now, outcome), Permit(Request("task", id, false), true, false, false, now, w.gov.nextAttempt);
    var begun := w.(gov := Started(w.gov, id, now), permits := w.permits + [p], clock := now, starts := w.starts + [now]);
    CallBegins(w, id, now, outcome);
    FinishSteps(begun, |w.permits|, outcome, now);
    assert (w.permits + [p])[|w.permits| := p.(completed := true)] == w.permits + [p.(completed := true)];
    ThreeSteps(w, steps);
  }

  lemma FinishSteps(w: World, index: nat, outcome: Outcome, now: Time)
    requires index < |w.permits| && w.clock <= now
    ensures var step := Label.Finish(index, outcome, now, NONE, Draw(0, NONE));
            var (s', p', result) := Lane.Finish(POLICY, w.gov, w.permits[index], outcome, now, NONE, Draw(0, NONE));
            && Enabled(POLICY, w, step)
            && (result.error.None? ==>
                  Step(POLICY, w, step) == w.(gov := s', permits := w.permits[index := p'], clock := now, rates := w.rates + Rated(outcome, now)))
  {
    hide Lane.Finish, AsRecorded;
  }

  lemma ThreeSteps(w: World, steps: seq<Label>)
    requires |steps| == 3 && Enabled(POLICY, w, steps[0])
    requires Enabled(POLICY, Step(POLICY, w, steps[0]), steps[1])
    requires Enabled(POLICY, Step(POLICY, Step(POLICY, w, steps[0]), steps[1]), steps[2])
    ensures Runnable(POLICY, w, steps)
    ensures Run(POLICY, w, steps) == Step(POLICY, Step(POLICY, Step(POLICY, w, steps[0]), steps[1]), steps[2])
  {
    hide Step, Enabled;
    var w1 := Step(POLICY, w, steps[0]);
    var w2 := Step(POLICY, w1, steps[1]);
    assert steps[1..][1..] == steps[2..] && steps[2..][1..] == [];
    assert Runnable(POLICY, w2, steps[2..]);
    assert Runnable(POLICY, w1, steps[1..]);
    assert Run(POLICY, w2, steps[2..]) == Run(POLICY, Step(POLICY, w2, steps[2]), []);
    assert Run(POLICY, w1, steps[1..]) == Run(POLICY, w2, steps[2..]);
  }

  const EXPIRED := Outcome(AuthenticationExpired, 0, ZERO, Delivered)
  const LIMITED := Outcome(RateCapacity, 0, ZERO, Delivered)
  const REFRESHES: seq<Label> := [Label.BeginRefresh, Label.FinishRefresh(false), Label.BeginRefresh, Label.Acknowledge]
  const BLOCKED := Circuit(OpenUntil, AuthenticationExpired, ZERO, true, false, ZERO, [])
  const REOPENED := Circuit(Closed, Unclassified, ZERO, false, true, ZERO, [])

  lemma RefreshesRun(w: World)
    requires w.gov.circuit == BLOCKED && !w.gov.inFlight && w.gov.queue == [] && w.refreshes == 0 && w.rates == []
    ensures Runnable(POLICY, w, REFRESHES)
    ensures Run(POLICY, w, REFRESHES) == w.(gov := w.gov.(circuit := REOPENED), refreshes := 1)
  {
    hide Step, Enabled;
    var w1 := w.(gov := w.gov.(circuit := BLOCKED.(refreshInFlight := true)), refreshes := 1);
    var failed := Circuit(HumanReviewRequired, AuthenticationExpired, ZERO, true, false, ZERO, []);
    var w2 := w.(gov := w.gov.(circuit := failed));
    var w3 := w.(gov := w.gov.(circuit := failed.(refreshInFlight := true)), refreshes := 1);
    BeginRefreshSteps(w);
    FailedRefreshSteps(w1);
    BeginRefreshSteps(w2);
    AcknowledgeSteps(w3);
    FourSteps(w, w1, w2, w3, w.(gov := w.gov.(circuit := REOPENED), refreshes := 1));
  }

  lemma FailedRefreshSteps(w: World)
    requires w.refreshes > 0
    ensures Enabled(POLICY, w, Label.FinishRefresh(false))
    ensures Step(POLICY, w, Label.FinishRefresh(false))
         == w.(gov := w.gov.(circuit := Transition(w.gov.circuit.(refreshInFlight := false), HumanReviewRequired, AuthenticationExpired, ZERO)),
               refreshes := w.refreshes - 1)
  {
  }

  lemma AcknowledgeSteps(w: World)
    requires w.gov.circuit.state.HumanReviewRequired?
    ensures Enabled(POLICY, w, Label.Acknowledge)
    ensures Step(POLICY, w, Label.Acknowledge)
         == w.(gov := w.gov.(circuit := Transition(w.gov.circuit, Closed, Unclassified, ZERO).(rateEvents := [], lastRateReset := ZERO, refreshRequired := false)),
               rates := [])
  {
  }

  lemma BeginRefreshSteps(w: World)
    requires w.gov.circuit.refreshRequired && !w.gov.circuit.refreshInFlight && !w.gov.inFlight && w.gov.queue == []
    ensures Enabled(POLICY, w, Label.BeginRefresh)
    ensures Step(POLICY, w, Label.BeginRefresh)
         == w.(gov := w.gov.(circuit := w.gov.circuit.(refreshInFlight := true)), refreshes := w.refreshes + 1)
  {
  }

  lemma FourSteps(w: World, w1: World, w2: World, w3: World, w4: World)
    requires Enabled(POLICY, w, REFRESHES[0]) && Step(POLICY, w, REFRESHES[0]) == w1
    requires Enabled(POLICY, w1, REFRESHES[1]) && Step(POLICY, w1, REFRESHES[1]) == w2
    requires Enabled(POLICY, w2, REFRESHES[2]) && Step(POLICY, w2, REFRESHES[2]) == w3
    requires Enabled(POLICY, w3, REFRESHES[3]) && Step(POLICY, w3, REFRESHES[3]) == w4
    ensures Runnable(POLICY, w, REFRESHES) && Run(POLICY, w, REFRESHES) == w4
  {
    hide Step, Enabled;
    ThreeSteps(w, REFRESHES[..3]);
    assert Runnable(POLICY, w3, [REFRESHES[3]]) && Run(POLICY, w3, [REFRESHES[3]]) == w4;
    RunsCompose(POLICY, w, REFRESHES[..3], [REFRESHES[3]]);
    assert REFRESHES == REFRESHES[..3] + [REFRESHES[3]];
  }

  /** The guarantee can fail: under a valid policy, this run ends with the
      threshold of rate responses in one window since the last acknowledgement
      and the circuit closed again. */
  lemma LateRefreshReopensTheLane() returns (steps: seq<Label>)
    ensures POLICY.Valid() && Runnable(POLICY, Initially(NOON), steps) && (forall i :: 0 <= i < |steps| ==> Unaided(steps[i]))
    ensures FittingRun(POLICY, Initially(NOON), steps)
    ensures !Stopped(POLICY, Run(POLICY, Initially(NOON), steps))
  {
    hide Runnable, Run, Idle, Served, Lane.Finish, Stopped, Unaided, FittingRun, Bare, FewAbout;
    var w0 := Initially(NOON);
    IdleAtFirst();
    CallFinished(FRESH, "first", NOON, EXPIRED);
    var first := Call(w0, "first", NOON, EXPIRED);
    CallRuns(w0, "first", NOON, EXPIRED, BLOCKED, ZERO);
    var w1 := Called(w0, "first", NOON, BLOCKED, ZERO, []);
    ServedFacts(FRESH, "first", NOON, BLOCKED, ZERO);
    RefreshesRun(w1);
    RunsCompose(POLICY, w0, first, REFRESHES);
    var w2 := w1.(gov := w1.gov.(circuit := REOPENED), refreshes := 1);
    IdleAgain();
    RatedCallFinished(w2.gov, "second", LATER);
    var second := Call(w2, "second", LATER, LIMITED);
    var condemned := Transition(REOPENED.(rateEvents := [LATER]), HumanReviewRequired, RateCapacity, ZERO);
    CallRuns(w2, "second", LATER, LIMITED, condemned, LATER + 15 * SECOND);
    RunsCompose(POLICY, w0, first + REFRESHES, second);
    var w3 := Called(w2, "second", LATER, condemned, LATER + 15 * SECOND, [LATER]);
    LateRefresh(w3);
    RunsCompose(POLICY, w0, first + REFRESHES + second, [Label.FinishRefresh(true)]);
    steps := first + REFRESHES + second + [Label.FinishRefresh(true)];
    CallIsUnaided(w0, "first", NOON, EXPIRED);
    CallIsUnaided(w2, "second", LATER, LIMITED);
    RefreshesAreUnaided();
    NobodyAbout(NOON);
    BareRunFits(POLICY, w0, steps, {"task"}, {});
  }

  lemma NobodyAbout(clock: Time)
    ensures FewAbout(Initially(clock), {"task"}, {}) && Room({"task"}, {})
    ensures FewAbout(Initially(clock), {"task", "other"}, {}) && Room({"task", "other"}, {})
  {
  }

  lemma CallIsUnaided(w: World, id: Id, now: Time, outcome: Outcome)
    ensures forall i :: 0 <= i < |Call(w, id, now, outcome)| ==> Unaided(Call(w, id, now, outcome)[i]) && Bare(Call(w, id, now, outcome)[i], {"task"}, {})
  {
  }

  lemma RefreshesAreUnaided()
    ensures forall i :: 0 <= i < |REFRESHES| ==> Unaided(REFRESHES[i]) && Bare(REFRESHES[i], {"task"}, {})
    ensures Unaided(Label.FinishRefresh(true)) && Bare(Label.FinishRefresh(true), {"task"}, {})
  {
  }

  lemma ServedFacts(s: State, id: Id, now: Time, circuit: Circuit, cooldownUntil: Time)
    ensures var s' := Served(s, id, now, circuit, cooldownUntil);
            s'.circuit == circuit && !s'.inFlight && s'.queue == s.queue
  {
  }

  lemma IdleAtFirst()
    ensures Idle(FRESH, NOON)
  {
  }

  lemma IdleAgain()
    ensures var s := Served(FRESH, "first", NOON, BLOCKED, ZERO).(circuit := REOPENED);
            Idle(s, LATER) && "second" !in s.requestIDs
  {
  }

  lemma LateRefresh(w: World)
    requires w.refreshes == 1 && w.rates == [LATER]
    ensures Runnable(POLICY, w, [Label.FinishRefresh(true)])
    ensures !Stopped(POLICY, Run(POLICY, w, [Label.FinishRefresh(true)]))
  {
    var w' := Step(POLICY, w, Label.FinishRefresh(true));
    assert Run(POLICY, w', []) == w';
    assert Within(w'.rates, POLICY.rateResponseWindow, LATER) == {0};
  }
}
