/** The run in which a task starts more attempts than its budget: it spends the
    budget, stays out of sight for a retention window, and starts over.
 */
module ForgottenBudget {
  import opened Clock
  import opened Policy
  import opened Ledger
  import opened Retention
  import opened Lane
  import opened Runs
  import opened BudgetRuns
  import opened Evictions
  import opened RefreshRace

  const SERVED := Outcome(Success, 0, ZERO, Delivered)
  const LONG_AFTER: Time := LATER + RETENTION

  function Once(): World {
    Called(Initially(NOON), "first", NOON, FRESH_CIRCUIT, ZERO, [])
  }

  function Twice(): World {
    Called(Once(), "second", LATER, FRESH_CIRCUIT, ZERO, [])
  }

  // The state once everything about the task is forgotten.
  function Blank(s: State): State {
    s.(ledger := [], tasks := map[], completed := [], requestIDs := map[])
  }

  lemma ServedIsIdle(s: State, id: Id, now: Time, later: Time, next: Id)
    requires RefreshRace.Idle(s, now) && id !in s.requestIDs && s.circuit == FRESH_CIRCUIT && TaskOf(s, "task").attempts == 0
    requires |s.completed| < MAX_COMPLETED && now + SECOND <= later && later <= now + HOUR && next != id && next !in s.requestIDs
    requires NothingOld(s, later)
    ensures var s' := Served(s, id, now, FRESH_CIRCUIT, ZERO); RefreshRace.Idle(s', later) && next !in s'.requestIDs
  {
  }

  lemma CalledAgain(w: World, id: Id, now: Time)
    requires RefreshRace.Idle(w.gov, now) && id !in w.gov.requestIDs && w.clock <= now && w.gov.circuit == FRESH_CIRCUIT
    ensures Runnable(POLICY, w, Call(w, id, now, SERVED))
    ensures Run(POLICY, w, Call(w, id, now, SERVED)) == Called(w, id, now, FRESH_CIRCUIT, ZERO, [])
  {
    hide Runnable, Run, RefreshRace.Idle, Served, Lane.Finish;
    CallFinished(w.gov, id, now, SERVED);
    CallRuns(w, id, now, SERVED, FRESH_CIRCUIT, ZERO);
  }

  // Everything the two calls left has aged out by then.
  lemma AllForgotten(s: State)
    requires s == Twice().gov
    ensures Lane.Expire(POLICY, s, LONG_AFTER, NONE) == Blank(s) && RefreshRace.Idle(Blank(s), LONG_AFTER)
  {
    var entries, ids := [Completion("first", NOON), Completion("second", LATER)], map["first" := Completed(NOON), "second" := Completed(LATER)];
    assert s.completed == entries && s.requestIDs == ids;
    BothScanned(entries, ids);
    assert YoungTasks(s.tasks, Protected(s), LONG_AFTER) - {} == map[];
    assert s.attemptIDs == map[] && YoungAttempts(map[], LONG_AFTER) - {} == map[];
    assert s.ledger == [Event(NOON, "task"), Event(LATER, "task")];
    FirstAfterIs(s.ledger, LONG_AFTER - THREE_HOURS, 2);
    assert s.ledger[2..] == [];
  }

  lemma BothScanned(entries: seq<Completion>, ids: map<Id, Record>)
    requires entries == [Completion("first", NOON), Completion("second", LATER)]
    requires ids == map["first" := Completed(NOON), "second" := Completed(LATER)]
    ensures PruneRequests(entries, ids, LONG_AFTER) == ([], map[])
  {
    assert entries[1..] == [Completion("second", LATER)] && entries[1..][1..] == [];
    var rest := ids - {"first"};
    assert rest == map["second" := Completed(LATER)] && rest - {"second"} == map[];
    assert Scan(entries[1..], rest, LONG_AFTER - RETENTION) == ([], map[]);
    assert Scan(entries, ids, LONG_AFTER - RETENTION) == ([], map[]);
  }

  lemma SaveRuns(w: World, at: Time)
    requires w.clock <= at
    ensures Runnable(POLICY, w, [Save(at, NONE)])
    ensures Run(POLICY, w, [Save(at, NONE)]) == w.(gov := Lane.Expire(POLICY, w.gov, at, NONE), clock := at)
  {
    hide Lane.Expire, Lane.TryAdmit, QueueCheck, Enqueue, Lane.Start, Lane.Finish, FinishReceipts;
    var w' := Step(POLICY, w, Save(at, NONE));
    assert [Save(at, NONE)][1..] == [];
    assert Run(POLICY, w', []) == w';
  }

  // Saved that late, the governor has forgotten the task.
  lemma SavedLater()
    ensures Runnable(POLICY, Twice(), [Save(LONG_AFTER, NONE)]) && Run(POLICY, Twice(), [Save(LONG_AFTER, NONE)]) == Forgotten()
    ensures RefreshRace.Idle(Forgotten().gov, LONG_AFTER) && "third" !in Forgotten().gov.requestIDs
    ensures Forgotten().clock == LONG_AFTER && Forgotten().gov.circuit == FRESH_CIRCUIT
  {
    hide Lane.Expire, Twice, Runnable, Run, RefreshRace.Idle;
    TwiceClock();
    SaveRuns(Twice(), LONG_AFTER);
    AllForgotten(Twice().gov);
  }

  lemma TwiceClock()
    ensures Twice().clock == LATER && Twice().gov.circuit == FRESH_CIRCUIT && |Twice().permits| == 2
    ensures Once().gov == Served(FRESH, "first", NOON, FRESH_CIRCUIT, ZERO) && Once().clock == NOON && Once().gov.circuit == FRESH_CIRCUIT
  {
  }

  lemma BudgetIsSpent() returns (steps: seq<Label>)
    ensures Runnable(POLICY, Initially(NOON), steps) && Run(POLICY, Initially(NOON), steps) == Twice() && AllBare(steps)
  {
    hide Runnable, Run, RefreshRace.Idle, Served, Once, Twice, Bare;
    IdleAtFirst();
    ServedIsIdle(FRESH, "first", NOON, LATER, "second");
    CalledAgain(Initially(NOON), "first", NOON);
    TwiceClock();
    CalledAgain(Once(), "second", LATER);
    CalledTwice();
    var first, second := Call(Initially(NOON), "first", NOON, SERVED), Call(Once(), "second", LATER, SERVED);
    RunsCompose(POLICY, Initially(NOON), first, second);
    CallIsUnaided(Initially(NOON), "first", NOON, SERVED);
    CallIsUnaided(Once(), "second", LATER, SERVED);
    steps := first + second;
  }

  predicate AllBare(steps: seq<Label>) {
    forall i :: 0 <= i < |steps| ==> Bare(steps[i], {"task"}, {})
  }

  function Forgotten(): World {
    Twice().(gov := Blank(Twice().gov), clock := LONG_AFTER)
  }

  lemma BudgetIsForgotten() returns (steps: seq<Label>)
    ensures Runnable(POLICY, Twice(), steps) && AllBare(steps)
    ensures Run(POLICY, Twice(), steps) == Called(Forgotten(), "third", LONG_AFTER, FRESH_CIRCUIT, ZERO, [])
  {
    hide Runnable, Run, RefreshRace.Idle, Served, Twice, Forgotten, Bare, Called, Call;
    SavedLater();
    CalledAgain(Forgotten(), "third", LONG_AFTER);
    var save, third := [Save(LONG_AFTER, NONE)], Call(Forgotten(), "third", LONG_AFTER, SERVED);
    RunsCompose(POLICY, Twice(), save, third);
    CallIsUnaided(Forgotten(), "third", LONG_AFTER, SERVED);
    SaveIsBare();
    steps := save + third;
  }

  /** A task can start more attempts than its budget: under a valid policy, this
      run starts three for one task whose budget is two. */
  lemma BudgetStartsOver() returns (steps: seq<Label>)
    ensures POLICY.Valid() && Runnable(POLICY, Initially(NOON), steps) && FittingRun(POLICY, Initially(NOON), steps)
    ensures StartedFor(Run(POLICY, Initially(NOON), steps).permits, "task") > POLICY.taskBudget
  {
    hide Runnable, Run, Twice, Forgotten, FittingRun, Bare, FewAbout, StartedFor, Called;
    var spent := BudgetIsSpent();
    var again := BudgetIsForgotten();
    RunsCompose(POLICY, Initially(NOON), spent, again);
    steps := spent + again;
    ThreeStarted();
    NobodyAbout(NOON);
    BareRunFits(POLICY, Initially(NOON), steps, {"task"}, {});
  }

  lemma CalledTwice()
    ensures Once() == Called(Initially(NOON), "first", NOON, FRESH_CIRCUIT, ZERO, [])
    ensures Twice() == Called(Once(), "second", LATER, FRESH_CIRCUIT, ZERO, [])
  {
  }

  lemma SaveIsBare()
    ensures Bare(Save(LONG_AFTER, NONE), {"task"}, {})
  {
  }

  lemma ThreeStarted()
    ensures StartedFor(Called(Forgotten(), "third", LONG_AFTER, FRESH_CIRCUIT, ZERO, []).permits, "task") == 3
  {
    var permits := Called(Forgotten(), "third", LONG_AFTER, FRESH_CIRCUIT, ZERO, []).permits;
    assert |permits| == 3 && forall i :: 0 <= i < 3 ==> permits[i].started && permits[i].request.task == "task";
    AllStarted(permits);
  }

  lemma {:induction false} AllStarted(permits: seq<Permit>)
    requires forall i :: 0 <= i < |permits| ==> permits[i].started && permits[i].request.task == "task"
    ensures StartedFor(permits, "task") == |permits|
  {
    if permits != [] {
      AllStarted(permits[..|permits| - 1]);
    }
  }
}
