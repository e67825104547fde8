/** What a restart does show: whose turn it is.

    The restored governor answers every caller as the original would, but it
    does not remember who had the last turns, so for a while it may call a
    different waiter.
 */
module RestartTurns {
  import opened Clock
  import opened Policy
  import opened Retention
  import opened AttemptReceipts
  import opened Lane
  import opened Runs
  import opened SingleLane
  import opened Fairness
  import opened Persistence
  import Evictions
  import Race = RefreshRace
  import Cancelled = CancelledTurns

  // ----- Whose turn it is -----

  // The head would let another task pass.
  predicate PassesTheHead(c: Config, s: State) {
    && s.queue != [] && s.currentTask != "" && s.consecutiveTurns >= c.fairnessQuantum
    && 0 < FirstOther(s.queue, s.currentTask) < |s.queue|
  }

  lemma {:induction false} FirstOtherAlike(a: seq<Waiter>, b: seq<Waiter>, task: Id)
    requires |a| == |b| && forall i :: 0 <= i < |a| ==> a[i].request == b[i].request
    ensures FirstOther(a, task) == FirstOther(b, task)
  {
    if a != [] {
      FirstOtherAlike(a[1..], b[1..], task);
    }
  }

  /** What the restart does show: until its first start a restored governor has
      every turn taken by the head, so the two differ in whose turn it is if and
      only if the original would let another task pass the head. */
  lemma TurnsDifferExactly(c: Config, a: State, b: State)
    requires Alike(a, b) && b.currentTask == ""
    ensures Eligible(c, a) == Eligible(c, b) <==> !PassesTheHead(c, a)
  {
  }

  /** Once some task has started under the restored governor both name the same
      current task, and they differ only while the original counts turns the
      restored one does not remember. */
  lemma TurnsDifferAfterStart(c: Config, a: State, b: State)
    requires Alike(a, b) && b.currentTask == a.currentTask && b.consecutiveTurns <= a.consecutiveTurns
    ensures Eligible(c, a) == Eligible(c, b) <==> !(PassesTheHead(c, a) && b.consecutiveTurns < c.fairnessQuantum)
  {
    FirstOtherAlike(a.queue, b.queue, a.currentTask);
  }

  /** With one waiter at a time it is always the same waiter's turn. */
  lemma LoneWaitersTurn(c: Config, a: State, b: State)
    requires Alike(a, b) && |a.queue| <= 1
    ensures Eligible(c, a) == Eligible(c, b) && !PassesTheHead(c, a)
  {
  }

  // ----- Through a run -----

  predicate SameTurns(s: State, s': State) {
    s'.currentTask == s.currentTask && s'.consecutiveTurns == s.consecutiveTurns
  }

  lemma OnlyStartsTakeTurns(c: Config, w: World, step: Label)
    requires Enabled(c, w, step) && !step.Begin?
    ensures SameTurns(w.gov, Step(c, w, step).gov)
  {
    hide TryAdmit, QueueCheck, Lane.Finish, FinishReceipts, CancelAfterStart, Prune, Lane.Expire;
    match step {
      case Admit(request, at, observed, cancelled, pruned, checked) => AdmitMoves(c, w.gov, request, at, observed, cancelled, pruned, checked);
      case Look(index, now, at, observed, cancelled, checked) => LookMoves(c, w.gov, index, now, at, observed, cancelled, checked);
      case Join(_, at, pruned) => PruneKeepsTurns(w.gov, at, pruned);
      case Finish(index, outcome, at, surveyed, draw) => FinishMoves(c, w.gov, w.permits[index], outcome, at, surveyed, draw);
      case FinishWithReceipts(index, outcome, set_, at, draws) => ReceiptsKeepTurn(c, w.gov, w.permits[index], outcome, set_, at, draws);
      case Abort(index, at) => AbortMoves(w.gov, w.permits[index], at);
      case Save(at, pruned) => ExpireKeepsTurns(c, w.gov, at, pruned);
      case Emit(_, at, surveyed) => ExpireKeepsTurns(c, w.gov, at, surveyed);
      case _ =>
    }
  }

  lemma PruneKeepsTurns(s: State, now: Time, choice: Choice)
    ensures SameTurns(s, Prune(s, now, choice))
  {
    hide PruneRequests, YoungTasks, YoungAttempts, Keepers;
  }

  lemma ExpireKeepsTurns(c: Config, s: State, now: Time, choice: Choice)
    ensures SameTurns(s, Lane.Expire(c, s, now, choice))
  {
    hide PruneRequests, YoungTasks, YoungAttempts, Keepers, RecentRates, ExpireTelemetry;
  }

  // The restored governor knows nothing, or the current task and some of its
  // turns.
  predicate RemembersFewer(a: State, b: State) {
    b.currentTask == "" || (b.currentTask == a.currentTask && b.consecutiveTurns <= a.consecutiveTurns)
  }

  lemma StartingRemembersFewer(c: Config, a: State, b: State, p: Permit, receiptAware: bool, at: Time, choice: Choice)
    requires RemembersFewer(a, b) && a.inFlight == b.inFlight
    ensures RemembersFewer(Lane.Start(c, a, p, receiptAware, at, choice).0, Lane.Start(c, b, p, receiptAware, at, choice).0)
  {
    hide Survey, Spend, StartError;
    assert StartError(a, p).None? == StartError(b, p).None? by {
      SameStartError(a, b, p);
    }
    SurveyKeepsTurn(c, a, p.request.task, at, choice);
    SurveyKeepsTurn(c, b, p.request.task, at, choice);
  }

  lemma SameStartError(a: State, b: State, p: Permit)
    requires a.inFlight == b.inFlight
    ensures StartError(a, p) == StartError(b, p)
  {
  }

  lemma StepRemembersFewer(c: Config, w: World, w': World, step: Label, since: Time)
    requires Mirrored(w, w', since) && Enabled(c, w, step) && Enabled(c, w', step) && RemembersFewer(w.gov, w'.gov)
    ensures RemembersFewer(Step(c, w, step).gov, Step(c, w', step).gov)
  {
    hide Lane.Start;
    if step.Begin? {
      StartingRemembersFewer(c, w.gov, w'.gov, w.permits[step.permit], step.receiptAware, step.at, step.surveyed);
    } else {
      hide Step;
      OnlyStartsTakeTurns(c, w, step);
      OnlyStartsTakeTurns(c, w', step);
    }
  }

  lemma {:induction false} RunRemembersFewer(c: Config, w: World, w': World, steps: seq<Label>, since: Time)
    requires Mirrored(w, w', since) && Runnable(c, w, steps) && ComparableRun(c, w, w', steps, since) && RemembersFewer(w.gov, w'.gov)
    ensures Runnable(c, w', steps) && RemembersFewer(Run(c, w, steps).gov, Run(c, w', steps).gov)
    ensures Mirrored(Run(c, w, steps), Run(c, w', steps), since)
    decreases |steps|
  {
    hide Step, Mirrored, Enabled, Comparable, RemembersFewer;
    if steps != [] {
      StepMirrors(c, w, w', steps[0], since);
      StepRemembersFewer(c, w, w', steps[0], since);
      RunRemembersFewer(c, Step(c, w, steps[0]), Step(c, w', steps[0]), steps[1..], since);
    }
  }

  /** After every comparable run, the two governors call different waiters if
      and only if the original lets another task pass the head and the restored
      one has not yet seen the current task use up its quantum. In particular
      they agree whenever at most one waiter is queued. */
  lemma TurnsAfterRestart(c: Config, w: World, w': World, steps: seq<Label>, since: Time)
    requires Mirrored(w, w', since) && Runnable(c, w, steps) && ComparableRun(c, w, w', steps, since) && RemembersFewer(w.gov, w'.gov)
    ensures Runnable(c, w', steps)
    ensures var (a, b) := (Run(c, w, steps).gov, Run(c, w', steps).gov);
            && (Eligible(c, a) != Eligible(c, b) <==>
                  PassesTheHead(c, a) && (b.currentTask == "" || b.consecutiveTurns < c.fairnessQuantum))
            && (|a.queue| <= 1 ==> Eligible(c, a) == Eligible(c, b))
  {
    hide Runnable, Run, ComparableRun, OneLane, Eligible, PassesTheHead;
    RunRemembersFewer(c, w, w', steps, since);
    var a, b := Run(c, w, steps).gov, Run(c, w', steps).gov;
    if b.currentTask == "" {
      TurnsDifferExactly(c, a, b);
    } else {
      TurnsDifferAfterStart(c, a, b);
    }
    if |a.queue| <= 1 {
      LoneWaitersTurn(c, a, b);
    }
  }

  /** A restored governor starts out remembering nothing. */
  lemma RestartForgetsTurns(c: Config, w: World, saveAt: Time, saving: Choice, restart: Time, restoring: Choice, now: Time, choice: Choice)
    ensures Successor(c, w, saveAt, saving, restart, restoring, now, choice).gov.currentTask == ""
  {
    hide Saved, PruneRequests, YoungTasks, YoungAttempts, Keepers, RecentRates, ExpireTelemetry, RestoreCircuit, Dated, MergeSeen;
  }

  // ----- A turn forgotten -----

  const JOINS: seq<Label> := [Join(Cancelled.WAITING, Race.LATER, Race.NONE), Join(Cancelled.PASSER, Race.LATER, Race.NONE)]

  // The world after one call of the task.
  function AfterOneCall(): World {
    Race.Called(Initially(Race.NOON), "first", Race.NOON, FRESH_CIRCUIT, ZERO, [])
  }

  function CarriedOn(): World {
    Original(Race.POLICY, AfterOneCall(), Race.LATER, Race.NONE, Race.LATER, Race.NONE)
  }

  function StartedOver(): World {
    Successor(Race.POLICY, AfterOneCall(), Race.LATER, Race.NONE, Race.LATER, Race.NONE, Race.LATER, Race.NONE)
  }

  lemma OneCallIsReached() returns (history: seq<Label>)
    ensures Runnable(Race.POLICY, Initially(Race.NOON), history) && Run(Race.POLICY, Initially(Race.NOON), history) == AfterOneCall()
  {
    hide Runnable, Run, Race.Idle, Race.Served, Lane.Finish;
    Race.IdleAtFirst();
    Race.CallFinished(FRESH, "first", Race.NOON, Cancelled.SERVED);
    history := Race.Call(Initially(Race.NOON), "first", Race.NOON, Cancelled.SERVED);
    Race.CallRuns(Initially(Race.NOON), "first", Race.NOON, Cancelled.SERVED, FRESH_CIRCUIT, ZERO);
  }

  lemma OneCallIsIdle()
    ensures var s := AfterOneCall().gov;
            && Restorable(s) && Race.NothingOld(s, Race.LATER) && s.requestIDs.Keys == {"first"} && s.completed == [Completion("first", Race.NOON)]
            && s.tasks.Keys == {"task"} && s.attemptIDs == map[] && OneLane(AfterOneCall()) && AfterOneCall().clock == Race.NOON
  {
  }

  lemma CarriedOnIs()
    ensures CarriedOn() == AfterOneCall().(clock := Race.LATER)
    ensures Saved(Race.POLICY, AfterOneCall().gov, Race.LATER, Race.NONE) == AfterOneCall().gov
  {
    hide AfterOneCall, Race.NothingOld, Lane.Expire;
    OneCallIsIdle();
    Race.NothingExpired(AfterOneCall().gov, Race.LATER);
  }

  lemma BothMirror()
    ensures Mirrored(CarriedOn(), StartedOver(), Race.LATER)
    ensures StartedOver().gov.requestIDs.Keys <= {"first"} && StartedOver().gov.currentTask == ""
  {
    hide AfterOneCall, Mirrored, Lane.Expire, ChoiceFits, Merge, Restore;
    OneCallIsIdle();
    CarriedOnIs();
    var s := AfterOneCall().gov;
    assert Evictions.Room({"task"}, {});
    Evictions.FewFit(s, {"task"}, {}, Race.LATER);
    MergedAlike(s);
    Evictions.FewFit(Merge(FRESH, Project(s), Race.LATER), {"task"}, {}, Race.LATER);
    RestartMirrors(Race.POLICY, AfterOneCall(), Race.LATER, Race.NONE, Race.LATER, Race.NONE, Race.LATER, Race.NONE);
    RestartForgetsTurns(Race.POLICY, AfterOneCall(), Race.LATER, Race.NONE, Race.LATER, Race.NONE, Race.LATER, Race.NONE);
    RestartedIds(s);
  }

  lemma MergedAlike(s: State)
    requires s.tasks.Keys == {"task"} && s.attemptIDs == map[]
    ensures var merged := Merge(FRESH, Project(s), Race.LATER); Evictions.Few(merged, {"task"}, {})
  {
    hide RestoreCircuit, Dated;
  }

  lemma RestartedIds(s: State)
    requires s.requestIDs.Keys == {"first"}
    ensures Lane.Expire(Race.POLICY, Restarted(s, Race.LATER, Race.NONE), Race.LATER, Race.NONE).requestIDs.Keys <= {"first"}
  {
    hide YoungTasks, YoungAttempts, Keepers, RestoreCircuit, Dated, MergeSeen, RecentRates, ExpireTelemetry;
    NothingScanned(s.requestIDs, Race.LATER);
    assert map[] + s.requestIDs == s.requestIDs;
  }

  lemma EnqueueIds(c: Config, s: State, request: Request, at: Time)
    ensures var s' := Enqueue(c, s, request, at, Race.NONE).0;
            s'.requestIDs.Keys <= s.requestIDs.Keys + {request.id} && SameTurns(s, s')
  {
    hide PruneRequests, YoungTasks, YoungAttempts, Keepers;
    PruneForgetsOnlyCompleted(s.completed, s.requestIDs, at);
  }

  lemma JoinStep(w: World, i: nat)
    requires i < 2 && w.clock <= Race.LATER
    ensures Enabled(Race.POLICY, w, JOINS[i])
    ensures var w' := Step(Race.POLICY, w, JOINS[i]);
            w'.gov == Enqueue(Race.POLICY, w.gov, JOINS[i].request, Race.LATER, Race.NONE).0 && w'.clock == Race.LATER
  {
    hide Enqueue;
  }

  lemma CarriedOnJoins()
    ensures var w1 := Step(Race.POLICY, CarriedOn(), JOINS[0]);
            && Enabled(Race.POLICY, CarriedOn(), JOINS[0]) && Enabled(Race.POLICY, w1, JOINS[1])
            && "waiting" !in CarriedOn().gov.requestIDs && "passer" !in w1.gov.requestIDs
            && Eligible(Race.POLICY, Step(Race.POLICY, w1, JOINS[1]).gov) == 1
            && |Step(Race.POLICY, w1, JOINS[1]).gov.queue| == 2
  {
    hide *;
    CarriedOnFacts();
    HeadThenPasser();
    TwoJoins(CarriedOn());
  }

  lemma CarriedOnFacts()
    ensures CarriedOn().gov == AfterOneCall().gov && CarriedOn().clock <= Race.LATER && "waiting" !in CarriedOn().gov.requestIDs
  {
    hide *;
    CarriedOnIs();
    WaitingIsNew();
  }

  lemma WaitingIsNew()
    ensures "waiting" !in AfterOneCall().gov.requestIDs
  {
  }

  lemma TwoJoins(w: World)
    requires w.clock <= Race.LATER
    ensures var w1 := Step(Race.POLICY, w, JOINS[0]);
            && Enabled(Race.POLICY, w, JOINS[0]) && Enabled(Race.POLICY, w1, JOINS[1])
            && w1.gov == Enqueue(Race.POLICY, w.gov, Cancelled.WAITING, Race.LATER, Race.NONE).0
            && Step(Race.POLICY, w1, JOINS[1]).gov == Enqueue(Race.POLICY, w1.gov, Cancelled.PASSER, Race.LATER, Race.NONE).0
  {
    hide Step, Enabled, Enqueue;
    JoinStep(w, 0);
    JoinStep(Step(Race.POLICY, w, JOINS[0]), 1);
  }

  lemma HeadThenPasser()
    ensures var s1 := Enqueue(Race.POLICY, AfterOneCall().gov, Cancelled.WAITING, Race.LATER, Race.NONE).0;
            var s2 := Enqueue(Race.POLICY, s1, Cancelled.PASSER, Race.LATER, Race.NONE).0;
            "passer" !in s1.requestIDs && Eligible(Race.POLICY, s2) == 1 && |s2.queue| == 2
  {
    hide Enqueue, Race.Served, Eligible, AfterOneCall, Race.NothingOld, Joined;
    AfterOneCallIs();
    Cancelled.HeadJoins();
    var s1 := Enqueue(Race.POLICY, AfterOneCall().gov, Cancelled.WAITING, Race.LATER, Race.NONE).0;
    Cancelled.PasserJoins(s1);
    Cancelled.JoinedQueue(s1);
  }

  lemma AfterOneCallIs()
    ensures AfterOneCall().gov == Race.Served(FRESH, "first", Race.NOON, FRESH_CIRCUIT, ZERO)
  {
  }

  lemma BothJoin()
    ensures Runnable(Race.POLICY, CarriedOn(), JOINS) && ComparableRun(Race.POLICY, CarriedOn(), StartedOver(), JOINS, Race.LATER)
    ensures Run(Race.POLICY, CarriedOn(), JOINS) == Step(Race.POLICY, Step(Race.POLICY, CarriedOn(), JOINS[0]), JOINS[1])
    ensures Runnable(Race.POLICY, StartedOver(), JOINS) ==>
      Run(Race.POLICY, StartedOver(), JOINS) == Step(Race.POLICY, Step(Race.POLICY, StartedOver(), JOINS[0]), JOINS[1])
  {
    hide CarriedOn, StartedOver, Step, Enabled, Eligible;
    CarriedOnJoins();
    BothMirror();
    var w, w' := CarriedOn(), StartedOver();
    var w1 := Step(Race.POLICY, w, JOINS[0]);
    BothRun(w);
    if Enabled(Race.POLICY, w', JOINS[0]) {
      JoiningAddsOneId(w', 0);
      assert ComparableRun(Race.POLICY, w1, Step(Race.POLICY, w', JOINS[0]), JOINS[1..], Race.LATER) by {
        assert JOINS[1..] == [JOINS[1]] && JOINS[1..][1..] == [];
      }
      if Enabled(Race.POLICY, Step(Race.POLICY, w', JOINS[0]), JOINS[1]) {
        BothRun(w');
      }
    }
    if Runnable(Race.POLICY, w', JOINS) {
      RunnableMeans(w');
    }
  }

  lemma BothRun(w: World)
    requires Enabled(Race.POLICY, w, JOINS[0]) && Enabled(Race.POLICY, Step(Race.POLICY, w, JOINS[0]), JOINS[1])
    ensures Runnable(Race.POLICY, w, JOINS)
    ensures Run(Race.POLICY, w, JOINS) == Step(Race.POLICY, Step(Race.POLICY, w, JOINS[0]), JOINS[1])
  {
    hide Step, Enabled;
    var w1 := Step(Race.POLICY, w, JOINS[0]);
    assert JOINS[1..] == [JOINS[1]] && JOINS[1..][1..] == [];
    assert Runnable(Race.POLICY, w1, JOINS[1..]);
    assert Run(Race.POLICY, w1, JOINS[1..]) == Run(Race.POLICY, Step(Race.POLICY, w1, JOINS[1]), []);
  }

  lemma JoiningAddsOneId(w: World, i: nat)
    requires i < 2 && Enabled(Race.POLICY, w, JOINS[i])
    ensures var w' := Step(Race.POLICY, w, JOINS[i]);
            w'.gov.requestIDs.Keys <= w.gov.requestIDs.Keys + {JOINS[i].request.id} && SameTurns(w.gov, w'.gov)
  {
    hide Enqueue;
    EnqueueIds(Race.POLICY, w.gov, JOINS[i].request, Race.LATER);
  }

  lemma HeadsTurn(s: State)
    requires s.queue != [] && s.currentTask == ""
    ensures Eligible(Race.POLICY, s) == 0
  {
  }

  /** The turn is really lost: after this call, the governor that carries on
      lets the second caller pass the first, and the restored one does not. */
  lemma TurnIsForgotten() returns (history: seq<Label>)
    ensures Race.POLICY.Valid() && Runnable(Race.POLICY, Initially(Race.NOON), history)
    ensures Run(Race.POLICY, Initially(Race.NOON), history) == AfterOneCall()
    ensures Runnable(Race.POLICY, CarriedOn(), JOINS) && ComparableRun(Race.POLICY, CarriedOn(), StartedOver(), JOINS, Race.LATER)
    ensures Runnable(Race.POLICY, StartedOver(), JOINS)
    ensures Eligible(Race.POLICY, Run(Race.POLICY, CarriedOn(), JOINS).gov) == 1
    ensures Eligible(Race.POLICY, Run(Race.POLICY, StartedOver(), JOINS).gov) == 0
  {
    hide Runnable, Run, AfterOneCall, CarriedOn, StartedOver, Eligible, ComparableRun, Step, Enabled, OneLane, SameCircuit;
    history := OneCallIsReached();
    BothMirror();
    BothJoin();
    CarriedOnJoins();
    RunMirrors(Race.POLICY, CarriedOn(), StartedOver(), JOINS, Race.LATER);
    var w' := StartedOver();
    RunnableMeans(w');
    JoiningAddsOneId(w', 0);
    JoiningAddsOneId(Step(Race.POLICY, w', JOINS[0]), 1);
    HeadsTurn(Run(Race.POLICY, w', JOINS).gov);
  }

  lemma RunnableMeans(w: World)
    requires Runnable(Race.POLICY, w, JOINS)
    ensures Enabled(Race.POLICY, w, JOINS[0]) && Enabled(Race.POLICY, Step(Race.POLICY, w, JOINS[0]), JOINS[1])
  {
    assert JOINS[1..][0] == JOINS[1];
  }
}
