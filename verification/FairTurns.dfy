/** Fair turns: no task keeps the lane past its quantum while another waits, and
    the queue never outgrows its capacity.
 */
module FairTurns {
  import opened Clock
  import opened Policy
  import opened Retention
  import opened AttemptReceipts
  import opened Lane
  import opened Runs
  import opened SingleLane
  import opened Fairness
  import opened SequenceNumbers
  import opened Admissions

  // The tasks of the permits that started, in the order of their turns.
  function Served(permits: seq<Permit>): seq<Id> {
    if permits == [] then []
    else
      var last := |permits| - 1;
      Served(permits[..last]) + (if permits[last].started then [permits[last].request.task] else [])
  }

  // The last `n` turns were all the task's.
  predicate HadTheLast(served: seq<Id>, task: Id, n: int) {
    0 <= n <= |served| && forall i :: |served| - n <= i < |served| ==> served[i] == task
  }

  // The governor knows whose turn was the last and how many in a row it makes.
  ghost predicate TurnsKnown(s: State, served: seq<Id>) {
    && (served == [] ==> s.currentTask == "" && s.consecutiveTurns == 0)
    && (served != [] ==> s.currentTask == served[|served| - 1])
    && HadTheLast(served, s.currentTask, s.consecutiveTurns)
    && (s.consecutiveTurns < |served| ==> served[|served| - 1 - s.consecutiveTurns] != s.currentTask)
  }

  lemma {:induction false} ServedAlike(permits: seq<Permit>, permits': seq<Permit>)
    requires NoneStarts(permits, permits')
    ensures Served(permits') == Served(permits)
    decreases |permits'|
  {
    if permits' != [] {
      var last := |permits'| - 1;
      if |permits'| > |permits| {
        assert NoneStarts(permits, permits'[..last]);
        ServedAlike(permits, permits'[..last]);
      } else {
        assert NoneStarts(permits[..last], permits'[..last]);
        ServedAlike(permits[..last], permits'[..last]);
      }
    }
  }

  lemma TurnTaken(s: State, s': State, served: seq<Id>, task: Id)
    requires TurnsKnown(s, served) && s'.currentTask == task
    requires s'.consecutiveTurns == if s.currentTask == task then s.consecutiveTurns + 1 else 1
    ensures TurnsKnown(s', served + [task])
  {
  }

  lemma StartTakesTheTurn(c: Config, s: State, p: Permit, receiptAware: bool, at: Time, choice: Choice)
    ensures var (s', p', error) := Start(c, s, p, receiptAware, at, choice);
            && s'.queue == s.queue && error == StartError(s, p)
            && (error.Some? ==> s' == s && p' == p)
            && (error.None? ==>
                  && !p.started && p'.started && p'.request == p.request && s'.currentTask == p.request.task
                  && s'.consecutiveTurns == if s.currentTask == p.request.task then s.consecutiveTurns + 1 else 1)
  {
    hide Survey, Spend, TaskOf;
    SurveyKeepsTurn(c, s, p.request.task, at, choice);
  }

  lemma StartingIsKnown(c: Config, w: World, step: Label)
    requires Enabled(c, w, step) && OneLane(w) && TurnsKnown(w.gov, Served(w.permits)) && step.Begin?
    ensures var w' := Step(c, w, step); TurnsKnown(w'.gov, Served(w'.permits)) && w'.gov.queue == w.gov.queue
  {
    hide Lane.Start, TurnsKnown, OneLane;
    var w', p := Step(c, w, step), w.permits[step.permit];
    StartTakesTheTurn(c, w.gov, p, step.receiptAware, step.at, step.surveyed);
    StartTakesTheNext(c, w, step);
    if StartError(w.gov, p).None? {
      assert w'.permits[step.permit].started && w'.permits[step.permit].request == p.request;
      assert w'.permits[..step.permit] == w.permits[..step.permit];
      assert Served(w.permits) == Served(w.permits[..step.permit]) + [];
      assert Served(w'.permits) == Served(w.permits) + [p.request.task];
      TurnTaken(w.gov, w'.gov, Served(w.permits), p.request.task);
    }
  }

  // What a section that starts nothing does to turns and queue.
  ghost predicate Passes(c: Config, s: State, s': State) {
    && s'.currentTask == s.currentTask && s'.consecutiveTurns == s.consecutiveTurns
    && (|s'.queue| <= |s.queue| || |s'.queue| <= c.queueCapacity)
  }

  lemma AdmittingPasses(c: Config, w: World, step: Label)
    requires Enabled(c, w, step) && step.Admit?
    ensures Passes(c, w.gov, Step(c, w, step).gov)
  {
    hide Check, Observe, PruneRequests, YoungTasks, YoungAttempts, Keepers;
    var s1 := Prune(w.gov, step.at, step.pruned);
    ObservePasses(c, s1, step.observed, step.at);
    CheckKeepsTurn(c, Observe(c, s1, step.observed, step.at), step.request, step.at, step.at, step.checked);
  }

  lemma LookingPasses(c: Config, w: World, step: Label)
    requires Enabled(c, w, step) && step.Look?
    ensures Passes(c, w.gov, Step(c, w, step).gov)
  {
    hide Check, Observe;
    ObservePasses(c, w.gov, step.observed, step.now);
    CheckKeepsTurn(c, Observe(c, w.gov, step.observed, step.now), w.gov.queue[step.index].request, step.now, step.at, step.checked);
  }

  lemma JoiningPasses(c: Config, w: World, step: Label)
    requires Enabled(c, w, step) && step.Join?
    ensures Passes(c, w.gov, Step(c, w, step).gov)
  {
    hide Enqueue;
    JoinMoves(c, w.gov, step.request, step.at, step.pruned);
    JoinsExactly(c, w.gov, step.request, step.at, step.pruned);
  }

  lemma ObservePasses(c: Config, s: State, observed: Option<TelemetrySnapshot>, now: Time)
    ensures KeepsTurn(s, Observe(c, s, observed, now))
  {
    hide TelemetryAfter, CircuitAfter, CooldownAfter;
  }

  lemma OtherStepPasses(c: Config, w: World, step: Label)
    requires Enabled(c, w, step) && !step.Admit? && !step.Look? && !step.Join? && !step.Begin?
    ensures Passes(c, w.gov, Step(c, w, step).gov)
  {
    hide Lane.Finish, FinishReceipts, CancelAfterStart, Lane.Expire, Survey, OutcomesToRecord, CallOutcome, NewReceipts, NewSightings;
    match step {
      case Finish(index, outcome, at, surveyed, draw) => FinishMoves(c, w.gov, w.permits[index], outcome, at, surveyed, draw);
      case FinishWithReceipts(index, outcome, set_, at, draws) => ReceiptsKeepTurn(c, w.gov, w.permits[index], outcome, set_, at, draws);
      case Abort(index, at) => AbortMoves(w.gov, w.permits[index], at);
      case Emit(task, at, surveyed) => SurveyKeepsTurn(c, w.gov, task, at, surveyed);
      case Save(at, pruned) => ExpirePasses(c, w.gov, at, pruned);
      case _ =>
    }
  }

  lemma ExpirePasses(c: Config, s: State, now: Time, choice: Choice)
    ensures KeepsTurn(s, Lane.Expire(c, s, now, choice))
  {
    hide PruneRequests, YoungTasks, YoungAttempts, Keepers, RecentRates, ExpireTelemetry;
  }

  ghost predicate Orderly(c: Config, w: World) {
    TurnsKnown(w.gov, Served(w.permits)) && |w.gov.queue| <= c.queueCapacity
  }

  lemma StepKeepsOrderly(c: Config, w: World, step: Label)
    requires Enabled(c, w, step) && OneLane(w) && Orderly(c, w)
    ensures Orderly(c, Step(c, w, step))
  {
    hide Step, OneLane, Served;
    if step.Begin? {
      StartingIsKnown(c, w, step);
    } else {
      NothingStarts(c, w, step);
      ServedAlike(w.permits, Step(c, w, step).permits);
      match step {
        case Admit(_, _, _, _, _, _) => AdmittingPasses(c, w, step);
        case Look(_, _, _, _, _, _) => LookingPasses(c, w, step);
        case Join(_, _, _) => JoiningPasses(c, w, step);
        case _ => OtherStepPasses(c, w, step);
      }
    }
  }

  lemma {:induction false} RunKeepsOrderly(c: Config, w: World, steps: seq<Label>)
    requires Runnable(c, w, steps) && OneLane(w) && Orderly(c, w)
    ensures Orderly(c, Run(c, w, steps))
    decreases |steps|
  {
    hide Step, OneLane, Orderly;
    if steps != [] {
      StepKeepsOneLane(c, w, steps[0]);
      StepKeepsOrderly(c, w, steps[0]);
      RunKeepsOrderly(c, Step(c, w, steps[0]), steps[1..]);
    }
  }

  /** After every run no more callers wait than the queue has room for. */
  lemma QueueNeverOverflows(c: Config, clock: Time, steps: seq<Label>)
    requires c.Valid() && Runnable(c, Initially(clock), steps)
    ensures |Run(c, Initially(clock), steps).gov.queue| <= c.queueCapacity
  {
    hide Runnable, Run, TurnsKnown;
    FreshIsOrderly(c, clock);
    RunKeepsOrderly(c, Initially(clock), steps);
  }

  lemma FreshIsOrderly(c: Config, clock: Time)
    requires c.Valid()
    ensures OneLane(Initially(clock)) && Orderly(c, Initially(clock))
  {
  }

  /** Whose turn it is, after every run: the head of the queue, unless the last
      turns, a quantum of them, were all its task's and somebody else waits;
      then the first waiter of another task. So no task has the lane for longer
      than its quantum while another waits. */
  lemma NobodyHogsTheLane(c: Config, clock: Time, steps: seq<Label>)
    requires c.Valid() && Runnable(c, Initially(clock), steps)
    ensures var w := Run(c, Initially(clock), steps);
            var queue, served, turn := w.gov.queue, Served(w.permits), Eligible(c, w.gov);
            && (turn < 0 <==> queue == [])
            && (turn > 0 ==>
                  && turn < |queue| && HadTheLast(served, queue[0].request.task, c.fairnessQuantum) && queue[turn].request.task != queue[0].request.task
                  && forall i :: 0 <= i < turn ==> queue[i].request.task == queue[0].request.task)
            && (turn == 0 && queue[0].request.task != "" && HadTheLast(served, queue[0].request.task, c.fairnessQuantum) ==>
                  forall i :: 0 <= i < |queue| ==> queue[i].request.task == queue[0].request.task)
  {
    hide Runnable, Run, Served;
    FreshIsOrderly(c, clock);
    RunKeepsOrderly(c, Initially(clock), steps);
    var w := Run(c, Initially(clock), steps);
    if w.gov.queue != [] {
      EligibleIs(c, w.gov, Served(w.permits));
    }
  }

  lemma EligibleIs(c: Config, s: State, served: seq<Id>)
    requires c.Valid() && TurnsKnown(s, served) && s.queue != []
    ensures var queue, turn, task := s.queue, Eligible(c, s), s.queue[0].request.task;
            && 0 <= turn < |queue|
            && (turn > 0 ==>
                  && HadTheLast(served, task, c.fairnessQuantum) && queue[turn].request.task != task
                  && forall i :: 0 <= i < turn ==> queue[i].request.task == task)
            && (turn == 0 && task != "" && HadTheLast(served, task, c.fairnessQuantum) ==> forall i :: 0 <= i < |queue| ==> queue[i].request.task == task)
  {
    QuantumIs(c, s, served, s.queue[0].request.task);
  }

  lemma QuantumIs(c: Config, s: State, served: seq<Id>, task: Id)
    requires c.Valid() && TurnsKnown(s, served)
    ensures HadTheLast(served, task, c.fairnessQuantum) <==> served != [] && s.currentTask == task && s.consecutiveTurns >= c.fairnessQuantum
  {
  }
}
