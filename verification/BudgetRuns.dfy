/** Task budgets over whole runs: however many callers share the lane, a task
    never starts more attempts, nor more retries, than its budgets allow, as
    long as its counters are remembered.
 */
module BudgetRuns {
  import opened Clock
  import opened Policy
  import opened Retention
  import opened AttemptReceipts
  import opened Lane
  import opened Runs
  import opened SingleLane
  import opened RateLimits

  function StartedFor(permits: seq<Permit>, task: Id): nat {
    if permits == [] then 0
    else
      var last := permits[|permits| - 1];
      StartedFor(permits[..|permits| - 1], task) + (if last.started && last.request.task == task then 1 else 0)
  }

  function RetriedFor(permits: seq<Permit>, task: Id): nat {
    if permits == [] then 0
    else
      var last := permits[|permits| - 1];
      RetriedFor(permits[..|permits| - 1], task) + (if last.started && last.request.task == task && last.request.retry then 1 else 0)
  }

  lemma {:induction false} CountsDependOnStarts(a: seq<Permit>, b: seq<Permit>, task: Id)
    requires |a| == |b| && forall i :: 0 <= i < |a| ==> a[i].started == b[i].started && a[i].request == b[i].request
    ensures StartedFor(a, task) == StartedFor(b, task) && RetriedFor(a, task) == RetriedFor(b, task)
  {
    if a != [] {
      CountsDependOnStarts(a[..|a| - 1], b[..|b| - 1], task);
    }
  }

  // ----- When a task's counters are remembered -----

  // The task was seen less than a retention window ago, or holds a place.
  predicate Recent(s: State, task: Id, now: Time) {
    task in s.tasks ==> s.tasks[task].lastTouched > now - RETENTION || task in Protected(s)
  }

  // No cap eviction of the step picks the task.
  predicate Spares(step: Label, task: Id) {
    match step
    case Admit(_, _, _, _, pruned, checked) => task !in pruned.tasks && task !in checked.tasks
    case Join(_, _, pruned) => task !in pruned.tasks
    case Look(_, _, _, _, _, checked) => task !in checked.tasks
    case Begin(_, _, _, surveyed) => task !in surveyed.tasks
    case Finish(_, _, _, surveyed, draw) => task !in surveyed.tasks && task !in draw.choice.tasks
    case Save(_, pruned) => task !in pruned.tasks
    case Emit(_, _, surveyed) => task !in surveyed.tasks
    case _ => true
  }

  predicate SameCounts(s: State, s': State, task: Id) {
    TaskOf(s', task).attempts == TaskOf(s, task).attempts && TaskOf(s', task).retries == TaskOf(s, task).retries
  }

  // What a prune must leave for the next one in the same section.
  predicate Kept(s: State, s': State, task: Id, now: Time) {
    SameLane(s, s') && s'.queue == s.queue && SameCounts(s, s', task) && Recent(s', task, now)
  }

  lemma PruneKeepsCounts(s: State, now: Time, choice: Choice, task: Id)
    requires Recent(s, task, now) && task !in choice.tasks
    ensures Kept(s, Prune(s, now, choice), task, now)
  {
    hide PruneRequests, YoungAttempts, Keepers;
  }

  lemma ExpireKeepsCounts(c: Config, s: State, now: Time, choice: Choice, task: Id)
    requires Recent(s, task, now) && task !in choice.tasks
    ensures Kept(s, Lane.Expire(c, s, now, choice), task, now)
  {
    hide Prune, RecentRates, ExpireTelemetry;
    PruneKeepsCounts(s, now, choice, task);
  }

  lemma SurveyKeepsCounts(c: Config, s: State, touched: Id, now: Time, choice: Choice, task: Id)
    requires Recent(s, task, now) && task !in choice.tasks
    ensures Kept(s, Survey(c, s, touched, now, choice), task, now)
  {
    hide Lane.Expire;
    ExpireKeepsCounts(c, s, now, choice, task);
  }

  lemma CheckKeepsCounts(c: Config, s: State, request: Request, now: Time, at: Time, choice: Choice, task: Id)
    requires Recent(s, task, at) && task !in choice.tasks && now <= at
    ensures var (s', verdict) := Check(c, s, request, now, at, choice);
            && SameLane(s, s') && s'.queue == s.queue && SameCounts(s, s', task)
            && (verdict.Pass? && request.task == task ==>
                  TaskOf(s', task).attempts < c.taskBudget && (request.retry ==> TaskOf(s', task).retries < c.retryBudget))
  {
    hide Lane.Expire, CircuitChecked, GateVerdict;
    ExpireKeepsCounts(c, s, now, choice, task);
  }

  lemma RecordOutcomeKeepsCounts(c: Config, s: State, recorded: Id, now: Time, outcome: Outcome, draw: Draw, task: Id)
    requires Recent(s, task, now) && task !in draw.choice.tasks
    ensures SameCounts(s, RecordOutcome(c, s, recorded, now, outcome, draw).0, task)
  {
    hide Lane.Expire, RateResponse, SelectedBackoff, OtherResponse, AsRecorded;
    ExpireKeepsCounts(c, s, now, draw.choice, task);
  }

  lemma AdmitKeepsCounts(c: Config, s: State, request: Request, at: Time, observed: Option<TelemetrySnapshot>, cancelled: bool,
                         pruned: Choice, checked: Choice, task: Id)
    requires Recent(s, task, at) && task !in pruned.tasks && task !in checked.tasks
    ensures var (s', admission) := TryAdmit(c, s, request, at, observed, cancelled, pruned, checked);
            && SameCounts(s, s', task)
            && (admission.Granted? ==> admission.permit == Fresh(request))
            && (admission.Granted? && request.task == task ==>
                  TaskOf(s', task).attempts < c.taskBudget && (request.retry ==> TaskOf(s', task).retries < c.retryBudget))
  {
    hide Check, Prune, TelemetryAfter, CircuitAfter, CooldownAfter;
    var s1 := Prune(s, at, pruned);
    PruneKeepsCounts(s, at, pruned, task);
    CheckKeepsCounts(c, Observe(c, s1, observed, at), request, at, at, checked, task);
  }

  lemma LookKeepsCounts(c: Config, s: State, index: nat, now: Time, at: Time, observed: Option<TelemetrySnapshot>, cancelled: bool,
                        checked: Choice, task: Id)
    requires index < |s.queue| && now <= at && Recent(s, task, at) && task !in checked.tasks
    ensures var (s', admission) := QueueCheck(c, s, index, now, at, observed, cancelled, checked);
            var request := s.queue[index].request;
            && SameCounts(s, s', task)
            && (admission.Granted? ==> admission.permit == Fresh(request))
            && (admission.Granted? && request.task == task ==>
                  TaskOf(s', task).attempts < c.taskBudget && (request.retry ==> TaskOf(s', task).retries < c.retryBudget))
  {
    hide Check, TelemetryAfter, CircuitAfter, CooldownAfter;
    CheckKeepsCounts(c, Observe(c, s, observed, now), s.queue[index].request, now, at, checked, task);
  }

  lemma StartCounts(c: Config, s: State, p: Permit, at: Time, choice: Choice, task: Id)
    requires Recent(s, task, at) && task !in choice.tasks && StartError(s, p).None?
    ensures var s' := Start(c, s, p, false, at, choice).0;
            && TaskOf(s', task).attempts == TaskOf(s, task).attempts + (if p.request.task == task then 1 else 0)
            && TaskOf(s', task).retries == TaskOf(s, task).retries + (if p.request.task == task && p.request.retry then 1 else 0)
  {
    hide Survey, Spend;
    SurveyKeepsCounts(c, s, p.request.task, at, choice, task);
  }

  lemma FinishKeepsCounts(c: Config, s: State, p: Permit, outcome: Outcome, at: Time, surveyed: Choice, draw: Draw, task: Id)
    requires Recent(s, task, at) && task !in surveyed.tasks && task !in draw.choice.tasks
    ensures SameCounts(s, Lane.Finish(c, s, p, outcome, at, surveyed, draw).0, task)
  {
    hide Survey, RecordOutcome, Recent;
    SurveyKeepsCounts(c, s, p.request.task, at, surveyed, task);
    RecordOutcomeKeepsCounts(c, Survey(c, s, p.request.task, at, surveyed), p.request.task, at, outcome, draw, task);
  }

  /** An exhausted task is refused until its counters are forgotten: once
      nothing else holds it back, a check refuses it for its budget if and only
      if the task was seen within the retention window, or holds a place, and
      the cap does not evict it. */
  lemma ExhaustedUntilForgotten(c: Config, s: State, request: Request, now: Time, at: Time, choice: Choice)
    requires c.Valid() && TaskOf(s, request.task).attempts >= c.taskBudget
    requires GateVerdict(c, Lane.Expire(c, s, now, choice), now).Pass?
    ensures Check(c, s, request, now, at, choice).1 == Refuse(TaskBudgetExhausted)
       <==> Recent(s, request.task, now) && request.task !in choice.tasks
  {
    hide PruneRequests, YoungAttempts, Keepers, RecentRates, ExpireTelemetry, CircuitChecked, GateVerdict;
    assert request.task in s.tasks;
  }

  // ----- Steps -----

  ghost predicate Budgeted(c: Config, w: World, task: Id) {
    var counts := TaskOf(w.gov, task);
    && OneLane(w)
    && (forall i :: 0 <= i < |w.permits| ==> !w.permits[i].receiptAware)
    && StartedFor(w.permits, task) == counts.attempts <= c.taskBudget
    && RetriedFor(w.permits, task) == counts.retries <= c.retryBudget
    && (forall i :: 0 <= i < |w.permits| ==>
          var p := w.permits[i];
          !p.completed && !p.started && p.request.task == task ==>
            counts.attempts < c.taskBudget && (p.request.retry ==> counts.retries < c.retryBudget))
  }

  lemma GrantKeepsCounts(permits: seq<Permit>, request: Request, task: Id)
    ensures StartedFor(permits + [Fresh(request)], task) == StartedFor(permits, task)
    ensures RetriedFor(permits + [Fresh(request)], task) == RetriedFor(permits, task)
  {
    assert (permits + [Fresh(request)])[..|permits|] == permits;
  }

  lemma AskingKeepsBudget(c: Config, w: World, step: Label, task: Id)
    requires Enabled(c, w, step) && Budgeted(c, w, task) && (step.Admit? || step.Look?)
    requires Recent(w.gov, task, Instant(w, step)) && Spares(step, task)
    ensures Budgeted(c, Step(c, w, step), task)
  {
    hide TryAdmit, QueueCheck, StartedFor, RetriedFor, OneLane, Recent;
    StepKeepsOneLane(c, w, step);
    if step.Admit? {
      AdmitKeepsCounts(c, w.gov, step.request, step.at, step.observed, step.cancelled, step.pruned, step.checked, task);
      GrantKeepsCounts(w.permits, step.request, task);
    } else {
      LookKeepsCounts(c, w.gov, step.index, step.now, step.at, step.observed, step.cancelled, step.checked, task);
      GrantKeepsCounts(w.permits, w.gov.queue[step.index].request, task);
    }
  }

  lemma StartingCounts(permits: seq<Permit>, p: Permit, task: Id)
    requires permits != [] && var last := permits[|permits| - 1]; !last.started && p.started && p.request == last.request
    ensures var after := permits[|permits| - 1 := p];
            && StartedFor(after, task) == StartedFor(permits, task) + (if p.request.task == task then 1 else 0)
            && RetriedFor(after, task) == RetriedFor(permits, task) + (if p.request.task == task && p.request.retry then 1 else 0)
  {
    assert permits[|permits| - 1 := p][..|permits| - 1] == permits[..|permits| - 1];
  }

  lemma StartKeepsBudget(c: Config, w: World, step: Label, task: Id)
    requires Enabled(c, w, step) && Budgeted(c, w, task) && step.Begin? && !step.receiptAware
    requires Recent(w.gov, task, step.at) && Spares(step, task)
    ensures Budgeted(c, Step(c, w, step), task)
  {
    hide BeginAttempt, StartedFor, RetriedFor, Recent;
    StepKeepsOneLane(c, w, step);
    var p := w.permits[step.permit];
    if StartError(w.gov, p).None? {
      StartCounts(c, w.gov, p, step.at, step.surveyed, task);
      StartingCounts(w.permits, Start(c, w.gov, p, false, step.at, step.surveyed).1, task);
    } else {
      assert w.permits[step.permit := p] == w.permits;
    }
  }

  lemma OtherStepKeepsBudget(c: Config, w: World, step: Label, task: Id)
    requires Enabled(c, w, step) && Budgeted(c, w, task) && !(step.Admit? || step.Look? || step.Begin?)
    requires Recent(w.gov, task, Instant(w, step)) && Spares(step, task)
    ensures Budgeted(c, Step(c, w, step), task)
  {
    hide Step, StartedFor, RetriedFor, OneLane, Recent, SameCounts;
    var w' := Step(c, w, step);
    StepKeepsOneLane(c, w, step);
    OtherStepKeepsCounts(c, w, step, task);
    SameCountsMeans(w.gov, w'.gov, task);
    if step.Join? {
      JoinKeepsPermits(c, w, step);
    } else {
      OtherStepKeepsPermits(c, w, step);
    }
    CountsDependOnStarts(w.permits, w'.permits, task);
  }

  lemma SameCountsMeans(s: State, s': State, task: Id)
    requires SameCounts(s, s', task)
    ensures TaskOf(s', task).attempts == TaskOf(s, task).attempts && TaskOf(s', task).retries == TaskOf(s, task).retries
  {
  }

  lemma JoinKeepsPermits(c: Config, w: World, step: Label)
    requires Enabled(c, w, step) && step.Join?
    ensures Step(c, w, step).permits == w.permits
  {
    hide Enqueue;
  }

  lemma CompletingKeepsCounts(s: State, id: Id, at: Time, task: Id)
    ensures SameCounts(s, Vacate(Complete(s, id, at)), task)
  {
  }

  lemma OtherStepKeepsCounts(c: Config, w: World, step: Label, task: Id)
    requires Enabled(c, w, step) && !(step.Admit? || step.Look? || step.Begin?)
    requires forall i :: 0 <= i < |w.permits| ==> !w.permits[i].receiptAware
    requires Recent(w.gov, task, Instant(w, step)) && Spares(step, task)
    ensures SameCounts(w.gov, Step(c, w, step).gov, task)
  {
    hide Lane.Finish, Lane.Expire, Prune, Complete, Vacate, Rejection, NewReceipts, PolicyError;
    match step {
      case Join(_, at, pruned) => PruneKeepsCounts(w.gov, at, pruned, task);
      case Finish(index, outcome, at, surveyed, draw) => FinishKeepsCounts(c, w.gov, w.permits[index], outcome, at, surveyed, draw, task);
      case Save(at, pruned) => ExpireKeepsCounts(c, w.gov, at, pruned, task);
      case Emit(other, at, surveyed) => SurveyKeepsCounts(c, w.gov, other, at, surveyed, task);
      case Abort(index, at) => CompletingKeepsCounts(w.gov, w.permits[index].request.id, at, task);
      case Abandon(index) => AbandoningKeepsCounts(w.gov, w.permits[index], task);
      case _ =>
    }
  }

  lemma AbandoningKeepsCounts(s: State, p: Permit, task: Id)
    ensures SameCounts(s, CancelBeforeStart(s, p).0, task)
  {
  }

  // ----- Runs -----

  // The task is never out of the governor's sight for a retention window, and
  // no cap evicts it.
  predicate InSight(c: Config, w: World, steps: seq<Label>, task: Id)
    requires Runnable(c, w, steps)
    decreases |steps|
  {
    steps == [] ||
    (Recent(w.gov, task, Instant(w, steps[0])) && Spares(steps[0], task) && InSight(c, Step(c, w, steps[0]), steps[1..], task))
  }

  lemma {:induction false} RunKeepsBudget(c: Config, w: World, steps: seq<Label>, task: Id)
    requires Runnable(c, w, steps) && AllPlain(steps) && InSight(c, w, steps, task) && Budgeted(c, w, task)
    ensures Budgeted(c, Run(c, w, steps), task)
    decreases |steps|
  {
    hide Step, Budgeted, Recent, Spares;
    if steps != [] {
      var step := steps[0];
      if step.Admit? || step.Look? {
        AskingKeepsBudget(c, w, step, task);
      } else if step.Begin? {
        StartKeepsBudget(c, w, step, task);
      } else {
        OtherStepKeepsBudget(c, w, step, task);
      }
      RunKeepsBudget(c, Step(c, w, step), steps[1..], task);
    }
  }

  /** In every run of plain starts, whoever else uses the lane, a task that
      stays in sight starts at most its task budget of attempts, at most its
      retry budget of them retries, and its counters say exactly how many. */
  lemma TaskBudgetsHold(c: Config, clock: Time, steps: seq<Label>, task: Id)
    requires c.Valid() && Runnable(c, Initially(clock), steps) && AllPlain(steps) && InSight(c, Initially(clock), steps, task)
    ensures var w := Run(c, Initially(clock), steps);
            && StartedFor(w.permits, task) == TaskOf(w.gov, task).attempts <= c.taskBudget
            && RetriedFor(w.permits, task) == TaskOf(w.gov, task).retries <= c.retryBudget
  {
    hide Runnable, Run, InSight;
    FreshIsBudgeted(c, clock, task);
    RunKeepsBudget(c, Initially(clock), steps, task);
  }

  lemma FreshIsBudgeted(c: Config, clock: Time, task: Id)
    requires c.Valid()
    ensures Budgeted(c, Initially(clock), task)
  {
  }
}
