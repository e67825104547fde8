/** Why the bound on bypasses asks that granted permits are started: a permit
    cancelled before its start counts as no turn, so a caller that keeps
    cancelling its grants passes the head of the queue any number of times.
 */
module CancelledTurns {
  import opened Clock
  import opened Policy
  import opened Ledger
  import opened Retention
  import opened Lane
  import opened Runs
  import opened RefreshRace
  import opened Fairness
  import opened Evictions

  const WAITING := Request("task", "waiting", false)
  const PASSER := Request("other", "passer", false)
  const SERVED := Outcome(Success, 0, ZERO, Delivered)

  // The head waits for a task that just used its quantum; everyone else may
  // pass.
  predicate Bypassable(s: State) {
    && NothingOld(s, LATER)
    && !s.closed && !s.inFlight && s.activeTask == ""
    && |s.queue| == 1 && s.queue[0].request == WAITING
    && s.currentTask == "task" && s.consecutiveTurns == 1
    && s.circuit.state.Closed? && !s.circuit.refreshRequired && s.cooldownUntil == ZERO
    && s.lastStart + SECOND <= LATER
    && TaskOf(s, "other").attempts == 0
    && PASSER.id !in s.requestIDs
  }

  const TASKS: set<Id> := {"task", "other"}

  predicate AllBare(steps: seq<Label>) {
    forall i :: 0 <= i < |steps| ==> Bare(steps[i], TASKS, {})
  }

  // ----- One pass -----

  function Pass(index: nat): seq<Label> {
    [Join(PASSER, LATER, NONE), Look(1, LATER, LATER, None, false, NONE), Abandon(index)]
  }

  lemma PasserJoins(s: State)
    requires Bypassable(s)
    ensures Enqueue(POLICY, s, PASSER, LATER, NONE) == (Joined(s, PASSER), None)
    ensures Eligible(POLICY, Joined(s, PASSER)) == 1
  {
    hide Prune;
    NothingPruned(s, LATER);
    var queue := Joined(s, PASSER).queue;
    assert queue == [s.queue[0], Waiter(s.tickets, PASSER)];
    assert FirstOther(queue[1..], "task") == 0;
  }

  function Granting(s: State): State {
    s.(inFlight := true, activeTask := "other", tasks := Touched(s.tasks, "other", LATER), tickets := s.tickets + 1,
       requestIDs := s.requestIDs[PASSER.id := Pending])
  }

  lemma PasserIsGranted(s: State)
    requires Bypassable(s)
    ensures QueueCheck(POLICY, Joined(s, PASSER), 1, LATER, LATER, None, false, NONE) == (Granting(s), Granted(Fresh(PASSER)))
  {
    hide Lane.Expire, Touched, NothingOld;
    var joined := Joined(s, PASSER);
    JoinedIsRecent(s);
    NothingExpired(joined, LATER);
    TouchedAttempts(s.tasks, "other", LATER);
    var touched := joined.(tasks := Touched(s.tasks, "other", LATER));
    assert Check(POLICY, joined, PASSER, LATER, LATER, NONE) == (touched, Verdict.Pass);
    assert touched.queue == s.queue + [Waiter(s.tickets, PASSER)];
    assert WithoutWaiter(touched, 1).queue == s.queue;
    assert (s.requestIDs[PASSER.id := Pending] - {PASSER.id})[PASSER.id := Pending] == s.requestIDs[PASSER.id := Pending];
  }

  lemma JoinedIsRecent(s: State)
    requires Bypassable(s)
    ensures NothingOld(Joined(s, PASSER), LATER)
  {
  }

  lemma PasserCancels(s: State)
    requires Bypassable(s)
    ensures var (s', p', error) := CancelBeforeStart(Granting(s), Fresh(PASSER));
            Bypassable(s') && s'.queue == s.queue && p' == Fresh(PASSER).(completed := true) && error.None?
  {
    var s' := CancelBeforeStart(Granting(s), Fresh(PASSER)).0;
    assert s'.requestIDs == s.requestIDs;
  }

  // ----- Runs -----

  lemma PassRuns(w: World)
    requires Bypassable(w.gov) && w.clock <= LATER
    ensures var steps := Pass(|w.permits|);
            && Runnable(POLICY, w, steps) && InTurnRun(POLICY, w, steps)
            && var w' := Run(POLICY, w, steps);
               Bypassable(w'.gov) && w'.gov.queue == w.gov.queue && w'.clock == LATER && |w'.permits| == |w.permits| + 1
  {
    hide Bypassable, Enqueue, QueueCheck, CancelBeforeStart, Joined, Granting, Eligible;
    var s, steps := w.gov, Pass(|w.permits|);
    PasserJoins(s);
    PasserIsGranted(s);
    PasserCancels(s);
    JoinedQueue(s);
    var w1 := Step(POLICY, w, steps[0]);
    var w2 := Step(POLICY, w1, steps[1]);
    var w3 := Step(POLICY, w2, steps[2]);
    ThreeSteps(w, steps);
    assert steps[1..][0] == steps[1] && steps[1..][1..] == [steps[2]] && [steps[2]][1..] == [];
    assert InTurnRun(POLICY, w2, [steps[2]]);
    assert InTurnRun(POLICY, w1, steps[1..]);
  }

  lemma JoinedQueue(s: State)
    requires Bypassable(s)
    ensures |Joined(s, PASSER).queue| == 2
  {
  }

  lemma {:induction false} InTurnComposes(c: Config, w: World, first: seq<Label>, second: seq<Label>)
    requires Runnable(c, w, first) && Runnable(c, Run(c, w, first), second)
    requires InTurnRun(c, w, first) && InTurnRun(c, Run(c, w, first), second)
    ensures Runnable(c, w, first + second) && InTurnRun(c, w, first + second)
    decreases |first|
  {
    hide Step, Enabled;
    RunsCompose(c, w, first, second);
    if first == [] {
      assert first + second == second;
    } else {
      assert (first + second)[1..] == first[1..] + second;
      InTurnComposes(c, Step(c, w, first[0]), first[1..], second);
    }
  }

  lemma {:induction false} PassesRun(w: World, n: nat) returns (steps: seq<Label>)
    requires Bypassable(w.gov) && w.clock <= LATER
    ensures Runnable(POLICY, w, steps) && InTurnRun(POLICY, w, steps)
    ensures AllBare(steps)
    ensures var w' := Run(POLICY, w, steps); w'.gov.queue == w.gov.queue && |w'.permits| == |w.permits| + n
    decreases n
  {
    hide Bypassable, Step, Enabled;
    if n == 0 {
      steps := [];
    } else {
      var once := Pass(|w.permits|);
      PassRuns(w);
      var rest := PassesRun(Run(POLICY, w, once), n - 1);
      RunsCompose(POLICY, w, once, rest);
      InTurnComposes(POLICY, w, once, rest);
      steps := once + rest;
    }
  }

  // The history: one call of the task, which then queues again.
  lemma HeadWaits() returns (history: seq<Label>)
    ensures Runnable(POLICY, Initially(NOON), history)
    ensures AllBare(history)
    ensures var w := Run(POLICY, Initially(NOON), history); Bypassable(w.gov) && w.clock == LATER
  {
    hide Runnable, Run, RefreshRace.Idle, Served, Lane.Finish, Enqueue;
    var w0 := Initially(NOON);
    IdleAtFirst();
    CallFinished(FRESH, "first", NOON, SERVED);
    var call := Call(w0, "first", NOON, SERVED);
    CallRuns(w0, "first", NOON, SERVED, FRESH_CIRCUIT, ZERO);
    var w1 := Called(w0, "first", NOON, FRESH_CIRCUIT, ZERO, []);
    HeadJoins();
    JoinRuns(w1);
    RunsCompose(POLICY, w0, call, [Join(WAITING, LATER, NONE)]);
    history := call + [Join(WAITING, LATER, NONE)];
    CallIsBare(w0);
  }

  lemma CallIsBare(w: World)
    ensures AllBare(Call(w, "first", NOON, SERVED)) && Bare(Join(WAITING, LATER, NONE), TASKS, {})
  {
  }

  lemma HeadJoins()
    ensures var s := Served(FRESH, "first", NOON, FRESH_CIRCUIT, ZERO);
            var (s', refusal) := Enqueue(POLICY, s, WAITING, LATER, NONE);
            refusal.None? && Bypassable(s')
  {
    hide Prune;
    var s := Served(FRESH, "first", NOON, FRESH_CIRCUIT, ZERO);
    NothingPruned(s, LATER);
  }

  lemma JoinRuns(w: World)
    requires w.clock <= LATER
    ensures var step := Join(WAITING, LATER, NONE);
            && Runnable(POLICY, w, [step])
            && Run(POLICY, w, [step]).gov == Enqueue(POLICY, w.gov, WAITING, LATER, NONE).0
            && Run(POLICY, w, [step]).clock == LATER
  {
    hide Enqueue;
    var step := Join(WAITING, LATER, NONE);
    assert Run(POLICY, Step(POLICY, w, step), []) == Step(POLICY, w, step);
  }

  /** However large `n`, there is a reachable state and a run from it, every
      waiter looking only in its turn, that grants `n` permits while the head
      of the queue stays where it is. */
  lemma CancellingPassesWithoutEnd(n: nat) returns (history: seq<Label>, steps: seq<Label>)
    ensures POLICY.Valid() && Runnable(POLICY, Initially(NOON), history) && FittingRun(POLICY, Initially(NOON), history)
    ensures var w := Run(POLICY, Initially(NOON), history);
            && Runnable(POLICY, w, steps) && FittingRun(POLICY, w, steps) && InTurnRun(POLICY, w, steps)
            && |Run(POLICY, w, steps).permits| - |w.permits| == n
            && |w.gov.queue| == 1 && Run(POLICY, w, steps).gov.queue == w.gov.queue
  {
    hide Runnable, Run, InTurnRun, NothingOld, FittingRun, FewAbout, Bare;
    history := HeadWaits();
    NobodyAbout(NOON);
    BareRunFits(POLICY, Initially(NOON), history, TASKS, {});
    steps := PassesRun(Run(POLICY, Initially(NOON), history), n);
    BareRunFits(POLICY, Run(POLICY, Initially(NOON), history), steps, TASKS, {});
  }
}
