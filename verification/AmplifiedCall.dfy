/** The run in which one receipt-aware call pushes a window past its ceiling: it
    was admitted as one attempt and reports two.
 */
module AmplifiedCall {
  import opened Clock
  import opened Policy
  import opened Ledger
  import opened Retention
  import opened AttemptReceipts
  import opened Lane
  import opened Runs
  import opened LedgerOrder
  import opened RateLimits
  import opened Windows
  import opened Evictions
  import opened AmbiguousRetry

  const SERVED := Outcome(Success, 0, ZERO, Delivered)
  const FIRST := Receipt(1, "first", "call", 1, "p", "m", "h", NOON, NOON, Ok, Initial, true)
  const AGAIN := Receipt(1, "second", "call", 2, "p", "m", "h", NOON, NOON, Ok, ExecutorRetry, true)
  const BOTH := ReceiptSet(1, "call", true, [FIRST, AGAIN], 900)
  const FINISH := FinishWithReceipts(0, SERVED, Some(BOTH), NOON, Draws({}, NONE, [Draw(0, NONE), Draw(0, NONE)]))

  lemma BothAreAccepted()
    ensures Rejection(BOTH, Expected(POLICY, PERMIT, NOON)).None?
  {
    AcceptsExactlyWellFormed(BOTH, Expected(POLICY, PERMIT, NOON));
  }

  lemma BothAreNew(s: State)
    requires s.attemptIDs == map[]
    ensures NewReceipts(s, BOTH, NOON, {}) == [FIRST, AGAIN]
    ensures |OutcomesToRecord([FIRST, AGAIN], CallOutcome(SERVED))| == 2
  {
    assert YoungAttempts(s.attemptIDs, NOON) - {} == map[];
    assert [FIRST, AGAIN][1..] == [AGAIN] && [AGAIN][1..] == [];
    assert Unseen([AGAIN], map[]) == [AGAIN];
  }

  lemma BothAreCharged(w: World)
    requires w.permits == [PERMIT] && w.clock == NOON && w.gov.attemptIDs == map[]
    ensures Enabled(POLICY, w, FINISH) && Instants(ChargesOf(POLICY, w, FINISH)) == [NOON, NOON]
  {
    hide Rejection, NewReceipts, OutcomesToRecord;
    BothAreAccepted();
    BothAreNew(w.gov);
    assert [FIRST, AGAIN][1..] == [AGAIN] && [AGAIN][1..] == [];
    assert Charged(PERMIT, [AGAIN], NOON) == [Event(NOON, "task")];
    assert Charged(PERMIT, [FIRST, AGAIN], NOON) == [Event(NOON, "task")] + [Event(NOON, "task")];
  }

  /** The ceiling can be passed: under a valid policy that allows one start in
      ten minutes, this run debits two at one instant. */
  lemma CeilingIsPassed() returns (steps: seq<Label>)
    ensures POLICY.Valid() && Runnable(POLICY, Initially(NOON), steps) && FittingRun(POLICY, Initially(NOON), steps)
    ensures |Within(DebitTimes(POLICY, Initially(NOON), steps), TEN_MINUTES, NOON)| > POLICY.rolling10m
  {
    hide Runnable, Run, Step, Enabled, ChargesOf, Unhurt, FittingRun, Bare, FewAbout, Within;
    CallIsMade();
    var w := Run(POLICY, Initially(NOON), STEPS);
    BothAreCharged(w);
    OneStep(POLICY, w, FINISH);
    RunsCompose(POLICY, Initially(NOON), STEPS, [FINISH]);
    steps := STEPS + [FINISH];
    OpeningIsFree();
    DebitsCompose(POLICY, Initially(NOON), STEPS, [FINISH]);
    assert DebitTimes(POLICY, Initially(NOON), steps) == [NOON, NOON];
    TwoInOne();
    CallStepsAreBare();
    BareRunFits(POLICY, Initially(NOON), steps, {"task"}, {"first", "second"});
  }

  lemma OneStep(c: Config, w: World, step: Label)
    requires Enabled(c, w, step)
    ensures Runnable(c, w, [step]) && DebitTimes(c, w, [step]) == Instants(ChargesOf(c, w, step))
  {
    hide Step, Enabled, ChargesOf, Instants;
    assert [step][1..] == [];
    assert DebitTimes(c, Step(c, w, step), [step][1..]) == [];
    var times := Instants(ChargesOf(c, w, step));
    assert times + [] == times;
  }

  lemma OpeningIsFree()
    requires Runnable(POLICY, Initially(NOON), STEPS)
    ensures DebitTimes(POLICY, Initially(NOON), STEPS) == []
  {
    hide Step, Enabled;
    var w0 := Initially(NOON);
    var w1 := Step(POLICY, w0, STEPS[0]);
    assert STEPS[1..] == [STEPS[1]];
    OneStep(POLICY, w1, STEPS[1]);
    assert Instants(ChargesOf(POLICY, w0, STEPS[0])) == [] && Instants(ChargesOf(POLICY, w1, STEPS[1])) == [];
  }

  lemma {:induction false} DebitsCompose(c: Config, w: World, first: seq<Label>, second: seq<Label>)
    requires Runnable(c, w, first) && Runnable(c, Run(c, w, first), second) && Runnable(c, w, first + second)
    ensures DebitTimes(c, w, first + second) == DebitTimes(c, w, first) + DebitTimes(c, Run(c, w, first), second)
    decreases |first|
  {
    hide Step, Enabled, ChargesOf;
    if first == [] {
      assert first + second == second;
    } else {
      assert (first + second)[1..] == first[1..] + second;
      DebitsCompose(c, Step(c, w, first[0]), first[1..], second);
    }
  }

  lemma TwoInOne()
    ensures |Within([NOON, NOON], TEN_MINUTES, NOON)| == 2
  {
    assert Within([NOON, NOON], TEN_MINUTES, NOON) == {0, 1};
  }

  lemma CallStepsAreBare()
    ensures forall i :: 0 <= i < |STEPS| ==> Bare(STEPS[i], {"task"}, {"first", "second"})
    ensures Bare(FINISH, {"task"}, {"first", "second"})
    ensures FewAbout(Initially(NOON), {"task"}, {"first", "second"}) && Room({"task"}, {"first", "second"})
  {
  }
}
