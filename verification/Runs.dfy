/** Whole runs of one governor: any interleaving of its locked sections, by any
    number of callers, under a clock that never goes back.

    A `World` is the governor's state, every permit it ever granted, and a
    history of what the runs' theorems speak about. A `Label` is one locked
    section with everything it takes from outside. A section that emits an
    event takes another budget snapshot for it, if events are wanted at all:
    that snapshot is a label of its own, `Emit`.
 */
module Runs {
  import opened Clock
  import opened Policy
  import opened Retention
  import opened AttemptReceipts
  import opened Lane

  // A receipt the governor debited, and when.
  datatype Sighting = Sighting(id: Id, startedAt: Time, seenAt: Time)

  datatype World = World(
    gov: State,
    permits: seq<Permit>,
    refreshes: nat,
    clock: Time,
    starts: seq<Time>,
    rates: seq<Time>,
    sightings: seq<Sighting>)

  // `refreshes` counts refresh permits not yet finished, `starts` lists the
  // instants of plain starts and `rates` those of the rate outcomes finished
  // since the last acknowledgement.
  function Initially(clock: Time): World {
    World(FRESH, [], 0, clock, [], [], [])
  }

  datatype Label =
    | Admit(request: Request, at: Time, observed: Option<TelemetrySnapshot>, cancelled: bool, pruned: Choice, checked: Choice)
    | Join(request: Request, at: Time, pruned: Choice)
    | Look(index: nat, now: Time, at: Time, observed: Option<TelemetrySnapshot>, cancelled: bool, checked: Choice)
    | Leave(index: nat)
    | Begin(permit: nat, receiptAware: bool, at: Time, surveyed: Choice)
    | Abandon(permit: nat)
    | Abort(permit: nat, at: Time)
    | Finish(permit: nat, outcome: Outcome, at: Time, surveyed: Choice, draw: Draw)
    | FinishWithReceipts(permit: nat, outcome: Outcome, set_: Option<ReceiptSet>, at: Time, draws: Draws)
    | BeginRefresh
    | FinishRefresh(success: bool)
    | Acknowledge
    | Shut
    | Save(at: Time, pruned: Choice)
    | Emit(task: Id, at: Time, surveyed: Choice)

  function Instant(w: World, step: Label): Time {
    match step
    case Admit(_, at, _, _, _, _) => at
    case Join(_, at, _) => at
    case Look(_, _, at, _, _, _) => at
    case Begin(_, _, at, _) => at
    case Abort(_, at) => at
    case Finish(_, _, at, _, _) => at
    case FinishWithReceipts(_, _, _, at, _) => at
    case Save(at, _) => at
    case Emit(_, at, _) => at
    case _ => w.clock
  }

  // What the label names exists: the waiter, the permit, the refresh permit,
  // and one draw per recorded outcome.
  predicate Names(c: Config, w: World, step: Label) {
    match step
    case Look(index, now, at, _, _, _) => index < |w.gov.queue| && ZERO < now <= at
    case Leave(index) => index < |w.gov.queue|
    case Begin(permit, _, _, _) => permit < |w.permits|
    case Abandon(permit) => permit < |w.permits|
    case Abort(permit, _) => permit < |w.permits|
    case Finish(permit, _, _, _, _) => permit < |w.permits|
    case FinishWithReceipts(permit, outcome, set_, at, draws) =>
      permit < |w.permits| &&
      (Settles(c, w.gov, w.permits[permit], outcome, set_, at, draws.evicted) ==>
         |draws.outcomes| == |OutcomesToRecord(NewReceipts(w.gov, set_.value, at, draws.evicted), CallOutcome(outcome))|)
    case FinishRefresh(_) => w.refreshes > 0
    case _ => true
  }

  predicate Enabled(c: Config, w: World, step: Label) {
    w.clock <= Instant(w, step) && Names(c, w, step)
  }

  function Admitted(w: World, gov: State, admission: Admission): World {
    w.(gov := gov, permits := if admission.Granted? then w.permits + [admission.permit] else w.permits)
  }

  function WithPermit(w: World, index: nat, gov: State, permit: Permit): World
    requires index < |w.permits|
  {
    w.(gov := gov, permits := w.permits[index := permit])
  }

  function Rates(outcome: Outcome, result: FinishResult, at: Time): seq<Time> {
    if result.error.None? && AsRecorded(outcome).class_.RateCapacity? then [at] else []
  }

  function Sightings(receipts: seq<Receipt>, at: Time): seq<Sighting> {
    seq(|receipts|, i requires 0 <= i < |receipts| => Sighting(receipts[i].attemptID, receipts[i].startedAt, at))
  }

  // What a receipt finish adds to the history.
  function NewSightings(c: Config, s: State, p: Permit, outcome: Outcome, set_: Option<ReceiptSet>, at: Time, draws: Draws): seq<Sighting> {
    if Settles(c, s, p, outcome, set_, at, draws.evicted) then Sightings(NewReceipts(s, set_.value, at, draws.evicted), at) else []
  }

  function Step(c: Config, w: World, step: Label): World
    requires Enabled(c, w, step)
  {
    Move(c, w, step).(clock := Instant(w, step))
  }

  function Move(c: Config, w: World, step: Label): World
    requires Names(c, w, step)
  {
    match step
    case Admit(request, at, observed, cancelled, pruned, checked) =>
      var (gov, admission) := TryAdmit(c, w.gov, request, at, observed, cancelled, pruned, checked);
      Admitted(w, gov, admission)
    case Join(request, at, pruned) =>
      w.(gov := Enqueue(c, w.gov, request, at, pruned).0)
    case Look(index, now, at, observed, cancelled, checked) =>
      var (gov, admission) := QueueCheck(c, w.gov, index, now, at, observed, cancelled, checked);
      Admitted(w, gov, admission)
    case Leave(index) =>
      w.(gov := WithoutWaiter(w.gov, index))
    case Begin(index, receiptAware, at, surveyed) =>
      var (gov, permit, error) := Start(c, w.gov, w.permits[index], receiptAware, at, surveyed);
      WithPermit(w, index, gov, permit).(starts := w.starts + (if error.None? && !receiptAware then [at] else []))
    case Abandon(index) =>
      var (gov, permit, _) := CancelBeforeStart(w.gov, w.permits[index]);
      WithPermit(w, index, gov, permit)
    case Abort(index, at) =>
      var (gov, permit, _) := CancelAfterStart(w.gov, w.permits[index], at);
      WithPermit(w, index, gov, permit)
    case Finish(index, outcome, at, surveyed, draw) =>
      var (gov, permit, result) := Lane.Finish(c, w.gov, w.permits[index], outcome, at, surveyed, draw);
      WithPermit(w, index, gov, permit).(rates := w.rates + Rates(outcome, result, at))
    case FinishWithReceipts(index, outcome, set_, at, draws) =>
      var (gov, permit, _) := FinishReceipts(c, w.gov, w.permits[index], outcome, set_, at, draws);
      WithPermit(w, index, gov, permit).(sightings := w.sightings + NewSightings(c, w.gov, w.permits[index], outcome, set_, at, draws))
    case BeginRefresh =>
      var (gov, code) := Lane.BeginRefresh(w.gov);
      w.(gov := gov, refreshes := if code.Admitted? then w.refreshes + 1 else w.refreshes)
    case FinishRefresh(success) =>
      w.(gov := Lane.FinishRefresh(w.gov, success), refreshes := w.refreshes - 1)
    case Acknowledge =>
      var (gov, acknowledged) := Lane.Acknowledge(w.gov);
      w.(gov := gov, rates := if acknowledged then [] else w.rates)
    case Shut =>
      w.(gov := Close(w.gov))
    case Save(at, pruned) =>
      w.(gov := Expire(c, w.gov, at, pruned))
    case Emit(task, at, surveyed) =>
      w.(gov := Survey(c, w.gov, task, at, surveyed))
  }

  // Whether every label of a run is enabled in turn.
  predicate Runnable(c: Config, w: World, labels: seq<Label>)
    decreases |labels|
  {
    labels == [] || (Enabled(c, w, labels[0]) && Runnable(c, Step(c, w, labels[0]), labels[1..]))
  }

  function Run(c: Config, w: World, labels: seq<Label>): World
    requires Runnable(c, w, labels)
    decreases |labels|
  {
    if labels == [] then w else Run(c, Step(c, w, labels[0]), labels[1..])
  }

  lemma StepSetsClock(c: Config, w: World, step: Label)
    requires Enabled(c, w, step)
    ensures Step(c, w, step).clock == Instant(w, step)
  {
    hide Move;
  }

  lemma {:induction false} ClockOnlyAdvances(c: Config, w: World, steps: seq<Label>)
    requires Runnable(c, w, steps)
    ensures w.clock <= Run(c, w, steps).clock
    decreases |steps|
  {
    hide Move;
    if steps != [] {
      ClockOnlyAdvances(c, Step(c, w, steps[0]), steps[1..]);
    }
  }

  lemma {:induction false} RunsCompose(c: Config, w: World, first: seq<Label>, second: seq<Label>)
    requires Runnable(c, w, first) && Runnable(c, Run(c, w, first), second)
    ensures Runnable(c, w, first + second) && Run(c, w, first + second) == Run(c, Run(c, w, first), second)
    decreases |first|
  {
    hide Step, Enabled;
    if first == [] {
      assert first + second == second;
    } else {
      assert (first + second)[1..] == first[1..] + second;
      RunsCompose(c, Step(c, w, first[0]), first[1..], second);
    }
  }
}
