/** The attempt protocol under crashes, as a state machine over the governor
    itself.

    One process at a time runs the protocol: any number of callers share its
    governor (their sections are the labels of `Runs`), one attempt at a time is
    under way, and the process may die between any two steps. Memory is a
    `World`; the store holds the attempt rows and the saved projection. What a
    finish debits, how it ends and whether the lane stays trusted is what the
    governor makes of the receipts it is given.
 */
module CrashRuns {
  import opened Clock
  import opened Policy
  import opened Ledger
  import opened Retention
  import opened AttemptReceipts
  import opened Lane
  import opened Runs
  import opened SingleLane
  import opened LedgerOrder
  import opened ReceiptRuns
  import opened ReceiptConservation
  import opened CrashRecovery
  import B = Bookkeeping

  // A process that resumes a task recovers that task's rows alone. `clean` says
  // that it found none open, `behind` that it charged the store for a debit the
  // governor in memory does not know of.
  datatype Phase =
    | Down
    | Resuming(task: Id, clean: bool, behind: bool)
    | Ready
    | Started(id: nat, permit: nat)
    | Intended(id: nat, permit: nat)
    | InCall(id: nat, permit: nat)
    | Ended(id: nat, permit: nat, result: FinishResult, replayed: bool)

  // `marks` names the attempt behind each entry of the ledger in memory and
  // `debits` counts every debit memory was given. The rest is history:
  // `reached` are the attempts whose call may have run, `claimed` the debits
  // their receipts justified, `added` those recovery put in, and `replayed` the
  // attempts recorded after an accepted set of receipts all seen before.
  datatype System = System(
    durable: Durable,
    world: World,
    marks: seq<nat>,
    debits: multiset<nat>,
    phase: Phase,
    next: nat,
    reached: set<nat>,
    claimed: multiset<nat>,
    added: multiset<nat>,
    replayed: set<nat>)

  function Beginning(clock: Time): System {
    System(EMPTY, Initially(clock), [], multiset{}, Down, 0, {}, multiset{}, multiset{}, {})
  }

  datatype Act =
    | Boot(at: Time, restoring: Choice)
    | Resume(task: Id, at: Time, restoring: Choice)
    | Settle(id: nat, now: Time)
    | Continue
    | Reload(at: Time, restoring: Choice)
    | Turn(step: Label)
    | Start(step: Label)
    | Intend(step: Label)
    | Forgo(step: Label)
    | Call
    | Finish(step: Label)
    | Record(step: Label)
    | Lose
    | Crash

  predicate Working(phase: Phase) {
    phase.Started? || phase.Intended? || phase.InCall? || phase.Ended?
  }

  // A section that belongs to no attempt under way.
  predicate Aside(step: Label) {
    !(step.Begin? || step.Abort? || step.Finish? || step.FinishWithReceipts?)
  }

  // The section that finishes the permit: receipts for a receipt-aware one.
  predicate Finishes(w: World, step: Label, permit: nat) {
    && permit < |w.permits|
    && (if w.permits[permit].receiptAware then step.FinishWithReceipts? && step.permit == permit else step.Finish? && step.permit == permit)
  }

  predicate Possible(c: Config, s: System, a: Act) {
    match a
    case Boot(at, _) => s.phase.Down? && s.world.clock <= at
    case Resume(_, at, _) => s.phase.Down? && s.world.clock <= at
    case Settle(id, _) => s.phase.Resuming? && id in s.durable.rows && Open(s.durable.rows[id]) && s.durable.rows[id].task == s.phase.task
    // Saved distrust blocks every continuation.
    case Continue => s.phase.Resuming? && SettledFor(s.durable.rows, s.phase.task) && !s.durable.saved.telemetry.unsafe
    // One kind of store reads the projection a second time before it goes on,
    // and goes on only if the task had left no attempt open.
    case Reload(at, _) =>
      s.phase.Resuming? && s.phase.clean && SettledFor(s.durable.rows, s.phase.task) && !s.durable.saved.telemetry.unsafe && s.world.clock <= at
    case Turn(step) => (s.phase.Ready? || Working(s.phase)) && Aside(step) && Enabled(c, s.world, step)
    case Start(step) =>
      s.phase.Ready? && step.Begin? && Enabled(c, s.world, step) && StartError(s.world.gov, s.world.permits[step.permit]).None?
    case Intend(step) => s.phase.Started? && step.Save? && Enabled(c, s.world, step)
    case Forgo(step) => s.phase.Started? && step.Abort? && step.permit == s.phase.permit && Enabled(c, s.world, step)
    case Call => s.phase.Intended?
    case Finish(step) => s.phase.InCall? && Finishes(s.world, step, s.phase.permit) && Enabled(c, s.world, step)
    case Record(step) => s.phase.Ended? && step.Save? && Enabled(c, s.world, step)
    case Lose => s.phase.Ended?
    case Crash => true
  }

  // ----- What memory and store hold -----

  function Awake(saved: Persisted, at: Time, restoring: Choice): World {
    World(Restore(FRESH, saved, at, restoring), [], 0, at, [], [], [])
  }

  // The marks of the saved entries a restore takes over.
  function DatedMarks(events: seq<Event>, marks: seq<nat>): seq<nat>
    requires |events| == |marks|
  {
    if events == [] then [] else (if events[0].at == ZERO then [] else [marks[0]]) + DatedMarks(events[1..], marks[1..])
  }

  function SavedMarks(d: Durable): seq<nat> {
    if |d.saved.rolling| == |d.marks| then DatedMarks(d.saved.rolling, d.marks) else []
  }

  // The last `size` of the old marks and the new ones.
  function Trail(marks: seq<nat>, extra: seq<nat>, size: nat): seq<nat> {
    var all := marks + extra;
    if size <= |all| then all[|all| - size..] else all
  }

  function ResultOf(c: Config, w: World, step: Label): FinishResult
    requires Enabled(c, w, step) && (step.Finish? || step.FinishWithReceipts?)
  {
    match step
    case Finish(index, outcome, at, surveyed, draw) => Lane.Finish(c, w.gov, w.permits[index], outcome, at, surveyed, draw).2
    case FinishWithReceipts(index, outcome, set_, at, draws) => FinishReceipts(c, w.gov, w.permits[index], outcome, set_, at, draws).2
  }

  // Whether the receipts pass validation and every one of them was retained
  // already when the call finished.
  predicate FullReplay(c: Config, w: World, step: Label)
    requires Enabled(c, w, step)
  {
    && step.FinishWithReceipts? && step.set_.Some?
    && Rejection(step.set_.value, Expected(c, w.permits[step.permit], step.at)).None?
    && forall r :: r in step.set_.value.receipts ==> r.attemptID in YoungAttempts(w.gov.attemptIDs, step.at) - step.draws.evicted
  }

  function AttemptStatus(outcome: OutcomeClass): Status {
    if outcome.UncertainReached? then Status.Uncertain else if outcome.Success? then Status.Completed else Status.Failed
  }

  function Intent(p: Permit): Row {
    Row(Status.Prepared, p.receiptAware, p.request.task, p.startedAt)
  }

  // The system after `step`, with one mark per debit in `extra`.
  function Stepped(c: Config, s: System, step: Label, extra: seq<nat>): System
    requires Enabled(c, s.world, step)
  {
    var w' := Step(c, s.world, step);
    s.(world := w', marks := Trail(s.marks, extra, |w'.gov.ledger|), debits := s.debits + multiset(extra))
  }

  // A durable write: the row, and the whole projection.
  function Written(s: System, rows: map<nat, Row>): Durable {
    Durable(rows, Project(s.world.gov), s.marks, s.debits)
  }

  function Restored(s: System, at: Time, restoring: Choice): System {
    s.(world := Awake(s.durable.saved, at, restoring), marks := SavedMarks(s.durable), debits := s.durable.debits)
  }

  function Settling(s: System, id: nat, now: Time): System
    requires s.phase.Resuming? && id in s.durable.rows
  {
    var settled := s.(durable := Reconcile(s.durable, id, now));
    if Owes(s.durable.rows[id]) then settled.(added := s.added + multiset{id}, phase := s.phase.(behind := true)) else settled
  }

  function Reloaded(s: System, at: Time, restoring: Choice): System {
    s.(world := s.world.(gov := Restore(s.world.gov, s.durable.saved, at, restoring), clock := at),
       marks := s.marks + SavedMarks(s.durable),
       debits := s.debits + multiset(SavedMarks(s.durable)),
       phase := Ready)
  }

  function RowOf(w: World, permit: nat): Row {
    if permit < |w.permits| then Intent(w.permits[permit]) else Row(Status.Prepared, false, "", ZERO)
  }

  function Intending(c: Config, s: System, step: Label): System
    requires s.phase.Started? && Enabled(c, s.world, step)
  {
    var s' := Stepped(c, s, step, []);
    s'.(durable := Written(s', s.durable.rows[s.phase.id := RowOf(s.world, s.phase.permit)]), phase := Intended(s.phase.id, s.phase.permit))
  }

  function Finishing(c: Config, s: System, step: Label): System
    requires s.phase.InCall? && Finishes(s.world, step, s.phase.permit) && Enabled(c, s.world, step)
  {
    var result := ResultOf(c, s.world, step);
    var claims := if s.world.permits[s.phase.permit].receiptAware then seq(result.debited, _ => s.phase.id) else [];
    Stepped(c, s, step, claims).(phase := Ended(s.phase.id, s.phase.permit, result, FullReplay(c, s.world, step)),
                                 claimed := s.claimed + multiset(claims))
  }

  function Marked(rows: map<nat, Row>, id: nat, status: Status): map<nat, Row> {
    if id in rows then rows[id := rows[id].(status := status)] else rows
  }

  function Recording(c: Config, s: System, step: Label): System
    requires s.phase.Ended? && Enabled(c, s.world, step)
  {
    var s' := Stepped(c, s, step, []);
    s'.(durable := Written(s', Marked(s.durable.rows, s.phase.id, AttemptStatus(s.phase.result.outcome))),
        phase := Ready,
        replayed := if s.phase.replayed then s.replayed + {s.phase.id} else s.replayed)
  }

  function Next(c: Config, s: System, a: Act): System
    requires Possible(c, s, a)
  {
    match a
    case Boot(at, restoring) => Restored(s, at, restoring).(phase := Ready)
    case Resume(task, at, restoring) => Restored(s, at, restoring).(phase := Resuming(task, SettledFor(s.durable.rows, task), false))
    case Settle(id, now) => Settling(s, id, now)
    case Continue => s.(phase := Ready)
    case Reload(at, restoring) => Reloaded(s, at, restoring)
    case Turn(step) => Stepped(c, s, step, [])
    // A plain start debits at once; a receipt-aware one leaves the debit to
    // its receipts.
    case Start(step) =>
      Stepped(c, s, step, if step.receiptAware then [] else [s.next]).(phase := Started(s.next, step.permit), next := s.next + 1)
    case Intend(step) => Intending(c, s, step)
    case Forgo(step) => Stepped(c, s, step, []).(phase := Ready)
    case Call => s.(phase := InCall(s.phase.id, s.phase.permit), reached := s.reached + {s.phase.id})
    case Finish(step) => Finishing(c, s, step)
    case Record(step) => Recording(c, s, step)
    case Lose => s.(phase := Ready)
    case Crash => s.(phase := Down)
  }

  predicate Feasible(c: Config, s: System, acts: seq<Act>)
    decreases |acts|
  {
    acts == [] || (Possible(c, s, acts[0]) && Feasible(c, Next(c, s, acts[0]), acts[1..]))
  }

  function History(c: Config, s: System, acts: seq<Act>): System
    requires Feasible(c, s, acts)
    decreases |acts|
  {
    if acts == [] then s else History(c, Next(c, s, acts[0]), acts[1..])
  }

  // ----- What a receipt finish comes to -----

  /** A receipt finish debits nothing exactly when the set is accepted and every
      receipt in it was retained already; it then ends uncertain and leaves the
      lane distrusted. */
  lemma FreeExactlyWhenReplayed(c: Config, s: State, p: Permit, outcome: Outcome, set_: Option<ReceiptSet>, now: Time, draws: Draws)
    requires FinishError(p).None? && p.receiptAware
    requires Settles(c, s, p, outcome, set_, now, draws.evicted) ==>
      |draws.outcomes| == |OutcomesToRecord(NewReceipts(s, set_.value, now, draws.evicted), CallOutcome(outcome))|
    ensures var (s', p', result) := FinishReceipts(c, s, p, outcome, set_, now, draws);
            && (result.debited == 0 <==>
                  && set_.Some? && Rejection(set_.value, Expected(c, p, now)).None?
                  && forall r :: r in set_.value.receipts ==> r.attemptID in YoungAttempts(s.attemptIDs, now) - draws.evicted)
            && (result.debited == 0 ==> result.outcome.UncertainReached? && s'.telemetry.unsafe)
            && p' == p.(completed := true)
  {
    hide Complaints, Survey, Lane.Reconciled, RecordAll, OutcomesToRecord, CallOutcome, SettledClass, Unseen, YoungAttempts, IdentifierValid,
         Conclude, Complete, DebitUncertain, LatestStart;
    if set_.Some? && Rejection(set_.value, Expected(c, p, now)).None? {
      UnseenSize(set_.value.receipts, YoungAttempts(s.attemptIDs, now) - draws.evicted);
    }
    FinishReceiptsStaysUnsafe(c, s, p, outcome, set_, now, draws);
    ReceiptFinishCompletes(c, s, p, outcome, set_, now, draws);
  }

  // ----- The attempt under way -----

  predicate AtWork(w: World, permit: nat, done: bool) {
    permit < |w.permits| && w.permits[permit].started && w.permits[permit].completed == done
  }

  // The phase says what the permit and the receipts say.
  predicate Wired(s: System) {
    && (Working(s.phase) ==> AtWork(s.world, s.phase.permit, s.phase.Ended?))
    && (s.phase.Ended? && s.world.permits[s.phase.permit].receiptAware ==>
          && (s.phase.result.debited == 0 <==> s.phase.replayed)
          && (s.phase.result.debited == 0 ==> s.phase.result.outcome.UncertainReached?))
    && (s.phase.Ended? && !s.world.permits[s.phase.permit].receiptAware ==> !s.phase.replayed)
    && (s.phase.Resuming? && s.phase.behind ==> s.durable.saved.telemetry.unsafe)
  }

  lemma AsideKeepsPermit(c: Config, w: World, step: Label, permit: nat)
    requires Enabled(c, w, step) && Aside(step) && permit < |w.permits| && w.permits[permit].started
    ensures var w' := Step(c, w, step); permit < |w'.permits| && w'.permits[permit] == w.permits[permit]
  {
    hide Lane.TryAdmit, QueueCheck, Enqueue, Lane.Expire;
  }

  lemma StartingIsAtWork(c: Config, w: World, step: Label)
    requires Enabled(c, w, step) && step.Begin? && StartError(w.gov, w.permits[step.permit]).None?
    ensures var w' := Step(c, w, step); AtWork(w', step.permit, false) && w'.permits[step.permit].receiptAware == step.receiptAware
  {
    hide BeginAttempt;
  }

  lemma FinishingEnds(c: Config, w: World, step: Label, permit: nat)
    requires Enabled(c, w, step) && AtWork(w, permit, false) && Finishes(w, step, permit)
    ensures var w', result, aware := Step(c, w, step), ResultOf(c, w, step), w.permits[permit].receiptAware;
            && AtWork(w', permit, true) && w'.permits[permit].receiptAware == aware
            && (aware ==> (result.debited == 0 <==> FullReplay(c, w, step)) && (result.debited == 0 ==> result.outcome.UncertainReached?))
            && (!aware ==> !FullReplay(c, w, step))
  {
    hide Rejection, Survey, RecordOutcome, FinishReceipts, Complete, NewReceipts, YoungAttempts;
    if step.FinishWithReceipts? {
      FreeExactlyWhenReplayed(c, w.gov, w.permits[permit], step.outcome, step.set_, step.at, step.draws);
    }
  }

  // ----- The marks -----

  // Memory and store mark every ledger entry, and only debits they were given.
  predicate Footed(s: System) {
    && (!s.phase.Down? ==> |s.marks| == |s.world.gov.ledger| && multiset(s.marks) <= s.debits)
    && |s.durable.marks| == |s.durable.saved.rolling| && multiset(s.durable.marks) <= s.durable.debits
  }

  lemma {:induction false} DatedMarksMatch(events: seq<Event>, marks: seq<nat>)
    requires |events| == |marks|
    ensures |DatedMarks(events, marks)| == |Dated(events)| && multiset(DatedMarks(events, marks)) <= multiset(marks)
  {
    if events != [] {
      DatedMarksMatch(events[1..], marks[1..]);
      assert marks == [marks[0]] + marks[1..];
    }
  }

  lemma SavedMarksMatch(d: Durable)
    requires |d.marks| == |d.saved.rolling| && multiset(d.marks) <= d.debits
    ensures |SavedMarks(d)| == |Dated(d.saved.rolling)| && multiset(SavedMarks(d)) <= d.debits
  {
    DatedMarksMatch(d.saved.rolling, d.marks);
  }

  lemma SuffixIsContained(all: seq<nat>, from: nat)
    requires from <= |all|
    ensures multiset(all[from..]) <= multiset(all)
  {
    assert all == all[..from] + all[from..];
  }

  lemma TrailIsFooted(marks: seq<nat>, extra: seq<nat>, size: nat, debits: multiset<nat>)
    requires size <= |marks| + |extra| && multiset(marks) <= debits
    ensures |Trail(marks, extra, size)| == size && multiset(Trail(marks, extra, size)) <= debits + multiset(extra)
  {
    var all := marks + extra;
    SuffixIsContained(all, |all| - size);
    assert multiset(all) == multiset(marks) + multiset(extra);
    assert multiset(marks) + multiset(extra) <= debits + multiset(extra);
  }

  // ----- The books -----

  function PhaseOf(s: System): B.Phase {
    match s.phase
    case Down => B.Phase.Down
    case Resuming(_, _, behind) => B.Phase.Resuming(behind)
    case Ready => B.Phase.Ready
    case Started(id, permit) => B.Phase.Started(id, Aware(s.world, permit))
    case Intended(id, permit) => B.Phase.Intended(id, Aware(s.world, permit))
    case InCall(id, permit) => B.Phase.InCall(id, Aware(s.world, permit))
    case Ended(id, permit, result, _) =>
      B.Phase.Ended(id, Aware(s.world, permit), AttemptStatus(result.outcome), if Aware(s.world, permit) then result.debited else 0)
  }

  predicate Aware(w: World, permit: nat) {
    permit < |w.permits| && w.permits[permit].receiptAware
  }

  function BooksOf(s: System): B.Books {
    B.Books(s.durable.rows, s.durable.debits, s.debits, PhaseOf(s), s.next, s.reached, s.claimed, s.added, s.replayed)
  }

  function EntryOf(c: Config, s: System, a: Act): B.Entry
    requires Possible(c, s, a)
  {
    match a
    case Boot(_, _) => B.Entry.Boot
    case Resume(_, _, _) => B.Entry.Resume
    case Settle(id, _) => B.Entry.Settle(id)
    case Continue => B.Entry.Continue(multiset{})
    case Reload(_, _) => B.Entry.Continue(multiset(SavedMarks(s.durable)))
    case Turn(_) => B.Entry.Idle
    case Start(step) => B.Entry.Start(step.receiptAware)
    case Intend(_) => B.Entry.Intend(RowOf(s.world, s.phase.permit))
    case Forgo(_) => B.Entry.Forgo
    case Call => B.Entry.Call
    case Finish(step) => B.Entry.Finish(ResultOf(c, s.world, step).debited, AttemptStatus(ResultOf(c, s.world, step).outcome))
    case Record(_) => B.Entry.Record
    case Lose => B.Entry.Lose
    case Crash => B.Entry.Crash
  }

  lemma TurnKeepsBooks(c: Config, s: System, a: Act)
    requires Wired(s) && Possible(c, s, a) && (a.Turn? || a.Intend? || a.Record?)
    ensures B.Possible(BooksOf(s), EntryOf(c, s, a))
    ensures Wired(Next(c, s, a)) && BooksOf(Next(c, s, a)) == B.Next(BooksOf(s), EntryOf(c, s, a))
  {
    hide Step, Enabled, Project;
    if Working(s.phase) {
      AsideKeepsPermit(c, s.world, a.step, s.phase.permit);
    }
    assert s.debits + multiset([]) == s.debits;
  }

  lemma StartKeepsBooks(c: Config, s: System, a: Act)
    requires Wired(s) && Possible(c, s, a) && (a.Start? || a.Forgo?)
    ensures B.Possible(BooksOf(s), EntryOf(c, s, a))
    ensures Wired(Next(c, s, a)) && BooksOf(Next(c, s, a)) == B.Next(BooksOf(s), EntryOf(c, s, a))
  {
    hide Step, Enabled;
    if a.Start? {
      StartingIsAtWork(c, s.world, a.step);
    }
    assert s.debits + multiset([]) == s.debits;
  }

  lemma {:induction false} Copies(id: nat, n: nat)
    ensures multiset(seq(n, _ => id)) == multiset{}[id := n]
  {
    if n > 0 {
      Copies(id, n - 1);
      assert seq(n, _ => id) == seq(n - 1, _ => id) + [id];
    }
  }

  lemma FinishKeepsBooks(c: Config, s: System, a: Act)
    requires Wired(s) && Possible(c, s, a) && a.Finish?
    ensures B.Possible(BooksOf(s), EntryOf(c, s, a))
    ensures Wired(Next(c, s, a)) && BooksOf(Next(c, s, a)) == B.Next(BooksOf(s), EntryOf(c, s, a))
  {
    hide Step, Enabled, ResultOf, FullReplay;
    FinishingEnds(c, s.world, a.step, s.phase.permit);
    var result, id := ResultOf(c, s.world, a.step), s.phase.id;
    Copies(id, result.debited);
    assert s.debits + multiset([]) == s.debits && s.claimed + multiset([]) == s.claimed;
    assert s.debits + multiset{}[id := result.debited] == s.debits[id := s.debits[id] + result.debited];
    assert s.claimed + multiset{}[id := result.debited] == s.claimed[id := s.claimed[id] + result.debited];
    assert s.debits[id := s.debits[id] + 0] == s.debits && s.claimed[id := s.claimed[id] + 0] == s.claimed;
  }

  lemma SettlingKeepsBooks(c: Config, s: System, a: Act)
    requires Wired(s) && Possible(c, s, a) && a.Settle?
    ensures B.Possible(BooksOf(s), EntryOf(c, s, a))
    ensures Wired(Next(c, s, a)) && BooksOf(Next(c, s, a)) == B.Next(BooksOf(s), EntryOf(c, s, a))
  {
  }

  lemma RestoringKeepsBooks(c: Config, s: System, a: Act)
    requires Wired(s) && Footed(s) && Possible(c, s, a) && (a.Boot? || a.Resume? || a.Reload? || a.Continue?)
    ensures B.Possible(BooksOf(s), EntryOf(c, s, a))
    ensures Wired(Next(c, s, a)) && BooksOf(Next(c, s, a)) == B.Next(BooksOf(s), EntryOf(c, s, a))
  {
    hide Restore, SavedMarks, Open;
    SavedMarksMatch(s.durable);
    assert s.debits + multiset{} == s.debits;
  }

  lemma CallingKeepsBooks(c: Config, s: System, a: Act)
    requires Wired(s) && Possible(c, s, a) && (a.Call? || a.Lose? || a.Crash?)
    ensures B.Possible(BooksOf(s), EntryOf(c, s, a))
    ensures Wired(Next(c, s, a)) && BooksOf(Next(c, s, a)) == B.Next(BooksOf(s), EntryOf(c, s, a))
  {
  }

  /** The governor under the protocol keeps the books: every act is possible for
      them and does to them what it does to the system. */
  lemma ActsKeepBooks(c: Config, s: System, a: Act)
    requires Wired(s) && Footed(s) && Possible(c, s, a)
    ensures B.Possible(BooksOf(s), EntryOf(c, s, a))
    ensures Wired(Next(c, s, a)) && BooksOf(Next(c, s, a)) == B.Next(BooksOf(s), EntryOf(c, s, a))
  {
    hide Next, BooksOf, EntryOf, Wired, Footed;
    match a {
      case Turn(_) => TurnKeepsBooks(c, s, a);
      case Intend(_) => TurnKeepsBooks(c, s, a);
      case Record(_) => TurnKeepsBooks(c, s, a);
      case Start(_) => StartKeepsBooks(c, s, a);
      case Forgo(_) => StartKeepsBooks(c, s, a);
      case Finish(_) => FinishKeepsBooks(c, s, a);
      case Settle(_, _) => SettlingKeepsBooks(c, s, a);
      case Boot(_, _) => RestoringKeepsBooks(c, s, a);
      case Resume(_, _, _) => RestoringKeepsBooks(c, s, a);
      case Reload(_, _) => RestoringKeepsBooks(c, s, a);
      case Continue => RestoringKeepsBooks(c, s, a);
      case _ => CallingKeepsBooks(c, s, a);
    }
  }

  // ----- The ledger behind the books -----

  lemma SteppedIsFooted(c: Config, s: System, step: Label, extra: seq<nat>)
    requires Footed(s) && !s.phase.Down? && Enabled(c, s.world, step) && |extra| == |ChargesOf(c, s.world, step)|
    ensures var s' := Stepped(c, s, step, extra); |s'.marks| == |s'.world.gov.ledger| && multiset(s'.marks) <= s'.debits
  {
    hide Step, ChargesOf, Trail;
    StepGrows(c, s.world, step);
    TrailIsFooted(s.marks, extra, |Step(c, s.world, step).gov.ledger|, s.debits);
  }

  lemma AsideChargesNothing(c: Config, w: World, step: Label)
    requires Enabled(c, w, step) && !step.Begin? && !step.FinishWithReceipts?
    ensures ChargesOf(c, w, step) == []
  {
  }

  // A mark per charge: what a start and a finish put on the books is what they
  // put on the ledger.
  lemma OneMarkPerCharge(c: Config, s: System, a: Act)
    requires Wired(s) && Possible(c, s, a) && (a.Start? || a.Finish?)
    ensures a.Start? ==> |ChargesOf(c, s.world, a.step)| == if a.step.receiptAware then 0 else 1
    ensures a.Finish? ==>
      |ChargesOf(c, s.world, a.step)| == if s.world.permits[s.phase.permit].receiptAware then ResultOf(c, s.world, a.step).debited else 0
  {
    hide FinishReceipts, Lane.Finish, Charges, Rejection;
    if a.Finish? && a.step.FinishWithReceipts? {
      var step, p := a.step, s.world.permits[a.step.permit];
      ReceiptsGrow(c, s.world.gov, p, step.outcome, step.set_, step.at, step.draws);
    }
  }

  lemma SectionIsFooted(c: Config, s: System, a: Act)
    requires Wired(s) && Footed(s) && Possible(c, s, a)
    requires a.Turn? || a.Start? || a.Intend? || a.Forgo? || a.Finish? || a.Record?
    ensures Footed(Next(c, s, a))
  {
    hide ChargesOf, ResultOf, Stepped, Enabled, FullReplay, Marked;
    if a.Start? || a.Finish? {
      OneMarkPerCharge(c, s, a);
    } else {
      AsideChargesNothing(c, s.world, a.step);
    }
    var extra := if a.Start? && !a.step.receiptAware then [s.next]
                 else if a.Finish? && s.world.permits[s.phase.permit].receiptAware then seq(ResultOf(c, s.world, a.step).debited, _ => s.phase.id)
                 else [];
    SteppedIsFooted(c, s, a.step, extra);
    SteppedKeepsStore(c, s, a.step, extra);
  }

  lemma SteppedKeepsStore(c: Config, s: System, step: Label, extra: seq<nat>)
    requires Enabled(c, s.world, step)
    ensures var s' := Stepped(c, s, step, extra); s'.durable == s.durable && s'.phase == s.phase
  {
  }

  lemma RestoreKeepsLedger(g: State, saved: Persisted, at: Time, restoring: Choice)
    ensures Restore(g, saved, at, restoring).ledger == g.ledger + Dated(saved.rolling)
  {
    hide PruneRequests, YoungTasks, YoungAttempts, Keepers, RestoreCircuit, MergeSeen, Dated;
  }

  lemma ProcessIsFooted(c: Config, s: System, a: Act)
    requires Footed(s) && Possible(c, s, a)
    requires a.Boot? || a.Resume? || a.Continue? || a.Reload? || a.Call? || a.Lose? || a.Crash?
    ensures Footed(Next(c, s, a))
  {
    hide Restore, SavedMarks, Dated;
    SavedMarksMatch(s.durable);
    if a.Boot? || a.Resume? {
      RestoreKeepsLedger(FRESH, s.durable.saved, a.at, a.restoring);
    } else if a.Reload? {
      RestoreKeepsLedger(s.world.gov, s.durable.saved, a.at, a.restoring);
    }
  }

  lemma SettlingIsFooted(c: Config, s: System, a: Act)
    requires Footed(s) && Possible(c, s, a) && a.Settle?
    ensures Footed(Next(c, s, a))
  {
    hide ConservativeDebit, CrashRecovery.Charged;
    ReconcilingIsCharged(s.durable, a.id, a.now);
    ChargedIsFooted(s.durable, Reconcile(s.durable, a.id, a.now), Debtor(s.durable.rows[a.id], a.id), Debt(s.durable.rows[a.id], a.now));
  }

  lemma ChargedIsFooted(d: Durable, r: Durable, marks: seq<nat>, events: seq<Event>)
    requires CrashRecovery.Charged(d, r, marks, events) && |marks| == |events|
    requires |d.marks| == |d.saved.rolling| && multiset(d.marks) <= d.debits
    ensures |r.marks| == |r.saved.rolling| && multiset(r.marks) <= r.debits
  {
  }

  lemma ActsAreFooted(c: Config, s: System, a: Act)
    requires Wired(s) && Footed(s) && Possible(c, s, a)
    ensures Footed(Next(c, s, a))
  {
    hide Next, Footed, Wired;
    if a.Settle? {
      SettlingIsFooted(c, s, a);
    } else if a.Boot? || a.Resume? || a.Continue? || a.Reload? || a.Call? || a.Lose? || a.Crash? {
      ProcessIsFooted(c, s, a);
    } else {
      SectionIsFooted(c, s, a);
    }
  }

  // ----- Histories -----

  ghost predicate Sound(s: System) {
    Wired(s) && Footed(s) && B.Sound(BooksOf(s))
  }

  lemma BeginningIsSound(clock: Time)
    ensures Sound(Beginning(clock)) && B.AllFair(BooksOf(Beginning(clock)))
  {
    B.BlankIsSound();
  }

  /** Every act, crashes included, keeps the books of every attempt. */
  lemma ActIsSound(c: Config, s: System, a: Act)
    requires Sound(s) && Possible(c, s, a)
    ensures Sound(Next(c, s, a))
  {
    hide Next, Wired, Footed, BooksOf, EntryOf;
    ActsKeepBooks(c, s, a);
    ActsAreFooted(c, s, a);
    B.StepIsSound(BooksOf(s), EntryOf(c, s, a));
  }

  lemma {:induction false} HistoryIsSound(c: Config, s: System, acts: seq<Act>)
    requires Sound(s) && Feasible(c, s, acts)
    ensures Sound(History(c, s, acts))
    decreases |acts|
  {
    hide Next, Possible, Sound;
    if acts != [] {
      ActIsSound(c, s, acts[0]);
      HistoryIsSound(c, Next(c, s, acts[0]), acts[1..]);
    }
  }

  /** At every point of every history, crash or not, an attempt that may have
      reached the upstream has a durable debit, or is receipt-aware and either
      open, for recovery to settle, or recorded after a full replay. */
  lemma ReachedIsOnRecord(c: Config, clock: Time, acts: seq<Act>, id: nat)
    requires Feasible(c, Beginning(clock), acts) && id in History(c, Beginning(clock), acts).reached
    ensures var s := History(c, Beginning(clock), acts);
            && id in s.durable.rows
            && (s.durable.debits[id] >= 1
                || (s.durable.rows[id].receiptAware && (s.durable.rows[id].status == Status.Prepared || id in s.replayed)))
  {
    hide Feasible, History, Wired, Footed;
    BeginningIsSound(clock);
    HistoryIsSound(c, Beginning(clock), acts);
    B.ReachedIsOnTheBooks(BooksOf(History(c, Beginning(clock), acts)), id);
  }

  /** After any number of crashes and recovery passes, whatever rows of other
      tasks are still open, an attempt that may have reached the upstream and
      whose row is settled has a durable debit if and only if it was not
      recorded after a full replay: an accepted set of receipts every one of
      which was retained already. */
  lemma SettledIsPaidUnlessReplayed(c: Config, clock: Time, acts: seq<Act>, id: nat)
    requires Feasible(c, Beginning(clock), acts)
    requires var s := History(c, Beginning(clock), acts);
             id in s.reached && (id in s.durable.rows ==> !Open(s.durable.rows[id]))
    ensures var s := History(c, Beginning(clock), acts); s.durable.debits[id] >= 1 <==> id !in s.replayed
  {
    hide Feasible, History, Wired, Footed;
    BeginningIsSound(clock);
    HistoryIsSound(c, Beginning(clock), acts);
    B.SettledIsPaid(BooksOf(History(c, Beginning(clock), acts)), id);
  }

  // ----- A second restore -----

  // A continuation that restores saved entries memory already holds.
  predicate Doubles(s: System, a: Act) {
    a.Reload? && SavedMarks(s.durable) != []
  }

  predicate NeverDoubles(c: Config, s: System, acts: seq<Act>)
    requires Feasible(c, s, acts)
    decreases |acts|
  {
    acts == [] || (!Doubles(s, acts[0]) && NeverDoubles(c, Next(c, s, acts[0]), acts[1..]))
  }

  // Whoever starts work holds exactly the debits that are saved.
  predicate LoadsExactly(c: Config, s: System, a: Act)
    requires Possible(c, s, a)
  {
    a.Boot? || a.Continue? || a.Reload? ==> Next(c, s, a).debits == s.durable.debits
  }

  predicate AlwaysLoadsExactly(c: Config, s: System, acts: seq<Act>)
    requires Feasible(c, s, acts)
    decreases |acts|
  {
    acts == [] || (LoadsExactly(c, s, acts[0]) && AlwaysLoadsExactly(c, Next(c, s, acts[0]), acts[1..]))
  }

  lemma LoadsExactlyUnlessDoubled(c: Config, s: System, a: Act)
    requires Sound(s) && Possible(c, s, a)
    ensures LoadsExactly(c, s, a) <==> !Doubles(s, a)
  {
    hide Restore, SavedMarks, Footed, Open;
    if a.Continue? || a.Reload? {
      forall id: nat
        ensures s.debits[id] == s.durable.debits[id]
      {
        assert B.Balanced(BooksOf(s), id);
      }
      assert s.debits == s.durable.debits;
      assert |s.debits + multiset(SavedMarks(s.durable))| == |s.debits| + |SavedMarks(s.durable)|;
    }
  }

  /** A process always starts from exactly the debits that are saved, if and
      only if no continuation reads the projection a second time while its
      ledger holds an entry. */
  lemma {:induction false} SecondRestoreIsTheOnlyExcess(c: Config, s: System, acts: seq<Act>)
    requires Sound(s) && Feasible(c, s, acts)
    ensures AlwaysLoadsExactly(c, s, acts) <==> NeverDoubles(c, s, acts)
    decreases |acts|
  {
    hide Next, Possible, Sound, LoadsExactly, Doubles;
    if acts != [] {
      LoadsExactlyUnlessDoubled(c, s, acts[0]);
      ActIsSound(c, s, acts[0]);
      SecondRestoreIsTheOnlyExcess(c, Next(c, s, acts[0]), acts[1..]);
    }
  }

  lemma {:induction false} HistoryIsFair(c: Config, s: System, acts: seq<Act>)
    requires Sound(s) && B.AllFair(BooksOf(s)) && Feasible(c, s, acts) && NeverDoubles(c, s, acts)
    ensures B.AllFair(BooksOf(History(c, s, acts)))
    decreases |acts|
  {
    hide Next, Wired, Footed, BooksOf, EntryOf, B.Next, B.Sound, B.AllFair;
    if acts != [] {
      var a := acts[0];
      ActIsSound(c, s, a);
      ActsKeepBooks(c, s, a);
      UndoubledIsFair(c, s, a);
      B.StepIsFair(BooksOf(s), EntryOf(c, s, a));
      HistoryIsFair(c, Next(c, s, a), acts[1..]);
    }
  }

  lemma UndoubledIsFair(c: Config, s: System, a: Act)
    requires Possible(c, s, a) && !Doubles(s, a)
    ensures EntryOf(c, s, a).Continue? ==> EntryOf(c, s, a).again == multiset{}
  {
    hide ResultOf, SavedMarks;
  }

  /** Nothing is overcharged, unless a continuation restores saved entries a
      second time: recovery adds at most one debit per row, a plain attempt has
      exactly one, a receipt-aware one never more than its receipts justified
      and that one; and no attempt has more entries on the saved ledger than
      debits. */
  lemma RecoveryAddsAtMostOne(c: Config, clock: Time, acts: seq<Act>, id: nat)
    requires Feasible(c, Beginning(clock), acts) && NeverDoubles(c, Beginning(clock), acts)
    ensures var s := History(c, Beginning(clock), acts);
            && s.added[id] <= 1
            && |s.durable.marks| == |s.durable.saved.rolling| && multiset(s.durable.marks)[id] <= s.durable.debits[id]
            && (id in s.durable.rows ==>
                  if s.durable.rows[id].receiptAware then s.durable.debits[id] <= s.claimed[id] + s.added[id]
                  else s.added[id] == 0 && s.durable.debits[id] == 1)
  {
    hide Feasible, History, NeverDoubles, Wired;
    BeginningIsSound(clock);
    HistoryIsSound(c, Beginning(clock), acts);
    HistoryIsFair(c, Beginning(clock), acts);
    B.NothingIsOvercharged(BooksOf(History(c, Beginning(clock), acts)), id);
  }

  // ----- Distrust -----

  // A projection nobody trusts, and no process that does not know it.
  predicate Barred(s: System) {
    && s.durable.saved.telemetry.unsafe
    && (s.phase.Down? || s.phase.Resuming? ||
        (s.phase.Ready? && Unsafe(s.world.gov) && forall i :: 0 <= i < |s.world.permits| ==> s.world.permits[i].completed))
  }

  lemma RestoreKeepsDistrust(g: State, saved: Persisted, at: Time, restoring: Choice)
    ensures Unsafe(Restore(g, saved, at, restoring)) == saved.telemetry.unsafe
  {
    hide PruneRequests, YoungTasks, YoungAttempts, Keepers, RestoreCircuit, MergeSeen, Dated;
  }

  lemma BarredTurn(c: Config, s: System, step: Label)
    requires Barred(s) && Possible(c, s, Turn(step))
    ensures Barred(Next(c, s, Turn(step)))
  {
    hide Step, Enabled;
    var w' := Step(c, s.world, step);
    if step.Admit? || step.Look? || step.Join? {
      AskingStaysUnsafe(c, s.world, step);
    } else {
      OtherStepStaysUnsafe(c, s.world, step);
    }
    forall i | 0 <= i < |w'.permits|
      ensures w'.permits[i].completed
    {
      CompletedForGood(c, s.world, step, i);
    }
  }

  lemma BarredRecovery(c: Config, s: System, a: Act)
    requires Barred(s) && Possible(c, s, a) && (a.Boot? || a.Resume? || a.Settle?)
    ensures Barred(Next(c, s, a)) && Next(c, s, a).next == s.next && Next(c, s, a).reached == s.reached
  {
    hide Restore, ConservativeDebit, SavedMarks;
    match a {
      case Boot(at, restoring) => RestoreKeepsDistrust(FRESH, s.durable.saved, at, restoring);
      case Settle(id, now) => ReconcilingIsCharged(s.durable, id, now);
      case _ =>
    }
  }

  lemma BarredAct(c: Config, s: System, a: Act)
    requires Barred(s) && Possible(c, s, a)
    ensures Barred(Next(c, s, a)) && Next(c, s, a).next == s.next && Next(c, s, a).reached == s.reached
  {
    hide Step, Enabled, Names, Reconcile, Reloaded, Restored;
    match a {
      case Turn(step) => BarredTurn(c, s, step);
      case Boot(_, _) => BarredRecovery(c, s, a);
      case Resume(_, _, _) => BarredRecovery(c, s, a);
      case Settle(_, _) => BarredRecovery(c, s, a);
      case Start(step) => BarredStart(c, s, step);
      case _ =>
    }
  }

  lemma BarredStart(c: Config, s: System, step: Label)
    requires Barred(s)
    ensures !Possible(c, s, Start(step))
  {
    hide Step;
  }

  /** Distrust survives crashes: once the saved projection is unsafe and no
      attempt is under way, no history ever starts another. */
  lemma {:induction false} DistrustSurvivesCrashes(c: Config, s: System, acts: seq<Act>)
    requires Barred(s) && Feasible(c, s, acts)
    ensures var s' := History(c, s, acts); Barred(s') && s'.next == s.next && s'.reached == s.reached
    decreases |acts|
  {
    hide Next, Possible, Barred;
    if acts != [] {
      BarredAct(c, s, acts[0]);
      DistrustSurvivesCrashes(c, Next(c, s, acts[0]), acts[1..]);
    }
  }
}
