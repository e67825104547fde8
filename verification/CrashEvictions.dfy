/** The evictions a history of the attempt protocol may make.
 */
module CrashEvictions {
  import opened Clock
  import opened Policy
  import opened Ledger
  import opened Retention
  import opened AttemptReceipts
  import opened Lane
  import opened Runs
  import opened Evictions
  import opened CrashRecovery
  import opened CrashRuns

  ghost predicate ActFits(c: Config, s: System, a: Act)
    requires Possible(c, s, a)
  {
    match a
    case Boot(at, restoring) => Fits(Merge(FRESH, s.durable.saved, at), at, restoring)
    case Resume(_, at, restoring) => Fits(Merge(FRESH, s.durable.saved, at), at, restoring)
    case Reload(at, restoring) => Fits(Merge(s.world.gov, s.durable.saved, at), at, restoring)
    case Settle(_, _) => true
    case Continue => true
    case Call => true
    case Lose => true
    case Crash => true
    case _ => Fitting(c, s.world, a.step)
  }

  ghost predicate FittingHistory(c: Config, s: System, acts: seq<Act>)
    requires Feasible(c, s, acts)
    decreases |acts|
  {
    acts == [] || (ActFits(c, s, acts[0]) && FittingHistory(c, CrashRuns.Next(c, s, acts[0]), acts[1..]))
  }

  predicate BareAct(a: Act, tasks: set<Id>, ids: set<Id>) {
    match a
    case Boot(_, restoring) => restoring == NO_ONE
    case Resume(_, _, restoring) => restoring == NO_ONE
    case Reload(_, restoring) => restoring == NO_ONE
    case Settle(_, _) => true
    case Continue => true
    case Call => true
    case Lose => true
    case Crash => true
    case _ => Bare(a.step, tasks, ids)
  }

  predicate FewSaved(d: Durable, tasks: set<Id>, ids: set<Id>) {
    && d.saved.tasks.Keys <= tasks && d.saved.attemptIDs.Keys <= ids
    && forall id :: id in d.rows ==> d.rows[id].task in tasks
  }

  ghost predicate FewInSystem(s: System, tasks: set<Id>, ids: set<Id>) {
    FewAbout(s.world, tasks, ids) && FewSaved(s.durable, tasks, ids) && "" in tasks
  }

  lemma MergingLeavesFew(g: State, saved: Persisted, at: Time, tasks: set<Id>, ids: set<Id>)
    requires Few(g, tasks, ids) && saved.tasks.Keys <= tasks && saved.attemptIDs.Keys <= ids && Room(tasks, ids)
    ensures Fits(Merge(g, saved, at), at, NO_ONE) && Few(Restore(g, saved, at, NO_ONE), tasks, ids)
  {
    hide ChoiceFits, Prune, RestoreCircuit, Dated;
    FewFit(Merge(g, saved, at), tasks, ids, at);
    PruneLeavesFew(Merge(g, saved, at), tasks, ids, at);
  }

  lemma SettlingLeavesFewSaved(d: Durable, id: nat, now: Time, tasks: set<Id>, ids: set<Id>)
    requires id in d.rows && FewSaved(d, tasks, ids)
    ensures FewSaved(Reconcile(d, id, now), tasks, ids)
  {
  }

  lemma SectionFits(c: Config, s: System, a: Act, tasks: set<Id>, ids: set<Id>)
    requires Possible(c, s, a) && FewInSystem(s, tasks, ids) && Room(tasks, ids) && BareAct(a, tasks, ids)
    requires a.Turn? || a.Start? || a.Intend? || a.Forgo? || a.Finish? || a.Record?
    ensures ActFits(c, s, a) && FewInSystem(CrashRuns.Next(c, s, a), tasks, ids)
  {
    hide Step, Fitting, Bare, ResultOf, FullReplay, Trail, Few, Enabled;
    BareStepFits(c, s.world, a.step, tasks, ids);
    ProjectsFew(Step(c, s.world, a.step).gov, tasks, ids);
    RowIsFew(s.world, if a.Intend? then s.phase.permit else 0, tasks);
  }

  lemma ProjectsFew(g: State, tasks: set<Id>, ids: set<Id>)
    requires Few(g, tasks, ids)
    ensures Project(g).tasks.Keys <= tasks && Project(g).attemptIDs.Keys <= ids
  {
  }

  lemma RowIsFew(w: World, permit: nat, tasks: set<Id>)
    requires FewPermits(w.permits, tasks) && "" in tasks
    ensures RowOf(w, permit).task in tasks
  {
    if permit < |w.permits| {
      assert w.permits[permit] in w.permits;
    }
  }

  lemma ProcessFits(c: Config, s: System, a: Act, tasks: set<Id>, ids: set<Id>)
    requires Possible(c, s, a) && FewInSystem(s, tasks, ids) && Room(tasks, ids) && BareAct(a, tasks, ids)
    requires !(a.Turn? || a.Start? || a.Intend? || a.Forgo? || a.Finish? || a.Record?)
    ensures ActFits(c, s, a) && FewInSystem(CrashRuns.Next(c, s, a), tasks, ids)
  {
    hide Restore, Merge, SavedMarks, Reconcile, ChoiceFits;
    match a {
      case Boot(at, _) => MergingLeavesFew(FRESH, s.durable.saved, at, tasks, ids);
      case Resume(_, at, _) => MergingLeavesFew(FRESH, s.durable.saved, at, tasks, ids);
      case Reload(at, _) => MergingLeavesFew(s.world.gov, s.durable.saved, at, tasks, ids);
      case Settle(id, now) => SettlingLeavesFewSaved(s.durable, id, now, tasks, ids);
      case _ =>
    }
  }

  /** A history that names few enough tasks and receipts evicts no one, and
      may. */
  lemma {:induction false} BareHistoryFits(c: Config, s: System, acts: seq<Act>, tasks: set<Id>, ids: set<Id>)
    requires Feasible(c, s, acts) && FewInSystem(s, tasks, ids) && Room(tasks, ids)
    requires forall i :: 0 <= i < |acts| ==> BareAct(acts[i], tasks, ids)
    ensures FittingHistory(c, s, acts)
    decreases |acts|
  {
    hide CrashRuns.Next, Possible, ActFits, BareAct, FewInSystem;
    if acts != [] {
      var a := acts[0];
      if a.Turn? || a.Start? || a.Intend? || a.Forgo? || a.Finish? || a.Record? {
        SectionFits(c, s, a, tasks, ids);
      } else {
        ProcessFits(c, s, a, tasks, ids);
      }
      BareHistoryFits(c, CrashRuns.Next(c, s, a), acts[1..], tasks, ids);
    }
  }
}
